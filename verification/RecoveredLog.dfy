/** The log that recovery reads back from a crash image, and the directory it leaves. */
module RecoveredLog {
  import opened Codec
  import opened RecordStream
  import opened Log
  import opened Requests
  import opened Recovery
  import opened CrashImages

  // One chunk

  lemma LayoutEnds<R>(c: Codec<R>, id: nat, recs: seq<R>)
    ensures GoodEnd(Layout(c, 0, recs)) == |Stream(c, recs)|
    ensures ItemOffsets(id, Layout(c, 0, recs)) == Offsets(c, ChunkLog(id, recs))
  {
    var items := Layout(c, 0, recs);
    forall k | 0 <= k <= |recs| ensures ItemOffsets(id, items)[k] == Offsets(c, ChunkLog(id, recs))[k] {
      if k > 0 {
        LayoutAt(c, 0, recs, k - 1);
      }
    }
    if recs != [] {
      LayoutAt(c, 0, recs, |recs| - 1);
      assert recs[..|recs|] == recs;
    }
  }

  /** Opening a file that holds a prefix of a chunk: clean, or cut back to its whole records. */
  lemma OpenPrefix<R(!new)>(c: Codec<R>, recs: seq<R>, m: nat, f: File, canTruncate: bool)
    requires Lawful(c) && AllEncodable(c, recs) && HoldsPrefix(c, recs, m, f.os)
    ensures var body := Stream(c, recs[..m]);
            var items := Layout(c, 0, recs[..m]);
            OpenWithTruncate(c, f, canTruncate) ==
            if f.os == body then Ok(OpenedChunk(f, items, false))
            else if canTruncate then Ok(OpenedChunk(File(body, |body|), items, true))
            else if Parse(c, f.os, 0).tail == Torn then Err(ShortRecord)
            else Err(DamagedRecord)
  {
    ParseHoldsPrefix(c, recs, m, f.os);
    LayoutEnds(c, 0, recs[..m]);
    assert f.os[..|Stream(c, recs[..m])|] == Stream(c, recs[..m]);
  }

  lemma OffsetsEnd<R>(c: Codec<R>, ch: ChunkLog<R>)
    ensures Offsets(c, ch)[|ch.recs|] == End(c, ch)
  {
    assert ch.recs[..|ch.recs|] == ch.recs;
  }

  /** Loading such a file after the chunks before it. */
  lemma LoadPrefix<R(!new), S>(env: Env<R, S>, p: Progress<R, S>, ch: ChunkLog<R>, m: nat, canTruncate: bool)
    requires Lawful(env.codec) && AllEncodable(env.codec, ch.recs) && 0 < m <= |ch.recs|
    requires ch.id in p.disk && HoldsPrefix(env.codec, ch.recs, m, p.disk[ch.id].os)
    requires p.prevEnd == None || p.prevEnd == Some(ch.id)
    ensures var c := env.codec;
            var body, cut := Stream(c, ch.recs[..m]), ChunkLog(ch.id, ch.recs[..m]);
            var clean := p.disk[ch.id].os == body;
            var file := if clean then p.disk[ch.id] else File(body, |body|);
            var sm := Replay(env, p.sm, cut.recs);
            clean || canTruncate ==>
              LoadOne(env, p, ch.id, canTruncate) ==
              Ok(Progress(p.disk[ch.id := file],
                          p.chunks + [LoadedChunk(Offsets(c, cut), env.checkpoint(sm), !clean)],
                          sm, Some(End(c, cut)), p.replayed + cut.recs))
    ensures p.disk[ch.id].os != Stream(env.codec, ch.recs[..m]) && !canTruncate ==>
              LoadOne(env, p, ch.id, canTruncate).Err?
  {
    var cut := ChunkLog(ch.id, ch.recs[..m]);
    OpenPrefix(env.codec, ch.recs, m, p.disk[ch.id], canTruncate);
    LayoutEnds(env.codec, ch.id, cut.recs);
    LayoutRecords(env.codec, 0, cut.recs);
    OffsetsEnd(env.codec, cut);
  }

  // All chunks

  /** Chunks `lo..hi` of the log as recovery keeps them. */
  function LoadedLog<R, S>(env: Env<R, S>, hist: seq<ChunkLog<R>>, lo: nat, hi: nat): seq<LoadedChunk<R>>
    requires lo <= hi <= |hist|
    decreases hi
  {
    if lo == hi then []
    else
      LoadedLog(env, hist, lo, hi - 1) +
      [LoadedChunk(Offsets(env.codec, hist[hi - 1]), env.checkpoint(StateAfter(env, hist[..hi])), false)]
  }

  /** The progress after loading chunks `lo..hi` in full. */
  function LoadedTo<R, S>(env: Env<R, S>, hist: seq<ChunkLog<R>>, lo: nat, hi: nat, disk: Disk, start: S): Progress<R, S>
    requires lo <= hi <= |hist|
  {
    if lo == hi then Progress(disk, [], start, None, [])
    else Progress(disk, LoadedLog(env, hist, lo, hi), StateAfter(env, hist[..hi]),
                  Some(End(env.codec, hist[hi - 1])), AllRecords(hist[lo..hi]))
  }

  lemma AllRecordsSlice<R>(hist: seq<ChunkLog<R>>, lo: nat, hi: nat)
    requires lo < hi <= |hist|
    ensures AllRecords(hist[lo..hi]) == AllRecords(hist[lo..hi - 1]) + hist[hi - 1].recs
  {
    var h := hist[lo..hi];
    assert h[..|h| - 1] == hist[lo..hi - 1];
  }

  /** The state after chunk `hi - 1`, from any state that recovery may have before it. */
  lemma StateStep<R(!new), S(!new)>(env: Env<R, S>, hist: seq<ChunkLog<R>>, lo: nat, hi: nat, disk: Disk, start: S)
    requires EnvOk(env) && ValidLog(env, hist) && lo < hi <= |hist|
    ensures Replay(env, LoadedTo(env, hist, lo, hi - 1, disk, start).sm, hist[hi - 1].recs) == StateAfter(env, hist[..hi])
  {
    var front := hist[..hi - 1];
    assert hist[..hi][..hi - 1] == front;
    assert StartsAt(env, hist, hi - 1);
    CheckpointOverrides(env, StateAfter(env, front), LoadedTo(env, hist, lo, hi - 1, disk, start).sm,
                        StateAfter(env, front), hist[hi - 1].recs);
  }

  lemma LoadWholeOne<R(!new), S(!new)>(
    env: Env<R, S>, hist: seq<ChunkLog<R>>, lo: nat, hi: nat, disk: Disk, start: S, canTruncate: bool)
    requires EnvOk(env) && ValidLog(env, hist) && lo < hi <= |hist| && IsWhole(env.codec, hist[hi - 1], disk)
    ensures LoadOne(env, LoadedTo(env, hist, lo, hi - 1, disk, start), hist[hi - 1].id, canTruncate)
         == Ok(LoadedTo(env, hist, lo, hi, disk, start))
  {
    hide LoadOne, Replay, ReplayChunks, Offsets;
    var ch := hist[hi - 1];
    var p := LoadedTo(env, hist, lo, hi - 1, disk, start);
    WholeHoldsAll(env.codec, ch);
    assert lo < hi - 1 ==> Follows(env.codec, hist, hi - 1);
    LoadPrefix(env, p, ch, |ch.recs|, canTruncate);
    assert ch.recs[..|ch.recs|] == ch.recs && ChunkLog(ch.id, ch.recs) == ch;
    assert disk[ch.id := disk[ch.id]] == disk;
    StateStep(env, hist, lo, hi, disk, start);
    AllRecordsSlice(hist, lo, hi);
    assert hist[lo..lo] == [];
    var q := LoadOne(env, p, ch.id, canTruncate);
    assert q.Ok?;
    assert q.value.disk == disk;
    assert q.value.sm == StateAfter(env, hist[..hi]);
    assert q.value.prevEnd == Some(End(env.codec, ch));
    assert q.value.replayed == AllRecords(hist[lo..hi]);
    assert q.value.chunks == LoadedLog(env, hist, lo, hi);
  }

  lemma {:induction false} LoadWhole<R(!new), S(!new)>(
    env: Env<R, S>, hist: seq<ChunkLog<R>>, lo: nat, hi: nat, disk: Disk, ids: seq<nat>, start: S, truncate: bool)
    requires EnvOk(env) && Bounded(env.codec) && ValidLog(env, hist) && lo <= hi <= |hist| && hi - lo <= |ids|
    requires forall i {:trigger IsWhole(env.codec, hist[i], disk)} | lo <= i < hi :: IsWhole(env.codec, hist[i], disk)
    requires forall j | 0 <= j < hi - lo :: ids[j] == hist[lo + j].id
    ensures Load(env, disk, ids, hi - lo, start, truncate) == Ok(LoadedTo(env, hist, lo, hi, disk, start))
    decreases hi
  {
    hide LoadOne, LoadedLog, AllRecords, ReplayChunks, ValidLog, EnvOk;
    if lo < hi {
      var can, id := truncate && hi - lo == |ids|, hist[hi - 1].id;
      LoadWhole(env, hist, lo, hi - 1, disk, ids, start, truncate);
      assert IsWhole(env.codec, hist[hi - 1], disk);
      LoadWholeOne(env, hist, lo, hi, disk, start, can);
      assert ids[hi - lo - 1] == id;
      assert Load(env, disk, ids, hi - lo, start, truncate)
          == LoadOne(env, LoadedTo(env, hist, lo, hi - 1, disk, start), id, can);
    }
  }

  lemma LoadedLogShared<R, S>(env: Env<R, S>, h: seq<ChunkLog<R>>, h': seq<ChunkLog<R>>, lo: nat, hi: nat)
    requires lo <= hi <= |h| && hi <= |h'| && h[..hi] == h'[..hi]
    ensures LoadedLog(env, h, lo, hi) == LoadedLog(env, h', lo, hi)
    decreases hi
  {
    if lo < hi {
      assert h[..hi - 1] == h[..hi][..hi - 1] == h'[..hi][..hi - 1] == h'[..hi - 1];
      assert h[hi - 1] == h[..hi][hi - 1] == h'[hi - 1];
      LoadedLogShared(env, h, h', lo, hi - 1);
    }
  }

  /** What recovery makes of an image that has a record in its last chunk and no other file. */
  function Reopened<R, S>(env: Env<R, S>, cut: seq<ChunkLog<R>>, lo: nat, disk: Disk): Recovered<R, S>
    requires lo < |cut|
  {
    var n := |cut| - 1;
    Recovered(disk, LoadedLog(env, cut, lo, n), Offsets(env.codec, cut[n]), StateAfter(env, cut), AllRecords(cut[lo..]))
  }

  /** The same when the tail was torn: the tail is cut back and a new chunk follows it. */
  function Restarted<R, S>(env: Env<R, S>, cut: seq<ChunkLog<R>>, lo: nat, disk: Disk): Recovered<R, S>
    requires lo < |cut|
  {
    var n := |cut| - 1;
    var c := env.codec;
    var body := Stream(c, cut[n].recs);
    var ck := env.checkpoint(StateAfter(env, cut));
    var id := End(c, cut[n]);
    Recovered(
      disk[cut[n].id := File(body, |body|)][id := File(Bytes1(c, ck), 0)],
      LoadedLog(env, cut, lo, n) + [LoadedChunk(Offsets(c, cut[n]), ck, true)],
      Offsets(c, ChunkLog(id, [ck])), StateAfter(env, cut), AllRecords(cut[lo..]))
  }

  /** The progress after loading all of `cut`, whose last chunk was perhaps cut back. */
  function LoadedCut<R, S>(env: Env<R, S>, cut: seq<ChunkLog<R>>, lo: nat, disk: Disk, truncated: bool): Progress<R, S>
    requires lo < |cut|
  {
    var c, n := env.codec, |cut| - 1;
    var last := LoadedChunk(Offsets(c, cut[n]), env.checkpoint(StateAfter(env, cut)), truncated);
    Progress(disk, LoadedLog(env, cut, lo, n) + [last], StateAfter(env, cut), Some(End(c, cut[n])), AllRecords(cut[lo..]))
  }

  lemma CutReplay<R(!new), S(!new)>(env: Env<R, S>, hist: seq<ChunkLog<R>>, lo: nat, cur: nat, m: nat, disk: Disk, start: S)
    requires EnvOk(env) && ValidLog(env, hist) && lo <= cur < |hist| && 0 < m <= |hist[cur].recs|
    ensures var cut := Cut(hist, cur, m);
            && ValidLog(env, cut) && cut[..cur] == hist[..cur] && cut[..cur + 1] == cut
            && LoadedTo(env, cut, lo, cur, disk, start) == LoadedTo(env, hist, lo, cur, disk, start)
            && Replay(env, LoadedTo(env, hist, lo, cur, disk, start).sm, cut[cur].recs) == StateAfter(env, cut)
  {
    hide Replay, ReplayChunks, AllRecords, EnvOk, ValidLog, Offsets;
    var cut := Cut(hist, cur, m);
    CutValid(env, hist, cur, m);
    assert cut[..cur] == hist[..cur] && cut[lo..cur] == hist[lo..cur] && cut[..cur + 1] == cut;
    LoadedLogShared(env, hist, cut, lo, cur);
    assert lo < cur ==> hist[cur - 1] == cut[cur - 1];
    StateStep(env, cut, lo, cur + 1, disk, start);
  }

  lemma CutFacts<R(!new), S(!new)>(
    env: Env<R, S>, hist: seq<ChunkLog<R>>, lo: nat, cur: nat, m: nat, disk: Disk, start: S)
    requires EnvOk(env) && ValidLog(env, hist) && lo <= cur < |hist| && 0 < m <= |hist[cur].recs|
    ensures var cut := Cut(hist, cur, m);
            var p := LoadedTo(env, hist, lo, cur, disk, start);
            && ValidLog(env, cut)
            && Replay(env, p.sm, cut[cur].recs) == StateAfter(env, cut)
            && p.chunks == LoadedLog(env, cut, lo, cur)
            && p.replayed + cut[cur].recs == AllRecords(cut[lo..])
            && (p.prevEnd == None || p.prevEnd == Some(hist[cur].id))
  {
    hide Replay, ReplayChunks, EnvOk, Offsets, Chained, CheckpointFirst;
    var cut := Cut(hist, cur, m);
    CutReplay(env, hist, lo, cur, m, disk, start);
    if lo < cur {
      ChunkFollows(env, hist, cur);
    }
    AllRecordsSlice(cut, lo, cur + 1);
    assert cut[lo..cur + 1] == cut[lo..] && cut[lo..lo] == [];
  }

  lemma ChunkFollows<R, S>(env: Env<R, S>, hist: seq<ChunkLog<R>>, i: nat)
    requires ValidLog(env, hist) && 0 < i < |hist|
    ensures hist[i].id == End(env.codec, hist[i - 1])
  {
    assert Follows(env.codec, hist, i);
  }

  /** The tail file as recovery leaves it. */
  function TailFile<R>(c: Codec<R>, recs: seq<R>, f: File): File {
    if f.os == Stream(c, recs) then f else File(Stream(c, recs), |Stream(c, recs)|)
  }

  lemma LoadTailOne<R(!new), S(!new)>(
    env: Env<R, S>, hist: seq<ChunkLog<R>>, lo: nat, cur: nat, m: nat, disk: Disk, start: S, truncate: bool)
    requires EnvOk(env) && ValidLog(env, hist) && Image(env.codec, hist, lo, cur, m, disk) && m > 0
    ensures var id, recs := hist[cur].id, hist[cur].recs[..m];
            var clean := disk[id].os == Stream(env.codec, recs);
            var res := LoadOne(env, LoadedTo(env, hist, lo, cur, disk, start), id, truncate);
            if clean || truncate
            then res == Ok(LoadedCut(env, Cut(hist, cur, m), lo, disk[id := TailFile(env.codec, recs, disk[id])], !clean))
            else res.Err?
  {
    CutFacts(env, hist, lo, cur, m, disk, start);
    LoadPrefix(env, LoadedTo(env, hist, lo, cur, disk, start), hist[cur], m, truncate);
  }

  lemma LoadTail<R(!new), S(!new)>(
    env: Env<R, S>, hist: seq<ChunkLog<R>>, lo: nat, cur: nat, m: nat, disk: Disk, start: S, truncate: bool)
    requires EnvOk(env) && ValidLog(env, hist) && Image(env.codec, hist, lo, cur, m, disk) && m > 0
    ensures Load(env, disk, LiveIds(hist, lo, cur), cur - lo + 1, start, truncate) ==
            LoadOne(env, LoadedTo(env, hist, lo, cur, disk, start), hist[cur].id, truncate)
  {
    LoadWhole(env, hist, lo, cur, disk, LiveIds(hist, lo, cur), start, truncate);
  }

  // The whole directory

  lemma LoadThenOpen<R, S>(env: Env<R, S>, disk: Disk, ids: seq<nat>, start: S, truncate: bool, p: Progress<R, S>)
    requires Bounded(env.codec) && Load(env, disk, ids, |ids|, start, truncate) == Ok(p)
    ensures LoadAndOpen(env, disk, ids, start, truncate) == OpenTail(env, p)
  {
  }

  lemma ReopenLoaded<R, S>(env: Env<R, S>, cut: seq<ChunkLog<R>>, lo: nat, disk: Disk)
    requires lo < |cut|
    ensures OpenTail(env, LoadedCut(env, cut, lo, disk, false)) == Ok(Reopened(env, cut, lo, disk))
  {
    var p := LoadedCut(env, cut, lo, disk, false);
    assert p.chunks[..|p.chunks| - 1] == LoadedLog(env, cut, lo, |cut| - 1);
  }

  lemma RestartLoaded<R(!new), S(!new)>(env: Env<R, S>, cut: seq<ChunkLog<R>>, lo: nat, disk: Disk)
    requires EnvOk(env) && ValidLog(env, cut) && lo < |cut|
    requires forall k | k in disk :: k <= cut[|cut| - 1].id
    ensures var last := cut[|cut| - 1];
            var body := Stream(env.codec, last.recs);
            OpenTail(env, LoadedCut(env, cut, lo, disk[last.id := File(body, |body|)], true)) ==
            Ok(Restarted(env, cut, lo, disk))
  {
    hide Replay, ReplayChunks, AllRecords, LoadedLog, Offsets, Stream;
    var last := cut[|cut| - 1];
    ChunkNotEmpty(env.codec, last);
    var ck := env.checkpoint(StateAfter(env, cut));
    assert Encodable(env.codec, ck) && SizeIsHonest(env.codec, ck);
    OneRecordOffsets(env.codec, End(env.codec, last), ck);
  }

  /** Loading an image that has a record in its last chunk and no file after it. */
  lemma LoadExact<R(!new), S(!new)>(
    env: Env<R, S>, hist: seq<ChunkLog<R>>, lo: nat, cur: nat, m: nat, disk: Disk, start: S, truncate: bool)
    requires EnvOk(env) && ValidLog(env, hist) && Image(env.codec, hist, lo, cur, m, disk) && m > 0
    ensures var id, recs := hist[cur].id, hist[cur].recs[..m];
            var clean := disk[id].os == Stream(env.codec, recs);
            var res := Load(env, disk, LiveIds(hist, lo, cur), cur - lo + 1, start, truncate);
            if clean || truncate
            then res == Ok(LoadedCut(env, Cut(hist, cur, m), lo, disk[id := TailFile(env.codec, recs, disk[id])], !clean))
            else res.Err?
  {
    LoadTail(env, hist, lo, cur, m, disk, start, truncate);
    LoadTailOne(env, hist, lo, cur, m, disk, start, truncate);
  }

  lemma OpenExactClean<R(!new), S(!new)>(
    env: Env<R, S>, hist: seq<ChunkLog<R>>, lo: nat, cur: nat, m: nat, disk: Disk, start: S, truncate: bool)
    requires EnvOk(env) && ValidLog(env, hist) && Image(env.codec, hist, lo, cur, m, disk) && m > 0
    requires disk[hist[cur].id].os == Stream(env.codec, hist[cur].recs[..m])
    ensures LoadAndOpen(env, disk, LiveIds(hist, lo, cur), start, truncate) == Ok(Reopened(env, Cut(hist, cur, m), lo, disk))
  {
    hide Load, LoadOne, OpenTail, LoadedCut, Reopened, Stream, Stored, HoldsPrefix, ValidLog;
    ImageFacts(env, hist, lo, cur, m, disk);
    var cut, id := Cut(hist, cur, m), hist[cur].id;
    LoadExact(env, hist, lo, cur, m, disk, start, truncate);
    assert disk[id := disk[id]] == disk;
    LoadThenOpen(env, disk, LiveIds(hist, lo, cur), start, truncate, LoadedCut(env, cut, lo, disk, false));
    ReopenLoaded(env, cut, lo, disk);
  }

  lemma OpenExactTorn<R(!new), S(!new)>(
    env: Env<R, S>, hist: seq<ChunkLog<R>>, lo: nat, cur: nat, m: nat, disk: Disk, start: S, truncate: bool)
    requires EnvOk(env) && ValidLog(env, hist) && Image(env.codec, hist, lo, cur, m, disk) && m > 0
    requires forall k | k in disk :: k <= hist[cur].id
    requires disk[hist[cur].id].os != Stream(env.codec, hist[cur].recs[..m])
    ensures var res := LoadAndOpen(env, disk, LiveIds(hist, lo, cur), start, truncate);
            if truncate then res == Ok(Restarted(env, Cut(hist, cur, m), lo, disk)) else res.Err?
  {
    hide Load, LoadOne, OpenTail, LoadedCut, Restarted, Stream, Stored, HoldsPrefix, ValidLog, EnvOk;
    ImageFacts(env, hist, lo, cur, m, disk);
    var cut, id := Cut(hist, cur, m), hist[cur].id;
    LoadExact(env, hist, lo, cur, m, disk, start, truncate);
    if truncate {
      CutValid(env, hist, cur, m);
      RestartLoaded(env, cut, lo, disk);
    }
  }

  lemma ImageFacts<R, S>(env: Env<R, S>, hist: seq<ChunkLog<R>>, lo: nat, cur: nat, m: nat, disk: Disk)
    requires ValidLog(env, hist) && Image(env.codec, hist, lo, cur, m, disk)
    ensures lo <= cur < |hist| && hist[cur].id in disk && m <= |hist[cur].recs|
    ensures Chained(env.codec, hist) && Stored(env.codec, hist, lo, cur, disk)
  {
  }

  lemma OneRecordOffsets<R>(c: Codec<R>, id: nat, r: R)
    ensures Offsets(c, ChunkLog(id, [r])) == [id, id + |Bytes1(c, r)|]
  {
    assert [r][..0] == [] && [r][..1] == [r];
    StreamOne(c, r);
  }

  /** The log after recovery: the whole records, and a new chunk when the tail was torn. */
  function LogAfter<R, S>(env: Env<R, S>, hist: seq<ChunkLog<R>>, lo: nat, cur: nat, m: nat, clean: bool): seq<ChunkLog<R>>
    requires cur < |hist| && m <= |hist[cur].recs|
  {
    if m > 0 then
      if clean then Cut(hist, cur, m) else WithChunk(env, Cut(hist, cur, m))
    else if lo < cur then hist[..cur]
    else [ChunkLog(0, [env.checkpoint(env.initial)])]
  }

  ghost predicate IsClean<R>(c: Codec<R>, hist: seq<ChunkLog<R>>, cur: nat, m: nat, disk: Disk)
    requires cur < |hist| && m <= |hist[cur].recs| && hist[cur].id in disk
  {
    disk[hist[cur].id].os == Stream(c, hist[cur].recs[..m])
  }

  lemma OpenAfterRemoval<R, S>(
    env: Env<R, S>, disk: Disk, ids: seq<nat>, start: S, truncate: bool, disk': Disk, ids': seq<nat>)
    requires Bounded(env.codec) && RemoveTails(env.codec, disk, ids) == Ok((disk', ids'))
    ensures Open(env, disk, ids, start, truncate) == LoadAndOpen(env, disk', ids', start, truncate)
  {
  }

  /** Opening an image with a record in its last chunk: it fails only on a torn tail that may not be cut. */
  lemma OpenWithRecord<R(!new), S(!new)>(
    env: Env<R, S>, hist: seq<ChunkLog<R>>, lo: nat, cur: nat, m: nat, disk: Disk, ids: seq<nat>, start: S, truncate: bool)
    requires EnvOk(env) && ValidLog(env, hist) && Image(env.codec, hist, lo, cur, m, disk) && m > 0
    requires IsListing(ids, disk.Keys)
    ensures var res, kept := Open(env, disk, ids, start, truncate), Upto(disk, hist[cur].id);
            var clean := IsClean(env.codec, hist, cur, m, disk);
            && (clean ==> res == Ok(Reopened(env, Cut(hist, cur, m), lo, kept)))
            && (!clean && truncate ==> res == Ok(Restarted(env, Cut(hist, cur, m), lo, kept)))
            && (!clean && !truncate ==> res.Err?)
  {
    hide Open, LoadAndOpen, RemoveTails, Reopened, Restarted, Stream, Stored, HoldsPrefix, ValidLog, Cut, IsListing;
    ImageFacts(env, hist, lo, cur, m, disk);
    var kept := Upto(disk, hist[cur].id);
    RemoveTailsOfImage(env.codec, hist, lo, cur, m, disk, ids);
    OpenAfterRemoval(env, disk, ids, start, truncate, kept, LiveIds(hist, lo, cur));
    UptoImage(env.codec, hist, lo, cur, m, disk);
    if IsClean(env.codec, hist, cur, m, disk) {
      OpenExactClean(env, hist, lo, cur, m, kept, start, truncate);
    } else {
      OpenExactTorn(env, hist, lo, cur, m, kept, start, truncate);
    }
  }

  /** Opening an image whose last chunk has no record, but has a predecessor. */
  lemma OpenWithoutRecord<R(!new), S(!new)>(
    env: Env<R, S>, hist: seq<ChunkLog<R>>, lo: nat, cur: nat, disk: Disk, ids: seq<nat>, start: S, truncate: bool)
    requires EnvOk(env) && ValidLog(env, hist) && Image(env.codec, hist, lo, cur, 0, disk) && lo < cur
    requires IsListing(ids, disk.Keys)
    ensures Open(env, disk, ids, start, truncate) == Ok(Reopened(env, hist[..cur], lo, Upto(disk, hist[cur - 1].id)))
  {
    hide Open, LoadAndOpen, RemoveTails, Reopened, Stream, Stored, HoldsPrefix, ValidLog, Cut, Upto, IsListing;
    ImageFacts(env, hist, lo, cur, 0, disk);
    var prev := hist[cur - 1];
    var kept := Upto(disk, prev.id);
    RemoveTailsOfImage(env.codec, hist, lo, cur, 0, disk, ids);
    OpenAfterRemoval(env, disk, ids, start, truncate, kept, LiveIds(hist, lo, cur - 1));
    DropCurrent(env.codec, hist, lo, cur, disk);
    CutNothing(hist, cur - 1);
    OpenExactClean(env, hist, lo, cur - 1, |prev.recs|, kept, start, truncate);
  }

  lemma CutNothing<R>(hist: seq<ChunkLog<R>>, k: nat)
    requires k < |hist|
    ensures Cut(hist, k, |hist[k].recs|) == hist[..k + 1]
    ensures hist[k].recs[..|hist[k].recs|] == hist[k].recs
  {
  }

  /** Opening an image without any record starts a log at offset 0. */
  lemma OpenWithNothing<R(!new), S(!new)>(
    env: Env<R, S>, hist: seq<ChunkLog<R>>, cur: nat, disk: Disk, ids: seq<nat>, start: S, truncate: bool)
    requires EnvOk(env) && ValidLog(env, hist) && Image(env.codec, hist, cur, cur, 0, disk)
    requires IsListing(ids, disk.Keys)
    ensures var ck := Bytes1(env.codec, env.checkpoint(start));
            Open(env, disk, ids, start, truncate) == Ok(Recovered(map[0 := File(ck, 0)], [], [0, |ck|], start, []))
  {
    RemoveTailsOfImage(env.codec, hist, cur, cur, 0, disk, ids);
    OpenAfterRemoval(env, disk, ids, start, truncate, map[], []);
    LoadThenOpen(env, map[], [], start, truncate, Progress(map[], [], start, None, []));
    assert Encodable(env.codec, env.checkpoint(start)) && SizeIsHonest(env.codec, env.checkpoint(start));
  }
}
