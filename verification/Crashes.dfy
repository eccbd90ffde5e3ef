/** A crash at any point, followed by recovery, keeps the invariant and everything durable. */
module Crashes {
  import opened Bytes
  import opened Codec
  import opened RecordStream
  import opened Log
  import opened Requests
  import opened Backlog
  import opened Recovery
  import opened CrashImages
  import opened RecoveredLog
  import opened System
  import opened Invariant
  import opened MainSteps

  // The image of a crash

  /** A surviving file holds a prefix of its chunk's records, with every record that was durable. */
  lemma SurvivorHolds<R(!new)>(c: Codec<R>, recs: seq<R>, f: File, f': File, p: nat) returns (m: nat)
    requires Lawful(c) && AllEncodable(c, recs) && f.os <= Stream(c, recs) && Survives(c, recs, f, f', p)
    ensures HoldsPrefix(c, recs, m, f'.os)
    ensures forall k: nat | k <= |recs| && |Stream(c, recs[..k])| <= f.dur :: k <= m
  {
    hide Stream, Lawful, AllEncodable;
    m := BoundaryBelow(c, recs, p);
    forall k: nat | k <= |recs| && |Stream(c, recs[..k])| <= f.dur ensures k <= m {
      CountBelow(c, recs, p, m, k);
    }
    var rest := CutTail(c, recs, p, m);
    var n := |Stream(c, recs[..m])|;
    assert f'.os[..p] == Stream(c, recs)[..p] == Stream(c, recs[..m]) + rest;
    if p < |f'.os| {
      var k: nat :| k <= |recs| && p == |Stream(c, recs[..k])|;
      CountBelow(c, recs, p, m, k);
      StreamGrows(c, recs, k, m);
      assert n == p;
      assert f'.os[n..] == f'.os[p..];
    } else {
      assert f'.os[n..] == rest;
    }
  }

  lemma HoldsUnique<R(!new)>(c: Codec<R>, recs: seq<R>, m: nat, m': nat, b: seq<Byte>)
    requires Lawful(c) && AllEncodable(c, recs) && HoldsPrefix(c, recs, m, b) && HoldsPrefix(c, recs, m', b)
    ensures m == m'
  {
    hide Stream, Parse;
    ParseHoldsPrefix(c, recs, m, b);
    ParseHoldsPrefix(c, recs, m', b);
  }

  lemma WholeSurvives<R>(c: Codec<R>, ch: ChunkLog<R>, disk: Disk, disk': Disk, p: nat)
    requires IsWhole(c, ch, disk) && ch.id in disk' && Survives(c, ch.recs, disk[ch.id], disk'[ch.id], p)
    ensures IsWhole(c, ch, disk')
  {
    hide Stream;
    var f, f' := disk[ch.id], disk'[ch.id];
    assert f'.os == f'.os[..p] && f.os == f.os[..p];
  }

  lemma StoredCrash<R, S>(c: Codec<R>, s: Sys<R, S>, disk': Disk)
    requires Stored(c, s.hist, s.lo, s.cur, s.disk) && CrashImage(c, s, disk')
    ensures Stored(c, s.hist, s.lo, s.cur, disk')
  {
    hide Stream, Survives;
    forall i | s.lo <= i < s.cur ensures IsWhole(c, s.hist[i], disk') {
      assert IsWhole(c, s.hist[i], s.disk);
      var p: nat :| Survives(c, s.hist[i].recs, s.disk[s.hist[i].id], disk'[s.hist[i].id], p);
      WholeSurvives(c, s.hist[i], s.disk, disk', p);
    }
  }

  /** The durable records of the current chunk are among its first `m`. */
  ghost predicate CoversDurable<R, S>(c: Codec<R>, s: Sys<R, S>, m: nat)
    requires Placed(s)
  {
    var recs := s.hist[s.cur].recs;
    forall k: nat | k <= |recs| && |Stream(c, recs[..k])| <= CurFile(s).dur :: k <= m
  }

  /** Every crash leaves an image of the log that covers what was durable. */
  lemma CrashLeavesImage<R(!new), S(!new)>(env: Env<R, S>, s: Sys<R, S>, disk': Disk) returns (m: nat)
    requires OnDisk(env, s) && CrashImage(env.codec, s, disk')
    ensures Image(env.codec, s.hist, s.lo, s.cur, m, disk') && CoversDurable(env.codec, s, m)
    ensures CurFile(s).dur <= disk'[s.hist[s.cur].id].dur <= |disk'[s.hist[s.cur].id].os|
  {
    hide Stream, HoldsPrefix, ReplayChunks, CheckpointFirst;
    var ch := s.hist[s.cur];
    StoredCrash(env.codec, s, disk');
    var p: nat :| Survives(env.codec, ch.recs, s.disk[ch.id], disk'[ch.id], p);
    m := SurvivorHolds(env.codec, ch.recs, s.disk[ch.id], disk'[ch.id], p);
  }

  lemma ImageCovers<R(!new), S(!new)>(env: Env<R, S>, s: Sys<R, S>, disk': Disk, m: nat)
    requires OnDisk(env, s) && CrashImage(env.codec, s, disk') && Image(env.codec, s.hist, s.lo, s.cur, m, disk')
    ensures CoversDurable(env.codec, s, m)
    ensures CurFile(s).dur <= disk'[s.hist[s.cur].id].dur <= |disk'[s.hist[s.cur].id].os|
  {
    hide Stream, HoldsPrefix, ReplayChunks, CheckpointFirst, Stored, CoversDurable, CrashImage;
    StoredIndex(env.codec, s.hist, s.lo, s.cur, disk');
    var m' := CrashLeavesImage(env, s, disk');
    HoldsUnique(env.codec, s.hist[s.cur].recs, m, m', disk'[s.hist[s.cur].id].os);
  }

  // What was durable is in the recovered log

  /** A durable boundary lies in a live chunk, and within the `m` records if in the last. */
  lemma DurableMark<R(!new), S(!new)>(env: Env<R, S>, s: Sys<R, S>, m: nat, u: nat) returns (i: nat, k: nat)
    requires OnDisk(env, s) && CoversDurable(env.codec, s, m) && Durable(env, s, u)
    ensures i <= s.cur && IsMark(env.codec, s.hist[i], u, k) && (i == s.cur ==> k <= m)
  {
    hide Stream, ReplayChunks, CheckpointFirst, Stored;
    var c, hist, cur := env.codec, s.hist, s.cur;
    i :| i < |hist| && HasMark(c, hist[i], u);
    k :| IsMark(c, hist[i], u, k);
    StoredIndex(c, hist, s.lo, cur, s.disk);
    if i > cur {
      IdsIncrease(c, hist, cur, i);
      i, k := cur, |hist[cur].recs|;
      assert hist[cur].recs[..k] == hist[cur].recs;
    }
  }

  lemma StoredIndex<R>(c: Codec<R>, hist: seq<ChunkLog<R>>, lo: nat, cur: nat, disk: Disk)
    requires Stored(c, hist, lo, cur, disk)
    ensures lo <= cur < |hist| && hist[cur].id in disk
  {
  }

  /** `h` has the chunks before `cur`, and the first `m` records of chunk `cur` if it has that chunk. */
  ghost predicate Continues<R>(hist: seq<ChunkLog<R>>, cur: nat, m: nat, h: seq<ChunkLog<R>>) {
    && cur < |hist| && m <= |hist[cur].recs|
    && cur <= |h| && h[..cur] == hist[..cur]
    && (m > 0 ==>
          && cur < |h| && h[cur].id == hist[cur].id
          && m <= |h[cur].recs| && h[cur].recs[..m] == hist[cur].recs[..m])
  }

  lemma ContinuesKeeps<R(!new), S(!new)>(env: Env<R, S>, s: Sys<R, S>, m: nat, h: seq<ChunkLog<R>>, u: nat)
    requires OnDisk(env, s) && CoversDurable(env.codec, s, m) && Continues(s.hist, s.cur, m, h)
    requires u <= DurableEnd(s)
    ensures Keeps(env.codec, s.hist, h, u)
  {
    hide Stream, ReplayChunks, CheckpointFirst, Stored;
    var c, hist, cur := env.codec, s.hist, s.cur;
    StoredIndex(c, hist, s.lo, cur, s.disk);
    forall i: nat, k: nat | i < |hist| && 0 < k <= |hist[i].recs| && hist[i].id + |Stream(c, hist[i].recs[..k])| <= u
      ensures SharesRecords(hist, h, i, k)
    {
      if i > cur {
        IdsIncrease(c, hist, cur, i);
        StreamGrows(c, hist[i].recs, 0, k);
        assert false;
      } else if i == cur {
        assert |Stream(c, hist[cur].recs[..k])| <= CurFile(s).dur;
        assert k <= m;
        assert hist[cur].recs[..m][..k] == hist[cur].recs[..k];
        assert h[cur].recs[..m][..k] == h[cur].recs[..k];
      } else {
        assert h[..cur][i] == hist[..cur][i];
      }
    }
  }

  // The state that `open` leaves

  /** What recovery returns for log `h`: its index, its state, and its files in full. */
  ghost predicate Represents<R(!new), S(!new)>(env: Env<R, S>, h: seq<ChunkLog<R>>, lo: nat, r: Recovered<R, S>) {
    && ValidLog(env, h) && lo < |h|
    && r.sm == StateAfter(env, h)
    && r.open == Offsets(env.codec, h[|h| - 1])
    && |r.closed| == |h| - 1 - lo
    && (forall j: nat | j < |r.closed| ::
          ClosedOk(env, h, lo + j, ClosedChunk(r.closed[j].offsets, r.closed[j].state)))
    && Stored(env.codec, h, lo, |h| - 1, r.disk)
    && (forall k | k in r.disk :: k <= h[|h| - 1].id)
    && var f := r.disk[h[|h| - 1].id];
       && f.os == Stream(env.codec, h[|h| - 1].recs) && f.dur <= |f.os|
       && (lo > 0 ==> FirstIsDurable(env.codec, h, |h| - 1, f.dur, lo))
  }

  lemma BootedStore<R(!new), S(!new)>(env: Env<R, S>, h: seq<ChunkLog<R>>, lo: nat, r: Recovered<R, S>, replies: seq<Reply>, careful: bool)
    requires EnvOk(env) && Represents(env, h, lo, r)
    ensures var s := Booted(r, h, lo, replies, careful);
            && OnDisk(env, s) && IndexOk(env, s) && FilesOk(s) && BatchOk(env, s)
            && CurFile(s) == r.disk[h[|h| - 1].id]
  {
    hide Stream, ReplayChunks, CheckpointFirst, IsWhole, IsLive, FirstIsDurable, ClosedOk;
    var s := Booted(r, h, lo, replies, careful);
    forall j: nat | j < |s.main.closed| ensures ClosedOk(env, h, lo + j, s.main.closed[j]) {
      assert ClosedOk(env, h, lo + j, ClosedChunk(r.closed[j].offsets, r.closed[j].state));
    }
    assert r.open[0] == h[|h| - 1].id by {
      assert h[|h| - 1].recs[..0] == [];
      StreamEmpty(env.codec);
    }
  }

  lemma BootedFlows<R(!new), S(!new)>(env: Env<R, S>, h: seq<ChunkLog<R>>, lo: nat, r: Recovered<R, S>, replies: seq<Reply>, careful: bool)
    requires Represents(env, h, lo, r)
    ensures Flows(env, Booted(r, h, lo, replies, careful))
  {
    hide Stream, ReplayChunks, ValidLog, IsWhole, IsLive, FirstIsDurable, ClosedOk;
    var s := Booted(r, h, lo, replies, careful);
    assert Todo(s) == [];
    assert CurFile(s).os + [] == CurFile(s).os;
  }

  lemma BootedInv<R(!new), S(!new)>(env: Env<R, S>, s: Sys<R, S>, h: seq<ChunkLog<R>>, lo: nat, r: Recovered<R, S>)
    requires EnvOk(env) && Represents(env, h, lo, r) && RepliesOk(env, s)
    requires Preserves(env, s, Booted(r, h, lo, s.replies, s.careful))
    ensures Inv(env, Booted(r, h, lo, s.replies, s.careful))
  {
    hide OnDisk, IndexOk, Flows, FilesOk, BatchOk, Represents, Preserves, RepliesOk;
    var s' := Booted(r, h, lo, s.replies, s.careful);
    BootedStore(env, h, lo, r, s.replies, s.careful);
    BootedFlows(env, h, lo, r, s.replies, s.careful);
    RepliesStayOk(env, s, s');
  }

  /** Every durable boundary of the old log is one of `h`, and durable up to `end`. */
  ghost predicate Reaches<R, S>(env: Env<R, S>, s: Sys<R, S>, m: nat, h: seq<ChunkLog<R>>, end: nat) {
    && Placed(s)
    && forall i: nat, k: nat, u: nat {:trigger IsMark(env.codec, s.hist[i], u, k)} |
         i <= s.cur && IsMark(env.codec, s.hist[i], u, k) && (i == s.cur ==> k <= m) && u <= DurableEnd(s) ::
         u <= end && OnMark(env.codec, h, u)
  }

  /** Recovery keeps what was durable when the recovered log continues the old one far enough. */
  lemma BootedPreserves<R(!new), S(!new)>(
    env: Env<R, S>, s: Sys<R, S>, m: nat, h: seq<ChunkLog<R>>, lo: nat, r: Recovered<R, S>)
    requires OnDisk(env, s) && CoversDurable(env.codec, s, m) && Continues(s.hist, s.cur, m, h)
    requires EnvOk(env) && Represents(env, h, lo, r)
    requires Reaches(env, s, m, h, h[|h| - 1].id + r.disk[h[|h| - 1].id].dur)
    ensures Preserves(env, s, Booted(r, h, lo, s.replies, s.careful))
  {
    hide OnDisk, IndexOk, Flows, FilesOk, BatchOk, CoversDurable, Continues, IsMark, OnMark, Stored, ValidLog, Booted;
    var s' := Booted(r, h, lo, s.replies, s.careful);
    OnDiskPlaced(env, s);
    BootedEnd(env, h, lo, r, s.replies, s.careful);
    forall u | Durable(env, s, u) ensures Durable(env, s', u) && Keeps(env.codec, s.hist, s'.hist, u) {
      var i, k := DurableMark(env, s, m, u);
      ContinuesKeeps(env, s, m, h, u);
    }
  }

  lemma BootedEnd<R(!new), S(!new)>(env: Env<R, S>, h: seq<ChunkLog<R>>, lo: nat, r: Recovered<R, S>, replies: seq<Reply>, careful: bool)
    requires EnvOk(env) && Represents(env, h, lo, r)
    ensures var s := Booted(r, h, lo, replies, careful);
            s.hist == h && Placed(s) && DurableEnd(s) == h[|h| - 1].id + r.disk[h[|h| - 1].id].dur
  {
    hide OnDisk, IndexOk, Flows, FilesOk, BatchOk, Represents;
    BootedStore(env, h, lo, r, replies, careful);
    OnDiskPlaced(env, Booted(r, h, lo, replies, careful));
  }

  // The four outcomes

  lemma LoadedClosed<R(!new), S(!new)>(env: Env<R, S>, h: seq<ChunkLog<R>>, lo: nat, hi: nat, j: nat)
    requires ValidLog(env, h) && lo <= hi < |h| && j < hi - lo
    ensures |LoadedLog(env, h, lo, hi)| == hi - lo
    ensures var cc := LoadedLog(env, h, lo, hi)[j]; ClosedOk(env, h, lo + j, ClosedChunk(cc.offsets, cc.state))
    decreases hi
  {
    hide Offsets, ReplayChunks, Stream;
    if j == hi - lo - 1 {
      assert StartsAt(env, h, hi);
      LoadedLength(env, h, lo, hi - 1);
    } else {
      LoadedClosed(env, h, lo, hi - 1, j);
    }
  }

  lemma {:induction false} LoadedLength<R, S>(env: Env<R, S>, h: seq<ChunkLog<R>>, lo: nat, hi: nat)
    requires lo <= hi <= |h|
    ensures |LoadedLog(env, h, lo, hi)| == hi - lo
    decreases hi
  {
    if lo < hi {
      LoadedLength(env, h, lo, hi - 1);
    }
  }

  /** Reopening the last chunk of `h`. */
  lemma ReopenedRepresents<R(!new), S(!new)>(env: Env<R, S>, h: seq<ChunkLog<R>>, lo: nat, disk: Disk)
    requires ValidLog(env, h) && lo < |h| && Stored(env.codec, h, lo, |h| - 1, disk)
    requires forall k | k in disk :: k <= h[|h| - 1].id
    requires var f := disk[h[|h| - 1].id];
             && f.os == Stream(env.codec, h[|h| - 1].recs) && f.dur <= |f.os|
             && (lo > 0 ==> FirstIsDurable(env.codec, h, |h| - 1, f.dur, lo))
    ensures Represents(env, h, lo, Reopened(env, h, lo, disk))
  {
    hide Offsets, ReplayChunks, Stream, IsWhole, IsLive, FirstIsDurable, ClosedOk, LoadedLog, AllRecords;
    var r := Reopened(env, h, lo, disk);
    LoadedLength(env, h, lo, |h| - 1);
    forall j: nat | j < |r.closed| ensures ClosedOk(env, h, lo + j, ClosedChunk(r.closed[j].offsets, r.closed[j].state)) {
      LoadedClosed(env, h, lo, |h| - 1, j);
    }
  }

  lemma CutContinues<R>(hist: seq<ChunkLog<R>>, cur: nat, m: nat, more: seq<ChunkLog<R>>)
    requires cur < |hist| && 0 < m <= |hist[cur].recs|
    ensures Continues(hist, cur, m, Cut(hist, cur, m) + more)
  {
  }

  /** Boundaries of chunks before `cur` are at or below its start. */
  lemma MarkBelow<R(!new)>(c: Codec<R>, hist: seq<ChunkLog<R>>, i: nat, j: nat, u: nat, k: nat)
    requires Lawful(c) && Chained(c, hist) && i < j < |hist| && IsMark(c, hist[i], u, k)
    ensures u <= End(c, hist[i]) <= hist[j].id
  {
    hide Stream;
    IdsIncrease(c, hist, i, j);
    StreamPrefix(c, hist[i].recs, k);
  }

  lemma MarkMoves<R>(c: Codec<R>, hist: seq<ChunkLog<R>>, h: seq<ChunkLog<R>>, i: nat, u: nat, k: nat)
    requires i < |hist| && i < |h| && IsMark(c, hist[i], u, k)
    requires h[i].id == hist[i].id && k <= |h[i].recs| && h[i].recs[..k] == hist[i].recs[..k]
    ensures OnMark(c, h, u)
  {
    hide Stream;
    assert IsMark(c, h[i], u, k);
    assert HasMark(c, h[i], u);
  }

  lemma ContinuesMark<R>(c: Codec<R>, hist: seq<ChunkLog<R>>, cur: nat, m: nat, h: seq<ChunkLog<R>>, i: nat, u: nat, k: nat)
    requires Continues(hist, cur, m, h) && i <= cur && IsMark(c, hist[i], u, k) && (i == cur ==> k <= m)
    requires i == cur ==> m > 0
    ensures OnMark(c, h, u)
  {
    hide Stream;
    if i == cur {
      assert h[cur].recs[..m][..k] == h[cur].recs[..k];
      assert hist[cur].recs[..m][..k] == hist[cur].recs[..k];
    } else {
      assert h[..cur][i] == hist[..cur][i];
    }
    MarkMoves(c, hist, h, i, u, k);
  }

  /** With a whole record in chunk `cur`: its boundaries up to there are kept. */
  lemma ReachesCut<R(!new), S(!new)>(env: Env<R, S>, s: Sys<R, S>, m: nat, h: seq<ChunkLog<R>>, end: nat)
    requires OnDisk(env, s) && m > 0 && Continues(s.hist, s.cur, m, h)
    requires DurableEnd(s) <= end || end == s.hist[s.cur].id + |Stream(env.codec, s.hist[s.cur].recs[..m])|
    ensures Reaches(env, s, m, h, end)
  {
    hide Stream, ReplayChunks, CheckpointFirst, Stored, Continues, FirstIsDurable;
    var c, hist, cur := env.codec, s.hist, s.cur;
    OnDiskPlaced(env, s);
    forall i: nat, k: nat, u: nat | i <= cur && IsMark(c, hist[i], u, k) && (i == cur ==> k <= m) && u <= DurableEnd(s)
      ensures u <= end && OnMark(c, h, u)
    {
      ContinuesMark(c, hist, cur, m, h, i, u, k);
      if i < cur {
        MarkBelow(c, hist, i, cur, u, k);
      } else {
        ContinuesLimit(hist, cur, m, h);
        StreamGrows(c, hist[cur].recs, k, m);
      }
    }
  }

  lemma ContinuesLimit<R>(hist: seq<ChunkLog<R>>, cur: nat, m: nat, h: seq<ChunkLog<R>>)
    requires Continues(hist, cur, m, h)
    ensures cur < |hist| && m <= |hist[cur].recs|
  {
  }

  /** The stored chunks do not depend on the records of the last. */
  lemma StoredCut<R(!new)>(c: Codec<R>, hist: seq<ChunkLog<R>>, lo: nat, cur: nat, m: nat, disk: Disk)
    requires Stored(c, hist, lo, cur, disk) && m <= |hist[cur].recs|
    ensures Stored(c, Cut(hist, cur, m), lo, cur, disk)
  {
    hide Stream;
    var h := Cut(hist, cur, m);
    forall i | lo <= i < cur ensures IsWhole(c, h[i], disk) {
      assert IsWhole(c, hist[i], disk);
    }
    forall k | k in disk && k <= h[cur].id ensures IsLive(h, lo, cur, k) {
      assert IsLive(hist, lo, cur, k);
      var i :| lo <= i <= cur && hist[i].id == k;
      assert h[i].id == k;
    }
  }

  lemma FirstOfCut<R>(c: Codec<R>, hist: seq<ChunkLog<R>>, cur: nat, m: nat, dur: nat, dur': nat, lo: nat)
    requires cur < |hist| && 0 < m <= |hist[cur].recs| && dur <= dur' && FirstIsDurable(c, hist, cur, dur, lo)
    ensures FirstIsDurable(c, Cut(hist, cur, m), cur, dur', lo)
  {
  }

  /** Everything the cases below share. */
  ghost predicate Crashed<R(!new), S(!new)>(env: Env<R, S>, s: Sys<R, S>, image: Disk, m: nat) {
    && OnDisk(env, s) && Placed(s) && Image(env.codec, s.hist, s.lo, s.cur, m, image) && CoversDurable(env.codec, s, m)
    && s.hist[s.cur].id in image && m <= |s.hist[s.cur].recs|
    && CurFile(s).dur <= image[s.hist[s.cur].id].dur <= |image[s.hist[s.cur].id].os|
  }

  lemma CutRepresents<R(!new), S(!new)>(env: Env<R, S>, s: Sys<R, S>, image: Disk, m: nat)
    requires Crashed(env, s, image, m) && OldestDurable(env.codec, s)
    requires m > 0 && IsClean(env.codec, s.hist, s.cur, m, image)
    ensures var h := Cut(s.hist, s.cur, m);
            Represents(env, h, s.lo, Reopened(env, h, s.lo, Upto(image, s.hist[s.cur].id)))
  {
    hide Stream, ReplayChunks, CheckpointFirst, FirstIsDurable, Stored, Represents, HoldsPrefix, CoversDurable, Chained;
    var h, kept := Cut(s.hist, s.cur, m), Upto(image, s.hist[s.cur].id);
    OnDiskPlaced(env, s);
    UptoImage(env.codec, s.hist, s.lo, s.cur, m, image);
    StoredCut(env.codec, s.hist, s.lo, s.cur, m, kept);
    CutValid(env, s.hist, s.cur, m);
    if s.lo > 0 {
      FirstOfCut(env.codec, s.hist, s.cur, m, CurFile(s).dur, image[s.hist[s.cur].id].dur, s.lo);
    }
    ReopenedRepresents(env, h, s.lo, kept);
  }

  lemma RestartClean<R(!new), S(!new)>(env: Env<R, S>, s: Sys<R, S>, image: Disk, m: nat)
    requires Crashed(env, s, image, m) && RepliesOk(env, s) && OldestDurable(env.codec, s)
    requires m > 0 && IsClean(env.codec, s.hist, s.cur, m, image)
    ensures var h := Cut(s.hist, s.cur, m);
            var s' := Booted(Reopened(env, h, s.lo, Upto(image, s.hist[s.cur].id)), h, s.lo, s.replies, s.careful);
            Inv(env, s') && Preserves(env, s, s')
  {
    hide Stream, ReplayChunks, ValidLog, FirstIsDurable, Stored, Represents, HoldsPrefix, CoversDurable, Continues, Reaches,
    RepliesOk, Preserves, LoadedLog, AllRecords, Offsets, Booted;
    OnDiskPlaced(env, s);
    var h, kept := Cut(s.hist, s.cur, m), Upto(image, s.hist[s.cur].id);
    var r := Reopened(env, h, s.lo, kept);
    CutRepresents(env, s, image, m);
    CutContinues(s.hist, s.cur, m, []);
    assert h + [] == h;
    ReachesCut(env, s, m, h, s.hist[s.cur].id + kept[s.hist[s.cur].id].dur);
    BootedPreserves(env, s, m, h, s.lo, r);
    BootedInv(env, s, h, s.lo, r);
  }

  // A torn tail

  lemma StoredGrows<R(!new), S(!new)>(env: Env<R, S>, h: seq<ChunkLog<R>>, lo: nat, disk: Disk, f: File)
    requires EnvOk(env) && ValidLog(env, h) && lo < |h| && Stored(env.codec, h, lo, |h| - 1, disk)
    requires IsWhole(env.codec, h[|h| - 1], disk) && (forall k | k in disk :: k <= h[|h| - 1].id)
    ensures var h' := WithChunk(env, h);
            var id := End(env.codec, h[|h| - 1]);
            var disk' := disk[id := f];
            && id == h'[|h|].id && id > h[|h| - 1].id
            && Stored(env.codec, h', lo, |h|, disk')
            && (forall k | k in disk' :: k <= id)
  {
    hide Stream, ReplayChunks, CheckpointFirst, Chained;
    var h', id, c := WithChunk(env, h), End(env.codec, h[|h| - 1]), env.codec;
    var disk' := disk[id := f];
    LastNotEmpty(env, h);
    forall i | lo <= i < |h| ensures IsWhole(c, h'[i], disk') {
      assert IsWhole(c, h[i], disk);
    }
    forall k | k in disk' ensures IsLive(h', lo, |h|, k) {
      if k == id {
        assert h'[|h|].id == k;
      } else {
        assert IsLive(h, lo, |h| - 1, k);
        var i :| lo <= i <= |h| - 1 && h[i].id == k;
        assert h'[i].id == k;
      }
    }
  }

  lemma LastNotEmpty<R(!new), S(!new)>(env: Env<R, S>, h: seq<ChunkLog<R>>)
    requires EnvOk(env) && ValidLog(env, h)
    ensures End(env.codec, h[|h| - 1]) > h[|h| - 1].id
  {
    hide Stream;
    ChunkNotEmpty(env.codec, h[|h| - 1]);
  }

  /** The torn tail cut back is whole. */
  lemma TornStored<R(!new), S(!new)>(env: Env<R, S>, s: Sys<R, S>, image: Disk, m: nat)
    requires Crashed(env, s, image, m) && m > 0
    ensures var h, id := Cut(s.hist, s.cur, m), s.hist[s.cur].id;
            var body := Stream(env.codec, h[s.cur].recs);
            var disk := Upto(image, id)[id := File(body, |body|)];
            && Stored(env.codec, h, s.lo, s.cur, disk) && IsWhole(env.codec, h[s.cur], disk)
            && (forall k | k in disk :: k <= id)
  {
    hide Stream, ReplayChunks, CheckpointFirst, FirstIsDurable, HoldsPrefix, CoversDurable;
    var h, id := Cut(s.hist, s.cur, m), s.hist[s.cur].id;
    var body := Stream(env.codec, h[s.cur].recs);
    UptoImage(env.codec, s.hist, s.lo, s.cur, m, image);
    StoredCurrent(env.codec, s.hist, s.lo, s.cur, Upto(image, id), File(body, |body|));
    StoredCut(env.codec, s.hist, s.lo, s.cur, m, Upto(image, id)[id := File(body, |body|)]);
  }

  lemma RestartedRepresents<R(!new), S(!new)>(env: Env<R, S>, h: seq<ChunkLog<R>>, lo: nat, disk: Disk)
    requires EnvOk(env) && ValidLog(env, h) && lo < |h|
    requires var last := h[|h| - 1];
             var body := Stream(env.codec, last.recs);
             var cut := disk[last.id := File(body, |body|)];
             && Stored(env.codec, h, lo, |h| - 1, cut) && IsWhole(env.codec, last, cut)
             && (forall k | k in cut :: k <= last.id)
    ensures Represents(env, WithChunk(env, h), lo, Restarted(env, h, lo, disk))
  {
    hide Stream, ReplayChunks, Chained, CheckpointFirst, FirstIsDurable, Stored, Offsets, AllRecords, LoadedLog, ClosedOk,
    IsWhole;
    var c, last, ck := env.codec, h[|h| - 1], env.checkpoint(StateAfter(env, h));
    var body := Stream(c, last.recs);
    StoredGrows(env, h, lo, disk[last.id := File(body, |body|)], File(Bytes1(c, ck), 0));
    WithChunkValid(env, h);
    StreamOne(c, ck);
    var h', r := WithChunk(env, h), Restarted(env, h, lo, disk);
    LoadedLength(env, h, lo, |h| - 1);
    ValidIsChained(env, h');
    forall j: nat | j < |r.closed| ensures ClosedOk(env, h', lo + j, ClosedChunk(r.closed[j].offsets, r.closed[j].state)) {
      RestartedClosed(env, h, lo, disk, j);
    }
    FirstBefore(c, h', |h|, 0, lo);
  }

  lemma FirstBefore<R>(c: Codec<R>, hist: seq<ChunkLog<R>>, cur: nat, dur: nat, n: nat)
    requires n < cur
    ensures FirstIsDurable(c, hist, cur, dur, n)
  {
  }

  lemma RestartedClosed<R(!new), S(!new)>(env: Env<R, S>, h: seq<ChunkLog<R>>, lo: nat, disk: Disk, j: nat)
    requires ValidLog(env, h) && lo < |h| && j < |Restarted(env, h, lo, disk).closed|
    requires |LoadedLog(env, h, lo, |h| - 1)| == |h| - 1 - lo
    requires ValidLog(env, WithChunk(env, h))
    ensures var cc := Restarted(env, h, lo, disk).closed[j];
            ClosedOk(env, WithChunk(env, h), lo + j, ClosedChunk(cc.offsets, cc.state))
  {
    hide Stream, ReplayChunks, Offsets, AllRecords, LoadedLog;
    if j < |h| - 1 - lo {
      LoadedClosed(env, h, lo, |h| - 1, j);
    }
  }

  lemma RestartTorn<R(!new), S(!new)>(env: Env<R, S>, s: Sys<R, S>, image: Disk, m: nat)
    requires Crashed(env, s, image, m) && RepliesOk(env, s) && m > 0
    ensures var h := Cut(s.hist, s.cur, m);
            var s' := Booted(Restarted(env, h, s.lo, Upto(image, s.hist[s.cur].id)), WithChunk(env, h), s.lo, s.replies, s.careful);
            Inv(env, s') && Preserves(env, s, s')
  {
    hide Stream, ReplayChunks, ValidLog, FirstIsDurable, Stored, Represents, HoldsPrefix, CoversDurable, Continues, Reaches,
    RepliesOk, Preserves, LoadedLog, AllRecords, Offsets, Booted, IsWhole;
    OnDiskPlaced(env, s);
    var c, h, kept := env.codec, Cut(s.hist, s.cur, m), Upto(image, s.hist[s.cur].id);
    var h', r := WithChunk(env, h), Restarted(env, h, s.lo, kept);
    CutValid(env, s.hist, s.cur, m);
    TornStored(env, s, image, m);
    RestartedRepresents(env, h, s.lo, kept);
    CutContinues(s.hist, s.cur, m, h'[s.cur + 1..]);
    assert h' == h + h'[s.cur + 1..];
    ReachesCut(env, s, m, h', End(c, h[s.cur]));
    BootedPreserves(env, s, m, h', s.lo, r);
    BootedInv(env, s, h', s.lo, r);
  }

  // A tail without a whole record

  lemma PrefixValid<R(!new), S(!new)>(env: Env<R, S>, hist: seq<ChunkLog<R>>, n: nat)
    requires ValidLog(env, hist) && 0 < n <= |hist|
    ensures ValidLog(env, hist[..n])
  {
    hide Stream, ReplayChunks;
    CutNothing(hist, n - 1);
    CutValid(env, hist, n - 1, |hist[n - 1].recs|);
  }

  lemma PrefixRepresents<R(!new), S(!new)>(env: Env<R, S>, s: Sys<R, S>, image: Disk)
    requires Crashed(env, s, image, 0) && s.lo < s.cur
    ensures var h := s.hist[..s.cur];
            Represents(env, h, s.lo, Reopened(env, h, s.lo, Upto(image, s.hist[s.cur - 1].id)))
    ensures Upto(image, s.hist[s.cur - 1].id)[s.hist[s.cur - 1].id].dur == |Stream(env.codec, s.hist[s.cur - 1].recs)|
  {
    hide Stream, ReplayChunks, CheckpointFirst, Represents, HoldsPrefix, CoversDurable, Chained, Stored;
    OnDiskPlaced(env, s);
    var c, n := env.codec, s.cur - 1;
    var h, prev, kept := s.hist[..s.cur], s.hist[n], Upto(image, s.hist[n].id);
    DropCurrent(c, s.hist, s.lo, s.cur, image);
    CutNothing(s.hist, n);
    StoredCut(c, s.hist, s.lo, n, |prev.recs|, kept);
    PrefixValid(env, s.hist, s.cur);
    FirstInWhole(env, s.hist, n, s.lo);
    ReopenedRepresents(env, h, s.lo, kept);
  }

  lemma FirstInWhole<R(!new), S(!new)>(env: Env<R, S>, hist: seq<ChunkLog<R>>, cur: nat, n: nat)
    requires EnvOk(env) && ValidLog(env, hist) && n <= cur < |hist|
    ensures FirstIsDurable(env.codec, hist[..cur + 1], cur, |Stream(env.codec, hist[cur].recs)|, n)
  {
    hide Stream;
    ChunkNotEmpty(env.codec, hist[cur]);
  }

  lemma ReachesPrefix<R(!new), S(!new)>(env: Env<R, S>, s: Sys<R, S>)
    requires OnDisk(env, s) && 0 < s.cur
    ensures Reaches(env, s, 0, s.hist[..s.cur], s.hist[s.cur].id)
  {
    hide Stream, ReplayChunks, CheckpointFirst, Stored, FirstIsDurable;
    var c, hist, cur := env.codec, s.hist, s.cur;
    OnDiskPlaced(env, s);
    var h, prev := hist[..cur], hist[cur - 1];
    assert Follows(c, hist, cur);
    StreamEmpty(c);
    forall i: nat, k: nat, u: nat | i <= cur && IsMark(c, hist[i], u, k) && (i == cur ==> k <= 0) && u <= DurableEnd(s)
      ensures u <= hist[cur].id && OnMark(c, h, u)
    {
      if i < cur {
        MarkBelow(c, hist, i, cur, u, k);
        MarkMoves(c, hist, h, i, u, k);
      } else {
        assert hist[cur].recs[..0] == [] && prev.recs[..|prev.recs|] == prev.recs;
        assert IsMark(c, prev, u, |prev.recs|);
        MarkMoves(c, hist, h, cur - 1, u, |prev.recs|);
      }
    }
  }

  lemma RestartPrefix<R(!new), S(!new)>(env: Env<R, S>, s: Sys<R, S>, image: Disk)
    requires Crashed(env, s, image, 0) && RepliesOk(env, s) && s.lo < s.cur
    ensures var h := s.hist[..s.cur];
            var s' := Booted(Reopened(env, h, s.lo, Upto(image, s.hist[s.cur - 1].id)), h, s.lo, s.replies, s.careful);
            Inv(env, s') && Preserves(env, s, s')
  {
    hide Stream, ReplayChunks, FirstIsDurable, Stored, Represents, HoldsPrefix, CoversDurable, Reaches, CheckpointFirst,
    RepliesOk, Preserves, LoadedLog, AllRecords, Offsets, Booted;
    OnDiskPlaced(env, s);
    var h, prev := s.hist[..s.cur], s.hist[s.cur - 1];
    var r := Reopened(env, h, s.lo, Upto(image, prev.id));
    PrefixRepresents(env, s, image);
    assert Follows(env.codec, s.hist, s.cur);
    ReachesPrefix(env, s);
    BootedPreserves(env, s, 0, h, s.lo, r);
    BootedInv(env, s, h, s.lo, r);
  }

  // Nothing at all

  lemma FreshRepresents<R(!new), S(!new)>(env: Env<R, S>)
    requires EnvOk(env)
    ensures var ck := env.checkpoint(env.initial);
            var bytes := Bytes1(env.codec, ck);
            Represents(env, [ChunkLog(0, [ck])], 0, Recovered(map[0 := File(bytes, 0)], [], [0, |bytes|], env.initial, []))
  {
    var c, ck := env.codec, env.checkpoint(env.initial);
    var h := [ChunkLog(0, [ck])];
    FreshValid(env);
    StreamOne(c, ck);
    OneRecordOffsets(c, 0, ck);
    assert IsLive(h, 0, 0, 0) by {
      assert h[0].id == 0;
    }
  }

  lemma OneChunkState<R, S>(env: Env<R, S>, s: S, ch: ChunkLog<R>)
    ensures ReplayChunks(env, s, [ch]) == Replay(env, s, ch.recs)
    ensures ReplayChunks(env, s, []) == s
  {
    assert [ch][..0] == [];
  }

  lemma OneRecordState<R(!new), S(!new)>(env: Env<R, S>, before: S, s: S)
    requires EnvOk(env)
    ensures Replay(env, before, [env.checkpoint(s)]) == s
  {
    var ck := env.checkpoint(s);
    ReplayAppend(env, before, [], ck);
    assert [] + [ck] == [ck];
    assert Restores(env, before, s);
  }

  lemma FreshValid<R(!new), S(!new)>(env: Env<R, S>)
    requires EnvOk(env)
    ensures var h := [ChunkLog(0, [env.checkpoint(env.initial)])];
            ValidLog(env, h) && StateAfter(env, h) == env.initial
  {
    hide ReplayChunks, Replay, Stream;
    var ck := env.checkpoint(env.initial);
    var h := [ChunkLog(0, [ck])];
    OneChunkState(env, env.initial, h[0]);
    OneRecordState(env, env.initial, env.initial);
    assert h[..0] == [];
    assert Encodable(env.codec, ck);
    assert StartsAt(env, h, 0);
  }

  lemma RestartFresh<R(!new), S(!new)>(env: Env<R, S>, s: Sys<R, S>, image: Disk)
    requires Crashed(env, s, image, 0) && RepliesOk(env, s) && s.lo == s.cur && OldestDurable(env.codec, s)
    ensures s.lo == 0
    ensures var ck := env.checkpoint(env.initial);
            var bytes := Bytes1(env.codec, ck);
            var r := Recovered(map[0 := File(bytes, 0)], [], [0, |bytes|], env.initial, []);
            var s' := Booted(r, [ChunkLog(0, [ck])], 0, s.replies, s.careful);
            Inv(env, s') && Preserves(env, s, s')
  {
    hide Stream, ReplayChunks, Represents, Reaches, RepliesOk, Preserves, Offsets, Booted, Stored, CheckpointFirst;
    OnDiskPlaced(env, s);
    FirstNotDurable(env, s);
    var c, ck := env.codec, env.checkpoint(env.initial);
    var h, bytes := [ChunkLog(0, [ck])], Bytes1(c, ck);
    var r := Recovered(map[0 := File(bytes, 0)], [], [0, |bytes|], env.initial, []);
    FreshRepresents(env);
    ReachesFresh(env, s, h);
    BootedPreserves(env, s, 0, h, 0, r);
    BootedInv(env, s, h, 0, r);
  }

  /** A chunk without a whole durable record is not the oldest of a purged log. */
  lemma FirstNotDurable<R(!new), S(!new)>(env: Env<R, S>, s: Sys<R, S>)
    requires OnDisk(env, s) && s.lo == s.cur && CoversDurable(env.codec, s, 0) && OldestDurable(env.codec, s)
    ensures s.lo == 0
  {
    hide Stream, ReplayChunks, CheckpointFirst, Stored;
    OnDiskPlaced(env, s);
    var recs := s.hist[s.cur].recs;
    if s.lo > 0 {
      assert recs[..1] == [recs[0]];
      StreamOne(env.codec, recs[0]);
      assert false;
    }
  }

  lemma ReachesFresh<R(!new), S(!new)>(env: Env<R, S>, s: Sys<R, S>, h: seq<ChunkLog<R>>)
    requires OnDisk(env, s) && s.cur == 0 && h != [] && h[0].id == 0
    ensures Reaches(env, s, 0, h, 0)
  {
    hide Stream, ReplayChunks, CheckpointFirst, Stored, Chained;
    OnDiskPlaced(env, s);
    StreamEmpty(env.codec);
    forall i: nat, k: nat, u: nat |
      i <= 0 && IsMark(env.codec, s.hist[i], u, k) && (i == 0 ==> k <= 0) && u <= DurableEnd(s)
      ensures u <= 0 && OnMark(env.codec, h, u)
    {
      assert s.hist[0].recs[..0] == [] && h[0].recs[..0] == [];
      assert IsMark(env.codec, h[0], 0, 0);
      assert HasMark(env.codec, h[0], 0);
    }
  }
}
