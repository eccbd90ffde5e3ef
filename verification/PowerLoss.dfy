/** Power may fail while `open` repairs the directory: what was durable before the crash is still never lost. */
module PowerLoss {
  import opened Bytes
  import opened Codec
  import opened RecordStream
  import opened Log
  import opened Requests
  import opened Backlog
  import opened Recovery
  import opened CrashImages
  import opened RecoveredLog
  import opened System
  import opened Invariant
  import opened MainSteps
  import opened Crashes
  import opened Durability
  import opened Reopening

  /** The bytes are whole records. */
  ghost predicate AreWhole<R(!new)>(c: Codec<R>, b: seq<Byte>) {
    exists recs: seq<R> :: AllEncodable(c, recs) && b == Stream(c, recs)
  }

  /** `p` bytes of a file survive, then perhaps zeros up to its old length, which begin where a record ends. */
  ghost predicate Loses<R(!new)>(c: Codec<R>, f: File, f': File, p: nat) {
    && f.dur <= p <= |f.os|
    && p <= |f'.os| <= |f.os|
    && f'.os[..p] == f.os[..p] && AllZero(f'.os[p..])
    && (p < |f'.os| ==> AreWhole(c, f.os[..p]))
    && f.dur <= f'.dur <= |f'.os|
  }

  /** Of each file at least the durable part survives, and at most what it holds. */
  ghost predicate CutsBack<R(!new)>(c: Codec<R>, d: Disk, d': Disk) {
    && d'.Keys == d.Keys
    && forall k | k in d :: exists p: nat :: Loses(c, d[k], d'[k], p)
  }

  // What `open` adds

  /**
   `recs` are the first `k` of the records `base`, and in between checkpoints
   of the state that the records before them build.
   */
  ghost predicate RepairOf<R(!new), S(!new)>(env: Env<R, S>, base: seq<R>, recs: seq<R>, k: nat)
    decreases |recs|
  {
    && k <= |base|
    && if recs == [] then k == 0
       else
         var front, r := recs[..|recs| - 1], recs[|recs| - 1];
         || (k > 0 && r == base[k - 1] && RepairOf(env, base, front, k - 1))
         || (r == env.checkpoint(Replay(env, env.initial, front)) && RepairOf(env, base, front, k))
  }

  ghost predicate IsRepair<R(!new), S(!new)>(env: Env<R, S>, base: seq<R>, recs: seq<R>) {
    exists k: nat :: RepairOf(env, base, recs, k)
  }

  lemma {:induction false} ItsOwnRepair<R(!new), S(!new)>(env: Env<R, S>, base: seq<R>, n: nat)
    requires n <= |base|
    ensures RepairOf(env, base, base[..n], n)
  {
    if n > 0 {
      ItsOwnRepair(env, base, n - 1);
      assert base[..n][..n - 1] == base[..n - 1];
    }
  }

  lemma WholeRepair<R(!new), S(!new)>(env: Env<R, S>, base: seq<R>)
    ensures IsRepair(env, base, base)
  {
    ItsOwnRepair(env, base, |base|);
    assert base[..|base|] == base;
  }

  lemma NoRepair<R(!new), S(!new)>(env: Env<R, S>, base: seq<R>)
    ensures IsRepair(env, base, [])
  {
    assert RepairOf(env, base, [], 0);
  }

  lemma RepairFront<R(!new), S(!new)>(env: Env<R, S>, base: seq<R>, recs: seq<R>)
    requires IsRepair(env, base, recs) && recs != []
    ensures IsRepair(env, base, recs[..|recs| - 1])
  {
    var k: nat :| RepairOf(env, base, recs, k);
    var front := recs[..|recs| - 1];
    if RepairOf(env, base, front, k) {
    } else {
      assert k > 0 && RepairOf(env, base, front, k - 1);
    }
  }

  lemma {:induction false} RepairPrefix<R(!new), S(!new)>(env: Env<R, S>, base: seq<R>, recs: seq<R>, front: seq<R>)
    requires IsRepair(env, base, recs) && front <= recs
    ensures IsRepair(env, base, front)
    decreases |recs|
  {
    if front != recs {
      RepairFront(env, base, recs);
      RepairPrefix(env, base, recs[..|recs| - 1], front);
    }
  }

  lemma RepairWithCheckpoint<R(!new), S(!new)>(env: Env<R, S>, base: seq<R>, recs: seq<R>)
    requires IsRepair(env, base, recs)
    ensures IsRepair(env, base, recs + [env.checkpoint(Replay(env, env.initial, recs))])
  {
    var k: nat :| RepairOf(env, base, recs, k);
    var more := recs + [env.checkpoint(Replay(env, env.initial, recs))];
    assert more[..|more| - 1] == recs;
    assert RepairOf(env, base, more, k);
  }

  /** A chunk that `open` starts after the records that survived. */
  lemma RepairWithChunk<R(!new), S(!new)>(env: Env<R, S>, base: seq<R>, hist: seq<ChunkLog<R>>, cur: nat, m: nat)
    requires IsRepair(env, base, AllRecords(hist)) && cur < |hist| && 0 < m <= |hist[cur].recs|
    ensures IsRepair(env, base, AllRecords(WithChunk(env, Cut(hist, cur, m))))
  {
    hide AllRecords, IsRepair, ReplayChunks, Replay;
    var cut := Cut(hist, cur, m);
    CutIsPrefix(hist, cur, m);
    RepairPrefix(env, base, AllRecords(hist), AllRecords(cut));
    ReplayAllRecords(env, env.initial, cut);
    RepairWithCheckpoint(env, base, AllRecords(cut));
    RecordsWithChunk(env, cut);
  }

  lemma RecordsWithChunk<R, S>(env: Env<R, S>, hist: seq<ChunkLog<R>>)
    requires hist != []
    ensures AllRecords(WithChunk(env, hist)) == AllRecords(hist) + [env.checkpoint(StateAfter(env, hist))]
  {
    var more := WithChunk(env, hist);
    assert more[..|more| - 1] == hist;
  }

  lemma FreshRepair<R(!new), S(!new)>(env: Env<R, S>, base: seq<R>)
    ensures IsRepair(env, base, AllRecords([ChunkLog(0, [env.checkpoint(env.initial)])]))
  {
    var ck := env.checkpoint(env.initial);
    NoRepair(env, base);
    RepairWithCheckpoint(env, base, []);
    var h := [ChunkLog(0, [ck])];
    assert h[..0] == [];
    assert AllRecords(h) == [] + [ck];
  }

  /** The checkpoints in between change nothing: a repair has the state of its part of the base. */
  lemma {:induction false} RepairReplays<R(!new), S(!new)>(env: Env<R, S>, base: seq<R>, recs: seq<R>, k: nat)
    requires EnvOk(env) && RepairOf(env, base, recs, k)
    ensures k <= |base| && Replay(env, env.initial, recs) == Replay(env, env.initial, base[..k])
    decreases |recs|
  {
    hide Lawful;
    if recs == [] {
      assert base[..0] == [];
    } else {
      var front, r := recs[..|recs| - 1], recs[|recs| - 1];
      if k > 0 && r == base[k - 1] && RepairOf(env, base, front, k - 1) {
        RepairReplays(env, base, front, k - 1);
        assert base[..k][..k - 1] == base[..k - 1];
      } else {
        RepairReplays(env, base, front, k);
        var s := Replay(env, env.initial, front);
        assert Restores(env, s, s);
      }
    }
  }

  // What is safe

  /** The first `k` records of chunk `i` of `base` are in the log at the same place, and durable in the directory. */
  ghost predicate IsSafe<R>(
    c: Codec<R>, base: seq<ChunkLog<R>>, hist: seq<ChunkLog<R>>, cur: nat, m: nat, dur: nat, i: nat, k: nat)
  {
    && SharesRecords(base, hist, i, k)
    && (i < cur || (i == cur && k <= m && |Stream(c, hist[i].recs[..k])| <= dur))
  }

  /** Every record of `base` that ends at or below `u` is safe. */
  ghost predicate AllSafe<R>(
    c: Codec<R>, base: seq<ChunkLog<R>>, u: nat, hist: seq<ChunkLog<R>>, cur: nat, m: nat, dur: nat)
  {
    forall i: nat, k: nat | i < |base| && 0 < k <= |base[i].recs| && base[i].id + |Stream(c, base[i].recs[..k])| <= u ::
      IsSafe(c, base, hist, cur, m, dur, i, k)
  }

  /** The directory holds log `hist` up to `m` records of chunk `cur`, and everything of `base` up to `u` durably. */
  ghost predicate Shelters<R(!new), S(!new)>(
    env: Env<R, S>, d: Disk, base: seq<ChunkLog<R>>, u: nat, hist: seq<ChunkLog<R>>, lo: nat, cur: nat, m: nat)
  {
    && ValidLog(env, hist) && Image(env.codec, hist, lo, cur, m, d)
    && IsRepair(env, AllRecords(base), AllRecords(hist))
    && d[hist[cur].id].dur <= |d[hist[cur].id].os|
    && AllSafe(env.codec, base, u, hist, cur, m, d[hist[cur].id].dur)
    && (lo == cur && lo > 0 ==> m > 0 && |Stream(env.codec, hist[cur].recs[..1])| <= d[hist[cur].id].dur)
  }

  ghost predicate NoneBelow<R>(c: Codec<R>, base: seq<ChunkLog<R>>, u: nat) {
    forall i: nat, k: nat | i < |base| && 0 < k <= |base[i].recs| :: base[i].id + |Stream(c, base[i].recs[..k])| > u
  }

  ghost predicate Sheltered<R(!new), S(!new)>(env: Env<R, S>, d: Disk, base: seq<ChunkLog<R>>, u: nat, lo: nat) {
    || (d == map[] && NoneBelow(env.codec, base, u) && lo == 0)
    || exists hist, cur, m :: Shelters(env, d, base, u, hist, lo, cur, m)
  }

  lemma ShelterFacts<R(!new), S(!new)>(
    env: Env<R, S>, d: Disk, base: seq<ChunkLog<R>>, u: nat, hist: seq<ChunkLog<R>>, lo: nat, cur: nat, m: nat)
    requires EnvOk(env) && Shelters(env, d, base, u, hist, lo, cur, m)
    ensures Lawful(env.codec) && Chained(env.codec, hist) && ValidLog(env, hist)
    ensures lo <= cur < |hist| && hist[cur].id in d && m <= |hist[cur].recs| && hist[cur].recs != []
    ensures Image(env.codec, hist, lo, cur, m, d) && Stored(env.codec, hist, lo, cur, d)
    ensures HasInitialRecord(env.codec, d[hist[cur].id].os) == Ok(m > 0)
    ensures AllSafe(env.codec, base, u, hist, cur, m, d[hist[cur].id].dur)
  {
    hide Stream, CheckpointFirst, HasInitialRecord, AllSafe;
    ImageFacts(env, hist, lo, cur, m, d);
    InitialRecord(env.codec, hist[cur].recs, m, d[hist[cur].id].os);
  }

  // The start: a crash of the running log

  lemma CrashShelters<R(!new), S(!new)>(env: Env<R, S>, s: Sys<R, S>, image: Disk, u: nat)
    requires OnDisk(env, s) && OldestDurable(env.codec, s) && CrashImage(env.codec, s, image) && u <= DurableEnd(s)
    ensures Sheltered(env, image, s.hist, u, s.lo)
  {
    hide Stream, CrashImage, Image, ReplayChunks, CheckpointFirst, Stored, CoversDurable;
    OnDiskPlaced(env, s);
    var m := CrashLeavesImage(env, s, image);
    ImageFacts(env, s.hist, s.lo, s.cur, m, image);
    DurableIsSafe(env, s, m, image[s.hist[s.cur].id].dur, u);
    if s.lo == s.cur && s.lo > 0 {
      OldestIsSafe(env, s, m);
    }
    WholeRepair(env, AllRecords(s.hist));
    assert Shelters(env, image, s.hist, u, s.hist, s.lo, s.cur, m);
  }

  lemma DurableIsSafe<R(!new), S(!new)>(env: Env<R, S>, s: Sys<R, S>, m: nat, dur: nat, u: nat)
    requires OnDisk(env, s) && Placed(s) && CoversDurable(env.codec, s, m) && CurFile(s).dur <= dur && u <= DurableEnd(s)
    ensures AllSafe(env.codec, s.hist, u, s.hist, s.cur, m, dur)
  {
    hide Stream, ReplayChunks, CheckpointFirst, Stored;
    var c, hist, cur := env.codec, s.hist, s.cur;
    forall i: nat, k: nat | i < |hist| && 0 < k <= |hist[i].recs| && hist[i].id + |Stream(c, hist[i].recs[..k])| <= u
      ensures IsSafe(c, hist, hist, cur, m, dur, i, k)
    {
      if i > cur {
        IdsIncrease(c, hist, cur, i);
        StreamGrows(c, hist[i].recs, 0, k);
        assert false;
      }
    }
  }

  lemma OldestIsSafe<R(!new), S(!new)>(env: Env<R, S>, s: Sys<R, S>, m: nat)
    requires OnDisk(env, s) && OldestDurable(env.codec, s) && CoversDurable(env.codec, s, m) && s.lo == s.cur && s.lo > 0
    ensures m > 0 && |Stream(env.codec, s.hist[s.cur].recs[..1])| <= CurFile(s).dur
  {
    hide ReplayChunks, CheckpointFirst, Stored, Stream;
    OnDiskPlaced(env, s);
    var recs := s.hist[s.cur].recs;
    assert recs[..1] == [recs[0]];
    StreamOne(env.codec, recs[0]);
  }

  // A power loss

  /** A file cut anywhere holds the whole records below the cut. */
  lemma CutHolds<R(!new)>(c: Codec<R>, recs: seq<R>, m: nat, b: seq<Byte>, b': seq<Byte>) returns (m': nat)
    requires Lawful(c) && AllEncodable(c, recs) && HoldsPrefix(c, recs, m, b) && b' <= b
    ensures HoldsPrefix(c, recs, m', b') && m' <= m
    ensures forall k: nat | k <= m && |Stream(c, recs[..k])| <= |b'| :: k <= m'
  {
    var body := Stream(c, recs[..m]);
    if |body| <= |b'| {
      m' := m;
      assert b'[..|body|] == b[..|body|];
      var rest, rest' := b[|body|..], b'[|body|..];
      assert rest' == rest[..|rest'|];
    } else {
      m' := CutInBody(c, recs, m, body, b');
    }
  }

  /** The same when zeros follow the cut. */
  lemma LossKeepsRecords<R(!new)>(c: Codec<R>, recs: seq<R>, m: nat, f: File, f': File) returns (m': nat)
    requires Lawful(c) && AllEncodable(c, recs) && HoldsPrefix(c, recs, m, f.os)
    requires exists p: nat :: Loses(c, f, f', p)
    ensures HoldsPrefix(c, recs, m', f'.os) && m' <= m && f.dur <= f'.dur <= |f'.os|
    ensures forall k: nat | k <= m && |Stream(c, recs[..k])| <= f.dur :: k <= m'
  {
    hide Stream, HoldsPrefix, AllZero, Lawful, AreWhole;
    var p: nat :| Loses(c, f, f', p);
    var b := f.os[..p];
    m' := CutHolds(c, recs, m, f.os, b);
    if p < |f'.os| {
      ThenZeros(c, recs, m', b, f'.os);
    } else {
      assert f'.os == b;
    }
  }

  lemma ThenZeros<R(!new)>(c: Codec<R>, recs: seq<R>, m: nat, b: seq<Byte>, b': seq<Byte>)
    requires Lawful(c) && AllEncodable(c, recs) && HoldsPrefix(c, recs, m, b) && AreWhole(c, b)
    requires b <= b' && AllZero(b'[|b|..])
    ensures HoldsPrefix(c, recs, m, b')
  {
    hide Stream, Parse, Lawful, AllZero;
    var whole: seq<R> :| AllEncodable(c, whole) && b == Stream(c, whole);
    ParseUndoesAppend(c, whole);
    ParseHoldsPrefix(c, recs, m, b);
  }

  lemma CutInBody<R(!new)>(c: Codec<R>, recs: seq<R>, m: nat, body: seq<Byte>, b': seq<Byte>) returns (m': nat)
    requires Lawful(c) && AllEncodable(c, recs) && m <= |recs| && body == Stream(c, recs[..m]) && b' <= body
    ensures HoldsPrefix(c, recs, m', b') && m' <= m
    ensures forall k: nat | k <= m && |Stream(c, recs[..k])| <= |b'| :: k <= m'
  {
    hide Stream, Parse, Lawful, HoldsPrefix;
    var front := recs[..m];
    m' := ParseCut(c, front, |b'|);
    assert b' == body[..|b'|];
    forall k: nat | k <= m ensures front[..k] == recs[..k] {
    }
    HoldsMore(c, front, recs, m', b');
  }

  lemma HoldsMore<R>(c: Codec<R>, front: seq<R>, recs: seq<R>, m: nat, b: seq<Byte>)
    requires front <= recs && HoldsPrefix(c, front, m, b)
    ensures HoldsPrefix(c, recs, m, b)
  {
    hide Stream;
    assert front[..m] == recs[..m];
  }

  lemma StoredCutsBack<R(!new)>(c: Codec<R>, hist: seq<ChunkLog<R>>, lo: nat, cur: nat, d: Disk, d': Disk)
    requires Stored(c, hist, lo, cur, d) && CutsBack(c, d, d')
    ensures Stored(c, hist, lo, cur, d')
  {
    hide Stream;
    forall i | lo <= i < cur ensures IsWhole(c, hist[i], d') {
      assert IsWhole(c, hist[i], d);
    }
  }

  lemma SafeCutsBack<R>(
    c: Codec<R>, base: seq<ChunkLog<R>>, u: nat, hist: seq<ChunkLog<R>>, cur: nat, m: nat, dur: nat, m': nat, dur': nat)
    requires AllSafe(c, base, u, hist, cur, m, dur) && dur <= dur' && cur < |hist|
    requires forall k: nat | k <= m && k <= |hist[cur].recs| && |Stream(c, hist[cur].recs[..k])| <= dur :: k <= m'
    ensures AllSafe(c, base, u, hist, cur, m', dur')
  {
    hide Stream;
    forall i: nat, k: nat | i < |base| && 0 < k <= |base[i].recs| && base[i].id + |Stream(c, base[i].recs[..k])| <= u
      ensures IsSafe(c, base, hist, cur, m', dur', i, k)
    {
      assert IsSafe(c, base, hist, cur, m, dur, i, k);
    }
  }

  /** After a power loss, everything sheltered still is. */
  lemma LossShelters<R(!new), S(!new)>(env: Env<R, S>, d: Disk, d': Disk, base: seq<ChunkLog<R>>, u: nat, lo: nat)
    requires EnvOk(env) && Sheltered(env, d, base, u, lo) && CutsBack(env.codec, d, d')
    ensures Sheltered(env, d', base, u, lo)
  {
    hide Stream, EnvOk, Shelters, Stored, HoldsPrefix, AllSafe, Lawful, Chained, NoneBelow;
    if !(d == map[] && NoneBelow(env.codec, base, u) && lo == 0) {
      var hist: seq<ChunkLog<R>>, cur: nat, m: nat :| Shelters(env, d, base, u, hist, lo, cur, m);
      LossHolds(env, d, d', base, u, hist, lo, cur, m);
    }
  }

  lemma LossHolds<R(!new), S(!new)>(
    env: Env<R, S>, d: Disk, d': Disk, base: seq<ChunkLog<R>>, u: nat, hist: seq<ChunkLog<R>>, lo: nat, cur: nat, m: nat)
    requires EnvOk(env) && Shelters(env, d, base, u, hist, lo, cur, m) && CutsBack(env.codec, d, d')
    ensures Sheltered(env, d', base, u, lo)
  {
    hide Stream, EnvOk, HoldsPrefix, AllSafe, Lawful, CheckpointFirst, ReplayChunks, HasInitialRecord, Stored;
    ShelterFacts(env, d, base, u, hist, lo, cur, m);
    var c, id := env.codec, hist[cur].id;
    StoredCutsBack(c, hist, lo, cur, d, d');
    var m' := LossKeepsRecords(c, hist[cur].recs, m, d[id], d'[id]);
    SafeCutsBack(c, base, u, hist, cur, m, d[id].dur, m', d'[id].dur);
    assert Shelters(env, d', base, u, hist, lo, cur, m');
  }

  // Removing a tail

  lemma NothingBelow<R>(c: Codec<R>, base: seq<ChunkLog<R>>, u: nat, hist: seq<ChunkLog<R>>, dur: nat)
    requires AllSafe(c, base, u, hist, 0, 0, dur)
    ensures NoneBelow(c, base, u)
  {
    hide Stream;
    forall i: nat, k: nat | i < |base| && 0 < k <= |base[i].recs|
      ensures base[i].id + |Stream(c, base[i].recs[..k])| > u
    {
      NothingIsSafe(c, base, hist, dur, i, k);
    }
  }

  lemma NothingIsSafe<R>(c: Codec<R>, base: seq<ChunkLog<R>>, hist: seq<ChunkLog<R>>, dur: nat, i: nat, k: nat)
    requires k > 0
    ensures !IsSafe(c, base, hist, 0, 0, dur, i, k)
  {
    hide Stream;
  }

  lemma SafeBefore<R(!new), S(!new)>(
    env: Env<R, S>, base: seq<ChunkLog<R>>, u: nat, hist: seq<ChunkLog<R>>, cur: nat, dur: nat, dur': nat)
    requires EnvOk(env) && ValidLog(env, hist) && 0 < cur < |hist| && AllSafe(env.codec, base, u, hist, cur, 0, dur)
    requires dur' == |Stream(env.codec, hist[cur - 1].recs)|
    ensures AllSafe(env.codec, base, u, hist, cur - 1, |hist[cur - 1].recs|, dur')
  {
    hide Stream, ReplayChunks, CheckpointFirst;
    var c := env.codec;
    forall i: nat, k: nat | i < |base| && 0 < k <= |base[i].recs| && base[i].id + |Stream(c, base[i].recs[..k])| <= u
      ensures IsSafe(c, base, hist, cur - 1, |hist[cur - 1].recs|, dur', i, k)
    {
      assert IsSafe(c, base, hist, cur, 0, dur, i, k);
      if i == cur - 1 {
        StreamPrefix(c, hist[i].recs, k);
      }
    }
  }

  lemma RemovalShelters<R(!new), S(!new)>(env: Env<R, S>, d: Disk, ids: seq<nat>, base: seq<ChunkLog<R>>, u: nat, lo: nat)
    requires EnvOk(env) && Sheltered(env, d, base, u, lo) && IsListing(ids, d.Keys) && TailIsIncomplete(env.codec, d, ids)
    ensures Sheltered(env, d - {ids[|ids| - 1]}, base, u, lo)
  {
    hide Stream, EnvOk, Shelters, HasInitialRecord, Chained, Stored, Lawful, Image, ValidLog, AllSafe, NoneBelow;
    var last := ids[|ids| - 1];
    var hist: seq<ChunkLog<R>>, cur: nat, m: nat :| Shelters(env, d, base, u, hist, lo, cur, m);
    ShelterFacts(env, d, base, u, hist, lo, cur, m);
    ListingWithoutLast(ids, d);
    if last > hist[cur].id {
      RemoveBeyond(env, d, last, base, u, hist, lo, cur, m);
    } else {
      RemoveCurrentSheltered(env, d, base, u, hist, lo, cur);
    }
  }

  lemma RemoveBeyond<R(!new), S(!new)>(
    env: Env<R, S>, d: Disk, last: nat, base: seq<ChunkLog<R>>, u: nat, hist: seq<ChunkLog<R>>, lo: nat, cur: nat, m: nat)
    requires EnvOk(env) && Shelters(env, d, base, u, hist, lo, cur, m) && cur < |hist| && last > hist[cur].id
    ensures Sheltered(env, d - {last}, base, u, lo)
  {
    hide Stream, EnvOk, ValidLog, HasInitialRecord, Chained, Stored, Lawful, HoldsPrefix, AllSafe, NoneBelow;
    ShelterFacts(env, d, base, u, hist, lo, cur, m);
    IdsOrdered(env.codec, hist);
    ImageWithoutEmpty(env.codec, hist, lo, cur, m, d, last);
    assert Shelters(env, d - {last}, base, u, hist, lo, cur, m);
  }

  lemma RemoveCurrentSheltered<R(!new), S(!new)>(
    env: Env<R, S>, d: Disk, base: seq<ChunkLog<R>>, u: nat, hist: seq<ChunkLog<R>>, lo: nat, cur: nat)
    requires EnvOk(env) && Shelters(env, d, base, u, hist, lo, cur, 0) && cur < |hist|
    requires forall k | k in d :: k <= hist[cur].id
    ensures Sheltered(env, d - {hist[cur].id}, base, u, lo)
  {
    hide Stream, EnvOk, ValidLog, HasInitialRecord, Chained, Stored, Lawful, HoldsPrefix, AllSafe, NoneBelow, Upto, Image;
    var c, d' := env.codec, d - {hist[cur].id};
    ShelterFacts(env, d, base, u, hist, lo, cur, 0);
    if lo < cur {
      UptoLast(d, hist[cur].id);
      DropCurrent(c, hist, lo, cur, d);
      NonEmptyChunk(env, hist, cur - 1);
      SafeBefore(env, base, u, hist, cur, d[hist[cur].id].dur, d'[hist[cur - 1].id].dur);
      StreamFirst(c, hist[cur - 1].recs);
      assert Shelters(env, d', base, u, hist, lo, cur - 1, |hist[cur - 1].recs|);
    } else {
      OnlyCurrent(c, hist, cur, d);
      NothingBelow(c, base, u, hist, d[hist[cur].id].dur);
    }
  }

  lemma StreamFirst<R>(c: Codec<R>, recs: seq<R>)
    requires recs != []
    ensures |Stream(c, recs[..1])| <= |Stream(c, recs)|
  {
    hide Stream;
    StreamPrefix(c, recs, 1);
  }

  // Loading

  lemma SafeInCut<R(!new), S(!new)>(
    env: Env<R, S>, base: seq<ChunkLog<R>>, u: nat, hist: seq<ChunkLog<R>>, cur: nat, m: nat, dur: nat, h: seq<ChunkLog<R>>, m': nat, dur': nat)
    requires AllSafe(env.codec, base, u, hist, cur, m, dur) && cur < |hist| && 0 < m <= |hist[cur].recs|
    requires cur + 1 < |h| && h[..cur + 1] == Cut(hist, cur, m)
    ensures AllSafe(env.codec, base, u, h, cur + 1, m', dur')
  {
    hide Stream;
    var c := env.codec;
    forall i: nat, k: nat | i < |base| && 0 < k <= |base[i].recs| && base[i].id + |Stream(c, base[i].recs[..k])| <= u
      ensures IsSafe(c, base, h, cur + 1, m', dur', i, k)
    {
      assert IsSafe(c, base, hist, cur, m, dur, i, k);
      assert h[i] == h[..cur + 1][i];
      if i == cur {
        assert hist[cur].recs[..m][..k] == hist[cur].recs[..k];
      }
    }
  }

  lemma HalfShelters<R(!new), S(!new)>(
    env: Env<R, S>, d: Disk, base: seq<ChunkLog<R>>, u: nat, hist: seq<ChunkLog<R>>, lo: nat, cur: nat, m: nat,
    b: seq<Byte>, dur: nat)
    requires EnvOk(env) && Shelters(env, d, base, u, hist, lo, cur, m) && m > 0 && cur < |hist| && m <= |hist[cur].recs|
    requires forall k | k in d :: k <= hist[cur].id
    requires var cut := Cut(hist, cur, m);
             b <= Bytes1(env.codec, env.checkpoint(StateAfter(env, cut))) && dur <= |b|
    ensures var cut := Cut(hist, cur, m);
            var body := Stream(env.codec, cut[cur].recs);
            Sheltered(env, d[hist[cur].id := File(body, |body|)][End(env.codec, cut[cur]) := File(b, dur)], base, u, lo)
  {
    hide Stream, EnvOk, ReplayChunks, CheckpointFirst, Chained, Stored, IsWhole, AllSafe, HasInitialRecord, HoldsPrefix, Image;
    var c, cut := env.codec, Cut(hist, cur, m);
    var body, ck := Stream(c, cut[cur].recs), env.checkpoint(StateAfter(env, cut));
    ShelterFacts(env, d, base, u, hist, lo, cur, m);
    CutStored(env, hist, lo, cur, m, d);
    var kept := d[hist[cur].id := File(body, |body|)];
    var h, d' := WithChunk(env, cut), kept[End(c, cut[cur]) := File(b, dur)];
    StoredGrows(env, cut, lo, kept, File(b, dur));
    WithChunkValid(env, cut);
    CheckpointHolds(c, ck, b);
    var m' := if b == Bytes1(c, ck) then 1 else 0;
    assert h[..cur + 1] == cut && h[cur + 1].recs == [ck];
    SafeInCut(env, base, u, hist, cur, m, d[hist[cur].id].dur, h, m', dur);
    MakesImage(c, h, lo, cur + 1, m', d');
    RepairWithChunk(env, AllRecords(base), hist, cur, m);
    assert Shelters(env, d', base, u, h, lo, cur + 1, m');
  }

  lemma MakesImage<R>(c: Codec<R>, hist: seq<ChunkLog<R>>, lo: nat, cur: nat, m: nat, d: Disk)
    requires Stored(c, hist, lo, cur, d) && HoldsPrefix(c, hist[cur].recs, m, d[hist[cur].id].os)
    ensures Image(c, hist, lo, cur, m, d)
  {
  }

  lemma TailShelters<R(!new), S(!new)>(
    env: Env<R, S>, d: Disk, base: seq<ChunkLog<R>>, u: nat, hist: seq<ChunkLog<R>>, lo: nat, cur: nat, m: nat)
    requires EnvOk(env) && Shelters(env, d, base, u, hist, lo, cur, m) && m > 0 && cur < |hist| && m <= |hist[cur].recs|
    ensures var id, recs := hist[cur].id, hist[cur].recs[..m];
            Sheltered(env, d[id := TailFile(env.codec, recs, d[id])], base, u, lo)
  {
    hide Stream, EnvOk, ReplayChunks, CheckpointFirst, Chained, Stored, AllSafe, HasInitialRecord, HoldsPrefix;
    var c, id, recs := env.codec, hist[cur].id, hist[cur].recs;
    ShelterFacts(env, d, base, u, hist, lo, cur, m);
    TailImage(env, hist, lo, cur, m, d);
    var d' := d[id := TailFile(c, recs[..m], d[id])];
    TailDurable(c, recs, m, d[id]);
    forall k: nat | k <= m && k <= |recs| && |Stream(c, recs[..k])| <= d[id].dur ensures k <= m {
    }
    SafeTail(c, base, u, hist, cur, m, d[id].dur, d'[id].dur);
    assert recs[..m][..1] == recs[..1];
    StreamPrefix(c, recs[..m], 1);
    assert Shelters(env, d', base, u, hist, lo, cur, m);
  }

  /** Truncation loses no durable record, though perhaps durable bytes behind the last whole one. */
  lemma TailDurable<R(!new)>(c: Codec<R>, recs: seq<R>, m: nat, f: File)
    requires m <= |recs| && f.dur <= |f.os|
    ensures var t := TailFile(c, recs[..m], f); t.dur <= |t.os| && (t.dur >= f.dur || t.dur == |Stream(c, recs[..m])|)
  {
  }

  lemma SafeTail<R(!new)>(
    c: Codec<R>, base: seq<ChunkLog<R>>, u: nat, hist: seq<ChunkLog<R>>, cur: nat, m: nat, dur: nat, dur': nat)
    requires AllSafe(c, base, u, hist, cur, m, dur) && cur < |hist| && m <= |hist[cur].recs|
    requires dur' >= dur || dur' == |Stream(c, hist[cur].recs[..m])|
    ensures AllSafe(c, base, u, hist, cur, m, dur')
  {
    hide Stream;
    forall i: nat, k: nat | i < |base| && 0 < k <= |base[i].recs| && base[i].id + |Stream(c, base[i].recs[..k])| <= u
      ensures IsSafe(c, base, hist, cur, m, dur', i, k)
    {
      assert IsSafe(c, base, hist, cur, m, dur, i, k);
      if i == cur {
        assert hist[cur].recs[..m][..k] == hist[cur].recs[..k];
        StreamPrefix(c, hist[cur].recs[..m], k);
      }
    }
  }

  lemma FreshShelters<R(!new), S(!new)>(env: Env<R, S>, base: seq<ChunkLog<R>>, u: nat, b: seq<Byte>, dur: nat)
    requires EnvOk(env) && NoneBelow(env.codec, base, u) && b <= Bytes1(env.codec, env.checkpoint(env.initial)) && dur <= |b|
    ensures Sheltered(env, map[0 := File(b, dur)], base, u, 0)
  {
    hide Stream, ReplayChunks, CheckpointFirst, Chained, Lawful;
    var ck := env.checkpoint(env.initial);
    var h, d := [ChunkLog(0, [ck])], map[0 := File(b, dur)];
    FreshValid(env);
    CheckpointHolds(env.codec, ck, b);
    var m := if b == Bytes1(env.codec, ck) then 1 else 0;
    FreshRepair(env, AllRecords(base));
    assert IsLive(h, 0, 0, 0) by {
      assert h[0].id == 0;
    }
    assert Shelters(env, d, base, u, h, 0, 0, m);
  }

  lemma LoadingShelters<R(!new), S(!new)>(
    env: Env<R, S>, d: Disk, ids: seq<nat>, d': Disk, base: seq<ChunkLog<R>>, u: nat,
    hist: seq<ChunkLog<R>>, lo: nat, cur: nat, m: nat)
    requires EnvOk(env) && Bounded(env.codec) && Shelters(env, d, base, u, hist, lo, cur, m) && IsListing(ids, d.Keys)
    requires RemoveTails(env.codec, d, ids) == Ok((d, ids)) && DiesLoading(env, d, ids, d')
    ensures Sheltered(env, d', base, u, lo)
  {
    hide Stream, EnvOk, Shelters, ValidLog, Image, Chained, Stored, Lawful, RemoveTails, Load, Cut, IsWhole, IsListing,
    HasInitialRecord, StateAfter, AllRecords, Offsets, LoadedLog, AllSafe, Sheltered;
    ShelterFacts(env, d, base, u, hist, lo, cur, m);
    HoldsSomething(env, hist, lo, cur, m, d, ids);
    LoadExact(env, hist, lo, cur, m, d, env.initial, true);
    var p := Load(env, d, ids, |ids|, env.initial, true).value;
    if d' == p.disk {
      TailShelters(env, d, base, u, hist, lo, cur, m);
    } else {
      var b, dur :| HalfCreated(env, p, b, dur, d');
      CutShape(hist, cur, m);
      HalfShelters(env, d, base, u, hist, lo, cur, m, b, dur);
    }
  }

  lemma HoldsSomething<R(!new), S(!new)>(
    env: Env<R, S>, hist: seq<ChunkLog<R>>, lo: nat, cur: nat, m: nat, d: Disk, ids: seq<nat>)
    requires EnvOk(env) && ValidLog(env, hist) && Image(env.codec, hist, lo, cur, m, d) && IsListing(ids, d.Keys)
    requires RemoveTails(env.codec, d, ids) == Ok((d, ids)) && lo <= cur < |hist|
    ensures m > 0 && ids == LiveIds(hist, lo, cur) && (forall k | k in d :: k <= hist[cur].id)
  {
    hide Stream, ReplayChunks, Replays;
    var cut := Recoverable(hist, lo, cur, m);
    var sm := if cut == [] then env.initial else StateAfter(env, cut);
    var recs: seq<R> := if cut == [] then [] else AllRecords(cut[lo..]);
    RecoverableReplays(env, hist, lo, cur, m);
    ExactListing(env, d, ids, sm, recs, hist, lo, cur, m);
  }

  lemma RecoverableReplays<R, S>(env: Env<R, S>, hist: seq<ChunkLog<R>>, lo: nat, cur: nat, m: nat)
    requires lo <= cur < |hist| && m <= |hist[cur].recs|
    ensures var cut := Recoverable(hist, lo, cur, m);
            if cut == [] then Replays(env, cut, lo, env.initial, [])
            else lo < |cut| && Replays(env, cut, lo, StateAfter(env, cut), AllRecords(cut[lo..]))
  {
    hide ReplayChunks, AllRecords;
  }

  /** An `open` that dies leaves everything sheltered. */
  lemma {:induction false} InterruptedShelters<R(!new), S(!new)>(
    env: Env<R, S>, d: Disk, ids: seq<nat>, d': Disk, base: seq<ChunkLog<R>>, u: nat, lo: nat)
    requires EnvOk(env) && Bounded(env.codec) && Sheltered(env, d, base, u, lo) && IsListing(ids, d.Keys)
    requires Interrupted(env, d, ids, d')
    ensures Sheltered(env, d', base, u, lo)
    decreases |ids|
  {
    hide EnvOk, Shelters, DiesLoading, RemoveTails, HasInitialRecord, NoneBelow;
    if d' == d {
    } else if TailIsIncomplete(env.codec, d, ids) && Interrupted(env, d - {ids[|ids| - 1]}, ids[..|ids| - 1], d') {
      RemovalShelters(env, d, ids, base, u, lo);
      ListingWithoutLast(ids, d);
      InterruptedShelters(env, d - {ids[|ids| - 1]}, ids[..|ids| - 1], d', base, u, lo);
    } else if d == map[] && NoneBelow(env.codec, base, u) && lo == 0 {
      NothingDies(env, ids, d', base, u);
    } else {
      var hist: seq<ChunkLog<R>>, cur: nat, m: nat :| Shelters(env, d, base, u, hist, lo, cur, m);
      LoadingShelters(env, d, ids, d', base, u, hist, lo, cur, m);
    }
  }

  lemma NothingDies<R(!new), S(!new)>(env: Env<R, S>, ids: seq<nat>, d': Disk, base: seq<ChunkLog<R>>, u: nat)
    requires EnvOk(env) && Bounded(env.codec) && IsListing(ids, {}) && NoneBelow(env.codec, base, u)
    requires DiesLoading(env, map[], ids, d')
    ensures Sheltered(env, d', base, u, 0)
  {
    hide EnvOk, NoneBelow;
    ListedIsKey(ids, {});
    var p := Load(env, map[], ids, |ids|, env.initial, true).value;
    if d' != p.disk {
      var b, dur :| HalfCreated(env, p, b, dur, d');
      FreshShelters(env, base, u, b, dur);
    }
  }

  // The theorem

  /** What can befall a directory that is being opened: `open` dies, or the power fails. */
  ghost predicate Suffers<R(!new), S>(env: Env<R, S>, d: Disk, d': Disk) {
    InterruptedOnce(env, d, d') || CutsBack(env.codec, d, d')
  }

  lemma {:induction false} SuffersShelters<R(!new), S(!new)>(
    env: Env<R, S>, disks: seq<Disk>, n: nat, base: seq<ChunkLog<R>>, u: nat, lo: nat)
    requires EnvOk(env) && n < |disks| && Sheltered(env, disks[0], base, u, lo)
    requires forall i | 0 <= i < n :: Suffers(env, disks[i], disks[i + 1])
    ensures Sheltered(env, disks[n], base, u, lo)
  {
    hide Sheltered, Interrupted, EnvOk, CutsBack;
    if n > 0 {
      SuffersShelters(env, disks, n - 1, base, u, lo);
      assert Suffers(env, disks[n - 1], disks[n - 1 + 1]);
      if CutsBack(env.codec, disks[n - 1], disks[n]) {
        LossShelters(env, disks[n - 1], disks[n], base, u, lo);
      } else {
        var ids :| IsListing(ids, disks[n - 1].Keys) && Interrupted(env, disks[n - 1], ids, disks[n]);
        InterruptedShelters(env, disks[n - 1], ids, disks[n], base, u, lo);
      }
    }
  }

  /** `open` replays the log `cut` from chunk `lo` on, whose records are the first `k` of `base` and its own checkpoints. */
  ghost predicate Rebuilds<R(!new), S(!new)>(
    env: Env<R, S>, res: Result<Recovered<R, S>>, base: seq<R>, cut: seq<ChunkLog<R>>, lo: nat, k: nat)
  {
    && res.Ok? && RepairOf(env, base, AllRecords(cut), k)
    && k <= |base| && res.value.sm == Replay(env, env.initial, base[..k])
    && if cut == [] then res.value.replayed == [] else lo < |cut| && res.value.replayed == AllRecords(cut[lo..])
  }

  lemma RebuildsFrom<R(!new), S(!new)>(
    env: Env<R, S>, res: Result<Recovered<R, S>>, base: seq<R>, cut: seq<ChunkLog<R>>, lo: nat) returns (k: nat)
    requires EnvOk(env) && res.Ok? && IsRepair(env, base, AllRecords(cut)) && res.value.sm == StateAfter(env, cut)
    requires if cut == [] then res.value.replayed == [] else lo < |cut| && res.value.replayed == AllRecords(cut[lo..])
    ensures Rebuilds(env, res, base, cut, lo, k)
  {
    hide EnvOk, AllRecords, ReplayChunks, Replay, RepairOf;
    k :| RepairOf(env, base, AllRecords(cut), k);
    RepairReplays(env, base, AllRecords(cut), k);
    ReplayAllRecords(env, env.initial, cut);
  }

  /** Opening a directory that shelters records replays a log that has them. */
  lemma OpenKeeps<R(!new), S(!new)>(env: Env<R, S>, d: Disk, ids: seq<nat>, base: seq<ChunkLog<R>>, u: nat, lo: nat)
    returns (cut: seq<ChunkLog<R>>, k: nat)
    requires EnvOk(env) && Sheltered(env, d, base, u, lo) && IsListing(ids, d.Keys)
    ensures Rebuilds(env, Open(env, d, ids, env.initial, true), AllRecords(base), cut, lo, k)
    ensures Keeps(env.codec, base, cut, u)
  {
    hide EnvOk, Shelters, Open, NoneBelow, Rebuilds, AllRecords, IsRepair;
    EnvBounded(env);
    if d == map[] && NoneBelow(env.codec, base, u) && lo == 0 {
      cut := [];
      OpenNothing(env, ids);
      NoneKeeps(env.codec, base, u);
      NoRepair(env, AllRecords(base));
      NoRecords<R>();
      k := RebuildsFrom(env, Open(env, d, ids, env.initial, true), AllRecords(base), cut, lo);
    } else {
      var hist: seq<ChunkLog<R>>, cur: nat, m: nat :| Shelters(env, d, base, u, hist, lo, cur, m);
      cut, k := OpenShelter(env, d, ids, base, u, hist, lo, cur, m);
    }
  }

  lemma NoneKeeps<R>(c: Codec<R>, base: seq<ChunkLog<R>>, u: nat)
    requires NoneBelow(c, base, u)
    ensures Keeps(c, base, [], u)
  {
  }

  lemma OpenShelter<R(!new), S(!new)>(
    env: Env<R, S>, d: Disk, ids: seq<nat>, base: seq<ChunkLog<R>>, u: nat, hist: seq<ChunkLog<R>>, lo: nat, cur: nat, m: nat)
    returns (cut: seq<ChunkLog<R>>, k: nat)
    requires EnvOk(env) && Shelters(env, d, base, u, hist, lo, cur, m) && IsListing(ids, d.Keys)
    ensures Rebuilds(env, Open(env, d, ids, env.initial, true), AllRecords(base), cut, lo, k)
    ensures Keeps(env.codec, base, cut, u)
  {
    hide Stream, EnvOk, ValidLog, Image, HasInitialRecord, Chained, Stored, Lawful, Open, IsListing, ReplayChunks, AllRecords,
    LoadedLog, Offsets, Upto, IsClean, AllSafe, IsRepair, Rebuilds;
    ShelterFacts(env, d, base, u, hist, lo, cur, m);
    cut := Recoverable(hist, lo, cur, m);
    if m > 0 {
      OpenWithRecord(env, hist, lo, cur, m, d, ids, env.initial, true);
    } else if lo < cur {
      OpenWithoutRecord(env, hist, lo, cur, d, ids, env.initial, true);
    } else {
      OpenWithNothing(env, hist, cur, d, ids, env.initial, true);
      ZeroWhenNothing(env, d, base, u, hist, lo, cur);
      NoChunks(env, env.initial);
    }
    EnvBounded(env);
    RecoverableIsPrefix(hist, lo, cur, m);
    RepairPrefix(env, AllRecords(base), AllRecords(hist), AllRecords(cut));
    k := RebuildsFrom(env, Open(env, d, ids, env.initial, true), AllRecords(base), cut, lo);
    SafeIsKept(env.codec, base, u, hist, lo, cur, m, d[hist[cur].id].dur);
  }

  lemma NoChunks<R, S>(env: Env<R, S>, s: S)
    ensures ReplayChunks(env, s, []) == s
  {
  }

  lemma ZeroWhenNothing<R(!new), S(!new)>(
    env: Env<R, S>, d: Disk, base: seq<ChunkLog<R>>, u: nat, hist: seq<ChunkLog<R>>, lo: nat, cur: nat)
    requires Shelters(env, d, base, u, hist, lo, cur, 0) && lo == cur
    ensures cur == 0
  {
  }

  lemma SafeIsKept<R>(
    c: Codec<R>, base: seq<ChunkLog<R>>, u: nat, hist: seq<ChunkLog<R>>, lo: nat, cur: nat, m: nat, dur: nat)
    requires AllSafe(c, base, u, hist, cur, m, dur) && lo <= cur < |hist| && m <= |hist[cur].recs|
    requires m == 0 && lo == cur ==> cur == 0
    ensures Keeps(c, base, Recoverable(hist, lo, cur, m), u)
  {
    hide Stream;
    var cut := Recoverable(hist, lo, cur, m);
    forall i: nat, k: nat | i < |base| && 0 < k <= |base[i].recs| && base[i].id + |Stream(c, base[i].recs[..k])| <= u
      ensures SharesRecords(base, cut, i, k)
    {
      assert IsSafe(c, base, hist, cur, m, dur, i, k);
      if i == cur {
        assert hist[cur].recs[..m][..k] == hist[cur].recs[..k];
      }
    }
  }

  /**
   No power loss during recovery loses an acknowledged record: after a crash
   of any run, and any number of further deaths and power losses inside
   `open`, a completed `open` succeeds. Its log has every record that a sync
   callback was told is safe; apart from checkpoints that `open` itself wrote,
   it is a prefix of what was appended, and the state is that of the prefix.
   */
  lemma AcknowledgedSurviveOpening<R(!new), S(!new)>(
    env: Env<R, S>, run: seq<Sys<R, S>>, i: nat, disks: seq<Disk>, n: nat, ids: seq<nat>)
    returns (cut: seq<ChunkLog<R>>, k: nat)
    requires EnvOk(env) && IsRun(env, run) && i < |run| && n < |disks|
    requires run[i].careful || OldestDurable(env.codec, run[i])
    requires CrashImage(env.codec, run[i], disks[0])
    requires forall j | 0 <= j < n :: Suffers(env, disks[j], disks[j + 1])
    requires IsListing(ids, disks[n].Keys)
    ensures Rebuilds(env, Open(env, disks[n], ids, env.initial, true), AllRecords(run[i].hist), cut, run[i].lo, k)
    ensures forall reply | reply in run[i].replies && reply.ok && reply.sync ::
              Keeps(env.codec, run[i].hist, cut, reply.upto)
  {
    hide Sheltered, EnvOk, Suffers, CrashImage, IsListing, Init, Next, Open, StateAfter, OnDisk, IndexOk, Flows, FilesOk, BatchOk,
    Rebuilds, Keeps;
    var s := run[i];
    EveryStateIsOk(env, run, i);
    EnvBounded(env);
    OnDiskPlaced(env, s);
    CarefulIsDurable(env, s);
    var u := DurableEnd(s);
    CrashShelters(env, s, disks[0], u);
    SuffersShelters(env, disks, n, s.hist, u, s.lo);
    cut, k := OpenKeeps(env, disks[n], ids, s.hist, u, s.lo);
    forall reply | reply in s.replies && reply.ok && reply.sync ensures Keeps(env.codec, s.hist, cut, reply.upto) {
      assert Truthful(env, s, reply);
      KeepsLess(env.codec, s.hist, cut, u, reply.upto);
    }
  }

  lemma KeepsLess<R>(c: Codec<R>, h: seq<ChunkLog<R>>, h': seq<ChunkLog<R>>, u: nat, u': nat)
    requires Keeps(c, h, h', u) && u' <= u
    ensures Keeps(c, h, h', u')
  {
    hide Stream;
  }
}
