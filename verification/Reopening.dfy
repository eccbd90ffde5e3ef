/** Recovery itself may be interrupted, any number of times, and reopening what it left changes nothing. */
module Reopening {
  import opened Bytes
  import opened Codec
  import opened RecordStream
  import opened Log
  import opened Requests
  import opened Backlog
  import opened Recovery
  import opened CrashImages
  import opened RecoveredLog
  import opened System
  import opened Invariant
  import opened MainSteps
  import opened Crashes
  import opened Durability

  // Interruptions

  /** The last file of a listing is an incomplete tail. */
  predicate TailIsIncomplete<R>(c: Codec<R>, disk: Disk, ids: seq<nat>) {
    && ids != [] && ids[|ids| - 1] in disk
    && HasInitialRecord(c, disk[ids[|ids| - 1]].os) == Ok(false)
  }

  /** Loading truncated the tail, or found nothing, so that a new chunk is started. */
  predicate StartsChunk<R, S>(p: Progress<R, S>) {
    p.chunks == [] || p.chunks[|p.chunks| - 1].truncated
  }

  /** The new chunk's file with part of its first record written. */
  ghost predicate HalfCreated<R, S>(env: Env<R, S>, p: Progress<R, S>, b: seq<Byte>, dur: nat, d: Disk) {
    && StartsChunk(p) && NewId(p) !in p.disk
    && b <= Bytes1(env.codec, env.checkpoint(p.sm)) && dur <= |b|
    && d == p.disk[NewId(p) := File(b, dur)]
  }

  /**
   `d` is what an `open` of `disk` leaves when the process dies: before it
   changed anything, after removing some tails, after truncating, or while it
   creates the new chunk and writes its first record.
   */
  ghost predicate Interrupted<R, S>(env: Env<R, S>, disk: Disk, ids: seq<nat>, d: Disk)
    requires Bounded(env.codec)
    decreases |ids|
  {
    || d == disk
    || (TailIsIncomplete(env.codec, disk, ids) && Interrupted(env, disk - {ids[|ids| - 1]}, ids[..|ids| - 1], d))
    || (RemoveTails(env.codec, disk, ids) == Ok((disk, ids)) && DiesLoading(env, disk, ids, d))
  }

  ghost predicate DiesLoading<R, S>(env: Env<R, S>, disk: Disk, ids: seq<nat>, d: Disk)
    requires Bounded(env.codec)
  {
    var res := Load(env, disk, ids, |ids|, env.initial, true);
    res.Ok? && (d == res.value.disk || exists b, dur :: HalfCreated(env, res.value, b, dur, d))
  }

  // What a directory recovers to

  /** The same records, followed at most by checkpoints of the state they build. */
  ghost predicate SameReplay<R, S>(env: Env<R, S>, recs: seq<R>, sm: S, replayed: seq<R>) {
    recs <= replayed && forall i | |recs| <= i < |replayed| :: replayed[i] == env.checkpoint(sm)
  }

  ghost predicate Replays<R, S>(env: Env<R, S>, cut: seq<ChunkLog<R>>, lo: nat, sm: S, recs: seq<R>) {
    if cut == [] then sm == env.initial && recs == []
    else lo < |cut| && StateAfter(env, cut) == sm && SameReplay(env, recs, sm, AllRecords(cut[lo..]))
  }

  ghost predicate Holds<R, S>(
    env: Env<R, S>, disk: Disk, sm: S, recs: seq<R>, hist: seq<ChunkLog<R>>, lo: nat, cur: nat, m: nat)
  {
    && ValidLog(env, hist) && Image(env.codec, hist, lo, cur, m, disk)
    && Replays(env, Recoverable(hist, lo, cur, m), lo, sm, recs)
  }

  /** A directory from which recovery rebuilds state `sm` by replaying `recs`. */
  ghost predicate RecoversTo<R(!new), S>(env: Env<R, S>, disk: Disk, sm: S, recs: seq<R>) {
    || (disk == map[] && sm == env.initial && recs == [])
    || exists hist, lo, cur, m :: Holds(env, disk, sm, recs, hist, lo, cur, m)
  }

  lemma HoldsFacts<R(!new), S(!new)>(
    env: Env<R, S>, disk: Disk, sm: S, recs: seq<R>, hist: seq<ChunkLog<R>>, lo: nat, cur: nat, m: nat)
    requires EnvOk(env) && Holds(env, disk, sm, recs, hist, lo, cur, m)
    ensures Lawful(env.codec) && Chained(env.codec, hist) && ValidLog(env, hist)
    ensures lo <= cur < |hist| && hist[cur].id in disk && m <= |hist[cur].recs|
    ensures Image(env.codec, hist, lo, cur, m, disk) && Stored(env.codec, hist, lo, cur, disk)
    ensures HasInitialRecord(env.codec, disk[hist[cur].id].os) == Ok(m > 0)
    ensures Replays(env, Recoverable(hist, lo, cur, m), lo, sm, recs)
  {
    hide Stream, CheckpointFirst, HasInitialRecord, Replays, Recoverable;
    ImageFacts(env, hist, lo, cur, m, disk);
    InitialRecord(env.codec, hist[cur].recs, m, disk[hist[cur].id].os);
  }

  // Removing a tail

  lemma ListingWithoutLast(ids: seq<nat>, disk: Disk)
    requires IsListing(ids, disk.Keys) && ids != []
    ensures IsListing(ids[..|ids| - 1], (disk - {ids[|ids| - 1]}).Keys)
    ensures forall k | k in disk :: k <= ids[|ids| - 1]
  {
    var last := ids[|ids| - 1];
    forall k | k in disk ensures k <= last && (k == last || k in ids[..|ids| - 1]) {
      var i :| 0 <= i < |ids| && ids[i] == k;
      assert i < |ids| - 1 ==> ids[..|ids| - 1][i] == k;
    }
  }

  lemma ImageWithoutEmpty<R>(c: Codec<R>, hist: seq<ChunkLog<R>>, lo: nat, cur: nat, m: nat, disk: Disk, k: nat)
    requires Image(c, hist, lo, cur, m, disk) && k > hist[cur].id && forall i | lo <= i < cur :: hist[i].id < hist[cur].id
    ensures Image(c, hist, lo, cur, m, disk - {k})
  {
    hide Stream, HoldsPrefix;
    forall i | lo <= i < cur ensures IsWhole(c, hist[i], disk - {k}) {
      assert IsWhole(c, hist[i], disk);
    }
  }

  /** Without an incomplete tail, a directory still recovers to the same state. */
  lemma RemovalRecovers<R(!new), S(!new)>(env: Env<R, S>, disk: Disk, ids: seq<nat>, sm: S, recs: seq<R>)
    requires EnvOk(env) && RecoversTo(env, disk, sm, recs) && IsListing(ids, disk.Keys)
    requires TailIsIncomplete(env.codec, disk, ids)
    ensures RecoversTo(env, disk - {ids[|ids| - 1]}, sm, recs)
  {
    hide Stream, EnvOk, Holds, HasInitialRecord, Chained, Stored, Lawful, Image, ValidLog, Replays;
    var last := ids[|ids| - 1];
    var hist: seq<ChunkLog<R>>, lo: nat, cur: nat, m: nat :| Holds(env, disk, sm, recs, hist, lo, cur, m);
    HoldsFacts(env, disk, sm, recs, hist, lo, cur, m);
    ListingWithoutLast(ids, disk);
    if last > hist[cur].id {
      RemoveEmpty(env, disk, last, sm, recs, hist, lo, cur, m);
    } else {
      RemoveCurrent(env, disk, sm, recs, hist, lo, cur);
    }
  }

  lemma RemoveEmpty<R(!new), S(!new)>(
    env: Env<R, S>, disk: Disk, last: nat, sm: S, recs: seq<R>, hist: seq<ChunkLog<R>>, lo: nat, cur: nat, m: nat)
    requires EnvOk(env) && Holds(env, disk, sm, recs, hist, lo, cur, m) && cur < |hist| && last > hist[cur].id
    ensures RecoversTo(env, disk - {last}, sm, recs)
  {
    hide Stream, EnvOk, ValidLog, Image, HasInitialRecord, Replays, Chained, Stored, Lawful;
    HoldsFacts(env, disk, sm, recs, hist, lo, cur, m);
    IdsOrdered(env.codec, hist);
    ImageWithoutEmpty(env.codec, hist, lo, cur, m, disk, last);
    assert Holds(env, disk - {last}, sm, recs, hist, lo, cur, m);
  }

  lemma RemoveCurrent<R(!new), S(!new)>(
    env: Env<R, S>, disk: Disk, sm: S, recs: seq<R>, hist: seq<ChunkLog<R>>, lo: nat, cur: nat)
    requires EnvOk(env) && Holds(env, disk, sm, recs, hist, lo, cur, 0) && cur < |hist|
    requires forall k | k in disk :: k <= hist[cur].id
    ensures RecoversTo(env, disk - {hist[cur].id}, sm, recs)
  {
    hide Stream, EnvOk, ValidLog, Image, HasInitialRecord, Replays, Chained, Stored, Lawful, Upto;
    var d := disk - {hist[cur].id};
    HoldsFacts(env, disk, sm, recs, hist, lo, cur, 0);
    if lo < cur {
      UptoLast(disk, hist[cur].id);
      DropCurrent(env.codec, hist, lo, cur, disk);
      CutNothing(hist, cur - 1);
      NonEmptyChunk(env, hist, cur - 1);
      assert Holds(env, d, sm, recs, hist, lo, cur - 1, |hist[cur - 1].recs|);
    } else {
      OnlyCurrent(env.codec, hist, cur, disk);
      ReplaysNothing(env, lo, sm, recs);
    }
  }

  lemma ReplaysNothing<R, S>(env: Env<R, S>, lo: nat, sm: S, recs: seq<R>)
    requires Replays(env, [], lo, sm, recs)
    ensures sm == env.initial && recs == []
  {
  }

  lemma NonEmptyChunk<R, S>(env: Env<R, S>, hist: seq<ChunkLog<R>>, i: nat)
    requires ValidLog(env, hist) && i < |hist|
    ensures |hist[i].recs| > 0
  {
  }

  lemma OnlyCurrent<R>(c: Codec<R>, hist: seq<ChunkLog<R>>, cur: nat, disk: Disk)
    requires Stored(c, hist, cur, cur, disk) && forall k | k in disk :: k <= hist[cur].id
    ensures disk - {hist[cur].id} == map[]
  {
    forall k | k in disk ensures k == hist[cur].id {
      assert IsLive(hist, cur, cur, k);
    }
  }

  // Loading

  /** A directory whose last file has a first record lists exactly the live chunks. */
  lemma ExactListing<R(!new), S(!new)>(
    env: Env<R, S>, disk: Disk, ids: seq<nat>, sm: S, recs: seq<R>, hist: seq<ChunkLog<R>>, lo: nat, cur: nat, m: nat)
    requires EnvOk(env) && Holds(env, disk, sm, recs, hist, lo, cur, m) && IsListing(ids, disk.Keys)
    requires RemoveTails(env.codec, disk, ids) == Ok((disk, ids))
    ensures m > 0 && lo <= cur < |hist| && ids == LiveIds(hist, lo, cur) && (forall k | k in disk :: k <= hist[cur].id)
  {
    hide Stream, EnvOk, ValidLog, Image, HasInitialRecord, Replays, Chained, Stored, Lawful, RemoveTails;
    HoldsFacts(env, disk, sm, recs, hist, lo, cur, m);
    RemoveTailsOfImage(env.codec, hist, lo, cur, m, disk, ids);
    if m == 0 {
      if lo < cur {
        DropCurrent(env.codec, hist, lo, cur, disk);
      }
      assert false;
    }
  }

  /** The tail after loading: its whole records and nothing else. */
  lemma TailImage<R(!new), S(!new)>(env: Env<R, S>, hist: seq<ChunkLog<R>>, lo: nat, cur: nat, m: nat, disk: Disk)
    requires EnvOk(env) && ValidLog(env, hist) && Image(env.codec, hist, lo, cur, m, disk) && m <= |hist[cur].recs|
    ensures var id, body := hist[cur].id, hist[cur].recs[..m];
            Image(env.codec, hist, lo, cur, m, disk[id := TailFile(env.codec, body, disk[id])])
  {
    hide Stream, CheckpointFirst;
    var id, body := hist[cur].id, hist[cur].recs[..m];
    StoredCurrent(env.codec, hist, lo, cur, disk, TailFile(env.codec, body, disk[id]));
  }

  lemma CutStored<R(!new), S(!new)>(env: Env<R, S>, hist: seq<ChunkLog<R>>, lo: nat, cur: nat, m: nat, disk: Disk)
    requires EnvOk(env) && ValidLog(env, hist) && Image(env.codec, hist, lo, cur, m, disk) && 0 < m <= |hist[cur].recs|
    requires forall k | k in disk :: k <= hist[cur].id
    ensures var cut, id := Cut(hist, cur, m), hist[cur].id;
            var body := Stream(env.codec, cut[cur].recs);
            var kept := disk[id := File(body, |body|)];
            && ValidLog(env, cut) && Stored(env.codec, cut, lo, cur, kept) && IsWhole(env.codec, cut[cur], kept)
            && (forall k | k in kept :: k <= id)
  {
    hide Stream, CheckpointFirst, HoldsPrefix, ReplayChunks;
    var cut, id := Cut(hist, cur, m), hist[cur].id;
    var body := Stream(env.codec, cut[cur].recs);
    CutValid(env, hist, cur, m);
    StoredCurrent(env.codec, hist, lo, cur, disk, File(body, |body|));
    StoredCut(env.codec, hist, lo, cur, m, disk[id := File(body, |body|)]);
  }

  /** A new chunk whose file holds part of its first record, or all of it. */
  lemma NewChunkHolds<R(!new), S(!new)>(
    env: Env<R, S>, cut: seq<ChunkLog<R>>, lo: nat, disk: Disk, b: seq<Byte>, dur: nat, sm: S, recs: seq<R>)
    requires EnvOk(env) && ValidLog(env, cut) && lo < |cut| && Stored(env.codec, cut, lo, |cut| - 1, disk)
    requires IsWhole(env.codec, cut[|cut| - 1], disk) && (forall k | k in disk :: k <= cut[|cut| - 1].id)
    requires Replays(env, cut, lo, sm, recs) && b <= Bytes1(env.codec, env.checkpoint(sm))
    ensures RecoversTo(env, disk[End(env.codec, cut[|cut| - 1]) := File(b, dur)], sm, recs)
  {
    hide Stream, EnvOk, ReplayChunks, CheckpointFirst, Chained, Stored, IsWhole, AllRecords;
    var c, n := env.codec, |cut|;
    var h := WithChunk(env, cut);
    var d := disk[End(c, cut[n - 1]) := File(b, dur)];
    StoredGrows(env, cut, lo, disk, File(b, dur));
    WithChunkValid(env, cut);
    CheckpointHolds(c, env.checkpoint(sm), b);
    var m := if b == Bytes1(c, env.checkpoint(sm)) then 1 else 0;
    assert h[n].recs == [env.checkpoint(sm)] && h[..n] == cut && h[lo..][..n - lo] == cut[lo..];
    if m == 1 {
      CutNothing(h, n);
      assert h[..n + 1] == h;
      AllRecordsSlice(h, lo, n + 1);
      assert h[lo..n + 1] == h[lo..] && h[lo..n] == cut[lo..];
    }
    assert Holds(env, d, sm, recs, h, lo, n, m);
  }

  lemma CheckpointHolds<R>(c: Codec<R>, ck: R, b: seq<Byte>)
    requires b <= Bytes1(c, ck)
    ensures HoldsPrefix(c, [ck], if b == Bytes1(c, ck) then 1 else 0, b)
  {
    StreamEmpty(c);
    StreamOne(c, ck);
    assert [ck][..0] == [] && [ck][..1] == [ck];
    assert b[0..] == b;
  }

  lemma LoadingRecovers<R(!new), S(!new)>(
    env: Env<R, S>, disk: Disk, ids: seq<nat>, sm: S, recs: seq<R>, d: Disk,
    hist: seq<ChunkLog<R>>, lo: nat, cur: nat, m: nat)
    requires EnvOk(env) && Bounded(env.codec) && Holds(env, disk, sm, recs, hist, lo, cur, m) && IsListing(ids, disk.Keys)
    requires RemoveTails(env.codec, disk, ids) == Ok((disk, ids)) && DiesLoading(env, disk, ids, d)
    ensures RecoversTo(env, d, sm, recs)
  {
    hide Stream, EnvOk, ValidLog, Image, Replays, Chained, Stored, Lawful, RemoveTails, Load, Cut, IsWhole, IsListing,
    HasInitialRecord, StateAfter, AllRecords, Offsets, LoadedLog;
    HoldsFacts(env, disk, sm, recs, hist, lo, cur, m);
    ExactListing(env, disk, ids, sm, recs, hist, lo, cur, m);
    LoadExact(env, hist, lo, cur, m, disk, env.initial, true);
    var p := Load(env, disk, ids, |ids|, env.initial, true).value;
    if d == p.disk {
      TailImage(env, hist, lo, cur, m, disk);
      assert Holds(env, d, sm, recs, hist, lo, cur, m);
    } else {
      var b, dur :| HalfCreated(env, p, b, dur, d);
      CutStored(env, hist, lo, cur, m, disk);
      CutShape(hist, cur, m);
      CutSame(env, hist, lo, cur, m, sm, recs);
      NewChunkHolds(env, Cut(hist, cur, m), lo, p.disk, b, dur, sm, recs);
    }
  }

  lemma CutShape<R>(hist: seq<ChunkLog<R>>, cur: nat, m: nat)
    requires cur < |hist| && m <= |hist[cur].recs|
    ensures |Cut(hist, cur, m)| == cur + 1 && Cut(hist, cur, m)[cur] == ChunkLog(hist[cur].id, hist[cur].recs[..m])
  {
  }

  lemma CutSame<R, S>(env: Env<R, S>, hist: seq<ChunkLog<R>>, lo: nat, cur: nat, m: nat, sm: S, recs: seq<R>)
    requires lo <= cur < |hist| && 0 < m <= |hist[cur].recs| && Replays(env, Recoverable(hist, lo, cur, m), lo, sm, recs)
    ensures var cut := Cut(hist, cur, m); Replays(env, cut, lo, sm, recs) && StateAfter(env, cut) == sm
  {
  }

  lemma EmptyRecovers<R(!new), S(!new)>(env: Env<R, S>, b: seq<Byte>, dur: nat)
    requires EnvOk(env) && b <= Bytes1(env.codec, env.checkpoint(env.initial))
    ensures RecoversTo(env, map[0 := File(b, dur)], env.initial, [])
  {
    hide Stream, EnvOk, ReplayChunks, CheckpointFirst, Chained, AllRecords;
    var ck := env.checkpoint(env.initial);
    var h, d := [ChunkLog(0, [ck])], map[0 := File(b, dur)];
    FreshValid(env);
    CheckpointHolds(env.codec, ck, b);
    var m := if b == Bytes1(env.codec, ck) then 1 else 0;
    assert IsLive(h, 0, 0, 0) by {
      assert h[0].id == 0;
    }
    if m == 1 {
      CutNothing(h, 0);
      assert h[..1] == h && h[0..] == h && h[0..0] == [];
      AllRecordsSlice(h, 0, 1);
      NoRecords<R>();
      assert h[0..1] == h;
    }
    assert Holds(env, d, env.initial, [], h, 0, 0, m);
  }

  lemma LoadingNothing<R(!new), S(!new)>(env: Env<R, S>, ids: seq<nat>, d: Disk)
    requires EnvOk(env) && Bounded(env.codec) && IsListing(ids, {}) && DiesLoading(env, map[], ids, d)
    ensures RecoversTo(env, d, env.initial, [])
  {
    hide EnvOk, RecoversTo;
    assert ids == [];
    var p := Load(env, map[], ids, |ids|, env.initial, true).value;
    if d != p.disk {
      var b, dur :| HalfCreated(env, p, b, dur, d);
      EmptyRecovers(env, b, dur);
    } else {
      NothingRecovers(env);
    }
  }

  lemma NothingRecovers<R(!new), S>(env: Env<R, S>)
    ensures RecoversTo(env, map[], env.initial, [])
  {
  }

  // The theorems

  /** An interrupted `open` leaves a directory that recovers to the same state, with the same records. */
  lemma {:induction false} InterruptedRecovers<R(!new), S(!new)>(
    env: Env<R, S>, disk: Disk, ids: seq<nat>, sm: S, recs: seq<R>, d: Disk)
    requires EnvOk(env) && Bounded(env.codec) && RecoversTo(env, disk, sm, recs) && IsListing(ids, disk.Keys)
    requires Interrupted(env, disk, ids, d)
    ensures RecoversTo(env, d, sm, recs)
    decreases |ids|
  {
    hide EnvOk, Holds, DiesLoading, RemoveTails, HasInitialRecord;
    if d == disk {
    } else if TailIsIncomplete(env.codec, disk, ids)
              && Interrupted(env, disk - {ids[|ids| - 1]}, ids[..|ids| - 1], d) {
      RemovalRecovers(env, disk, ids, sm, recs);
      ListingWithoutLast(ids, disk);
      InterruptedRecovers(env, disk - {ids[|ids| - 1]}, ids[..|ids| - 1], sm, recs, d);
    } else if disk == map[] && sm == env.initial && recs == [] {
      LoadingNothing(env, ids, d);
    } else {
      var hist: seq<ChunkLog<R>>, lo: nat, cur: nat, m: nat :| Holds(env, disk, sm, recs, hist, lo, cur, m);
      LoadingRecovers(env, disk, ids, sm, recs, d, hist, lo, cur, m);
    }
  }

  ghost predicate InterruptedOnce<R, S>(env: Env<R, S>, disk: Disk, d: Disk) {
    Bounded(env.codec) && exists ids :: IsListing(ids, disk.Keys) && Interrupted(env, disk, ids, d)
  }

  /** However often recovery is interrupted, the directory recovers to the same state. */
  lemma {:induction false} InterruptedAnyTimes<R(!new), S(!new)>(env: Env<R, S>, disks: seq<Disk>, n: nat, sm: S, recs: seq<R>)
    requires EnvOk(env) && n < |disks| && RecoversTo(env, disks[0], sm, recs)
    requires forall i | 0 <= i < n :: InterruptedOnce(env, disks[i], disks[i + 1])
    ensures RecoversTo(env, disks[n], sm, recs)
  {
    hide RecoversTo, Interrupted, EnvOk;
    if n > 0 {
      InterruptedAnyTimes(env, disks, n - 1, sm, recs);
      assert InterruptedOnce(env, disks[n - 1], disks[n]);
      var ids :| IsListing(ids, disks[n - 1].Keys) && Interrupted(env, disks[n - 1], ids, disks[n]);
      InterruptedRecovers(env, disks[n - 1], ids, sm, recs, disks[n]);
    }
  }

  /** Opening a directory gives the state it recovers to. */
  lemma OpenRecovers<R(!new), S(!new)>(env: Env<R, S>, disk: Disk, ids: seq<nat>, sm: S, recs: seq<R>)
    requires EnvOk(env) && RecoversTo(env, disk, sm, recs) && IsListing(ids, disk.Keys)
    ensures var res := Open(env, disk, ids, env.initial, true);
            res.Ok? && res.value.sm == sm && SameReplay(env, recs, sm, res.value.replayed)
  {
    hide EnvOk, Holds, Open;
    if disk == map[] && sm == env.initial && recs == [] {
      OpenNothing(env, ids);
    } else {
      var hist: seq<ChunkLog<R>>, lo: nat, cur: nat, m: nat :| Holds(env, disk, sm, recs, hist, lo, cur, m);
      OpenHolds(env, disk, ids, sm, recs, hist, lo, cur, m);
    }
  }

  lemma ListedIsKey(ids: seq<nat>, keys: set<nat>)
    requires IsListing(ids, keys)
    ensures ids == [] || keys != {}
  {
    assert ids != [] ==> ids[0] in keys;
  }

  lemma EnvBounded<R(!new), S(!new)>(env: Env<R, S>)
    requires EnvOk(env)
    ensures Bounded(env.codec)
  {
  }

  lemma OpenNothing<R(!new), S(!new)>(env: Env<R, S>, ids: seq<nat>)
    requires EnvOk(env) && IsListing(ids, {})
    ensures var bytes := Bytes1(env.codec, env.checkpoint(env.initial));
            var r := Recovered(map[0 := File(bytes, 0)], [], [0, |bytes|], env.initial, []);
            Open(env, map[], ids, env.initial, true) == Ok(r)
  {
    ListedIsKey(ids, {});
    assert Encodable(env.codec, env.checkpoint(env.initial)) && SizeIsHonest(env.codec, env.checkpoint(env.initial));
  }

  lemma OpenHolds<R(!new), S(!new)>(
    env: Env<R, S>, disk: Disk, ids: seq<nat>, sm: S, recs: seq<R>, hist: seq<ChunkLog<R>>, lo: nat, cur: nat, m: nat)
    requires EnvOk(env) && Holds(env, disk, sm, recs, hist, lo, cur, m) && IsListing(ids, disk.Keys)
    ensures var res := Open(env, disk, ids, env.initial, true);
            res.Ok? && res.value.sm == sm && SameReplay(env, recs, sm, res.value.replayed)
  {
    hide Stream, EnvOk, ValidLog, Image, HasInitialRecord, Chained, Stored, Lawful, Open, IsListing, StateAfter, AllRecords,
    LoadedLog, Offsets, Upto, IsClean;
    HoldsFacts(env, disk, sm, recs, hist, lo, cur, m);
    if m > 0 {
      OpenWithRecord(env, hist, lo, cur, m, disk, ids, env.initial, true);
    } else if lo < cur {
      OpenWithoutRecord(env, hist, lo, cur, disk, ids, env.initial, true);
    } else {
      OpenWithNothing(env, hist, cur, disk, ids, env.initial, true);
    }
  }

  /**
   Recovery is restartable: after a crash at any point of any run, and any
   number of further crashes inside `open`, a completed `open` succeeds and
   gives the state and the records that the first one would have given.
   */
  lemma RecoveryIsRestartable<R(!new), S(!new)>(
    env: Env<R, S>, run: seq<Sys<R, S>>, i: nat, disks: seq<Disk>, n: nat, ids0: seq<nat>, ids: seq<nat>)
    requires EnvOk(env) && IsRun(env, run) && i < |run| && n < |disks|
    requires CrashImage(env.codec, run[i], disks[0])
    requires forall j | 0 <= j < n :: InterruptedOnce(env, disks[j], disks[j + 1])
    requires IsListing(ids0, disks[0].Keys) && IsListing(ids, disks[n].Keys)
    ensures var first := Open(env, disks[0], ids0, env.initial, true);
            var last := Open(env, disks[n], ids, env.initial, true);
            && first.Ok? && last.Ok? && last.value.sm == first.value.sm
            && SameReplay(env, first.value.replayed, first.value.sm, last.value.replayed)
  {
    hide RecoversTo, EnvOk, InterruptedOnce, CrashImage, IsListing, Init, Next, Open;
    EnvBounded(env);
    CrashRecovers(env, run, i, disks[0], ids0);
    var r := Open(env, disks[0], ids0, env.initial, true).value;
    InterruptedAnyTimes(env, disks, n, r.sm, r.replayed);
    OpenRecovers(env, disks[n], ids, r.sm, r.replayed);
  }

  /** Every crash of every run leaves a directory that recovers to what `open` returns for it. */
  lemma CrashRecovers<R(!new), S(!new)>(env: Env<R, S>, run: seq<Sys<R, S>>, i: nat, image: Disk, ids: seq<nat>)
    requires EnvOk(env) && IsRun(env, run) && i < |run|
    requires CrashImage(env.codec, run[i], image) && IsListing(ids, image.Keys)
    ensures var res := Open(env, image, ids, env.initial, true);
            res.Ok? && RecoversTo(env, image, res.value.sm, res.value.replayed)
  {
    hide Init, Next, OnDisk, CrashImage, IndexOk, Flows, FilesOk, BatchOk, RepliesOk, CoversDurable, Open, IsListing, Stored,
    HoldsPrefix, Stream, AllRecords, StateAfter, Image, ValidLog, Recoverable, EnvOk;
    var s := run[i];
    EveryStateIsOk(env, run, i);
    OnDiskValid(env, s);
    EnvBounded(env);
    var m := CrashLeavesImage(env, s, image);
    CrashedFrom(env, s, image, m);
    ImageFacts(env, s.hist, s.lo, s.cur, m, image);
    OpenCrashed(env, s, image, ids, m, env.initial);
    var r := Open(env, image, ids, env.initial, true).value;
    assert Holds(env, image, r.sm, r.replayed, s.hist, s.lo, s.cur, m);
  }

  // Reopening what is complete

  /** Nothing is pending, queued or in the worker's hands. */
  ghost predicate AtRest<R, S>(s: Sys<R, S>) {
    && s.worker.status == Running && s.worker.phase == Idle && s.queue == []
    && s.main.pending == [] && s.sending == None
  }

  /** A closed chunk that was reloaded as it was. */
  ghost predicate Unchanged<R>(closed: ClosedChunk<R>, loaded: LoadedChunk<R>) {
    closed == ClosedChunk(loaded.offsets, loaded.state) && !loaded.truncated
  }

  lemma AtRestIsWhole<R(!new), S(!new)>(env: Env<R, S>, s: Sys<R, S>)
    requires Inv(env, s) && AtRest(s)
    ensures s.cur == |s.hist| - 1 && s.lo == s.purged <= s.drained && Placed(s)
    ensures CurFile(s).os == Stream(env.codec, s.hist[s.cur].recs)
    ensures forall k | k in s.disk :: k <= s.hist[s.cur].id
    ensures Image(env.codec, s.hist, s.lo, s.cur, |s.hist[s.cur].recs|, s.disk)
  {
    hide Stream, ReplayChunks, CheckpointFirst, FirstIsDurable, RepliesOk, BatchOk, ClosedOk, Offsets, HoldsPrefix;
    assert Todo(s) == [];
    assert CurFile(s).os + [] == CurFile(s).os;
    WholeHoldsAll(env.codec, s.hist[s.cur]);
  }

  /** The closed chunks that recovery keeps are those of the index it replaces. */
  lemma SameClosed<R(!new), S(!new)>(env: Env<R, S>, s: Sys<R, S>, j: nat)
    requires IndexOk(env, s) && ValidLog(env, s.hist) && s.lo <= s.drained && j < |s.main.closed|
    ensures s.lo < |s.hist| && |LoadedLog(env, s.hist, s.lo, |s.hist| - 1)| == |s.hist| - 1 - s.lo
    ensures var cc := LoadedLog(env, s.hist, s.lo, |s.hist| - 1)[s.drained - s.lo + j];
            s.main.closed[j] == ClosedChunk(cc.offsets, cc.state)
  {
    hide Stream, ReplayChunks, CheckpointFirst, Chained, Offsets, LoadedLog;
    LoadedClosed(env, s.hist, s.lo, |s.hist| - 1, s.drained - s.lo + j);
    assert ClosedOk(env, s.hist, s.drained + j, s.main.closed[j]);
  }

  lemma ReopenWhole<R(!new), S(!new)>(
    env: Env<R, S>, hist: seq<ChunkLog<R>>, lo: nat, disk: Disk, ids: seq<nat>, truncate: bool)
    requires EnvOk(env) && ValidLog(env, hist) && lo < |hist| && IsListing(ids, disk.Keys)
    requires var n := |hist| - 1;
             && Image(env.codec, hist, lo, n, |hist[n].recs|, disk)
             && disk[hist[n].id].os == Stream(env.codec, hist[n].recs) && (forall k | k in disk :: k <= hist[n].id)
    ensures Open(env, disk, ids, env.initial, truncate) == Ok(Reopened(env, hist, lo, disk))
  {
    hide EnvOk, ValidLog, Stored, HoldsPrefix, Stream, Open, Reopened, Restarted, IsListing;
    var n := |hist| - 1;
    NonEmptyChunk(env, hist, n);
    ImageFacts(env, hist, lo, n, |hist[n].recs|, disk);
    OpenWithRecord(env, hist, lo, n, |hist[n].recs|, disk, ids, env.initial, truncate);
    CutNothing(hist, n);
    assert hist[..n + 1] == hist;
    UptoLast(disk, hist[n].id);
  }

  /**
   A complete directory, such as one that recovery has just repaired, is
   reopened without truncating, removing or creating anything, whether or not
   truncation is allowed, and gives back the same index and state.
   */
  lemma ReopenChangesNothing<R(!new), S(!new)>(
    env: Env<R, S>, run: seq<Sys<R, S>>, i: nat, ids: seq<nat>, truncate: bool)
    requires EnvOk(env) && IsRun(env, run) && i < |run| && AtRest(run[i]) && IsListing(ids, run[i].disk.Keys)
    ensures var s := run[i];
            var res := Open(env, s.disk, ids, env.initial, truncate);
            && res.Ok? && res.value.disk == s.disk && res.value.sm == s.sm && res.value.open == s.main.offsets
            && s.lo <= s.drained <= |s.hist| && |res.value.closed| == s.drained - s.lo + |s.main.closed|
            && (forall j: nat | j < |s.main.closed| :: Unchanged(s.main.closed[j], res.value.closed[s.drained - s.lo + j]))
  {
    hide EnvOk, Init, Next, Stored, Image, CheckpointFirst, Chained, Flows, FilesOk, BatchOk, RepliesOk, ClosedOk,
    Stream, Open, StateAfter, Offsets, LoadedLog, AllRecords, IsListing, FirstIsDurable;
    var s := run[i];
    EveryStateIsOk(env, run, i);
    AtRestIsWhole(env, s);
    var n := |s.hist| - 1;
    EnvBounded(env);
    ReopenWhole(env, s.hist, s.lo, s.disk, ids, truncate);
    LoadedLength(env, s.hist, s.lo, n);
    forall j: nat | j < |s.main.closed|
      ensures Unchanged(s.main.closed[j], LoadedLog(env, s.hist, s.lo, n)[s.drained - s.lo + j])
    {
      SameClosed(env, s, j);
      LoadedUntouched(env, s.hist, s.lo, n, s.drained - s.lo + j);
    }
  }

  lemma {:induction false} LoadedUntouched<R, S>(env: Env<R, S>, h: seq<ChunkLog<R>>, lo: nat, hi: nat, j: nat)
    requires lo <= hi <= |h| && j < |LoadedLog(env, h, lo, hi)|
    ensures !LoadedLog(env, h, lo, hi)[j].truncated
    decreases hi
  {
    if lo < hi && j < |LoadedLog(env, h, lo, hi - 1)| {
      LoadedUntouched(env, h, lo, hi - 1, j);
    }
  }
}
