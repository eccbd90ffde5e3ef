/** When removing old chunks is safe against power loss. */
module Purging {
  import opened Bytes
  import opened Codec
  import opened RecordStream
  import opened Log
  import opened Requests
  import opened Backlog
  import opened Recovery
  import opened CrashImages
  import opened RecoveredLog
  import opened System
  import opened Invariant
  import opened MainSteps
  import opened Crashes

  /** The files of a log from which any prefix of chunks was unlinked, with no regard to what is durable. */
  ghost predicate Purged<R(!new), S(!new)>(env: Env<R, S>, s: Sys<R, S>) {
    && EnvOk(env) && ValidLog(env, s.hist)
    && Stored(env.codec, s.hist, s.lo, s.cur, s.disk)
    && CurFile(s).os <= Stream(env.codec, s.hist[s.cur].recs) && CurFile(s).dur <= |CurFile(s).os|
  }

  /** Every power loss leaves something to replay. */
  ghost predicate NeverEmptied<R(!new), S(!new)>(env: Env<R, S>, s: Sys<R, S>) {
    forall image, ids | CrashImage(env.codec, s, image) && IsListing(ids, image.Keys) :: Replayable(env, image, ids)
  }

  ghost predicate Replayable<R, S>(env: Env<R, S>, image: Disk, ids: seq<nat>) {
    Bounded(env.codec) &&
    var res := Open(env, image, ids, env.initial, true);
    res.Ok? && res.value.replayed != []
  }

  ghost predicate OldestIsDurable<R(!new), S(!new)>(env: Env<R, S>, s: Sys<R, S>)
    requires Purged(env, s)
  {
    FirstIsDurable(env.codec, s.hist, s.cur, CurFile(s).dur, s.lo)
  }

  /** Any finite set of ids can be listed. */
  lemma {:induction false} ListingExists(keys: set<nat>) returns (ids: seq<nat>)
    ensures IsListing(ids, keys)
    decreases |keys|
  {
    if keys == {} {
      ids := [];
    } else {
      var last := Largest(keys);
      ids := ListingExists(keys - {last});
      ListingAppend(ids, keys, last);
      ids := ids + [last];
    }
  }

  lemma ListingAppend(ids: seq<nat>, keys: set<nat>, last: nat)
    requires last in keys && IsListing(ids, keys - {last}) && forall k | k in keys :: k <= last
    ensures IsListing(ids + [last], keys)
  {
    var all := ids + [last];
    forall i, j | 0 <= i < j < |all| ensures all[i] < all[j] {
      assert all[i] == ids[i] && ids[i] in keys - {last};
    }
    forall k | k in keys ensures k in all {
      assert k == last || k in ids;
    }
  }

  lemma {:induction false} Largest(keys: set<nat>) returns (last: nat)
    requires keys != {}
    ensures last in keys && forall k | k in keys :: k <= last
    decreases |keys|
  {
    var some :| some in keys;
    last := some;
    var others := keys - {some};
    assert forall k | k in keys :: k == some || k in others;
    if others != {} {
      var other := Largest(others);
      last := if other > some then other else some;
    }
  }

  // Safe

  lemma CutReplaysSomething<R(!new), S(!new)>(env: Env<R, S>, cut: seq<ChunkLog<R>>, lo: nat)
    requires ValidLog(env, cut) && lo < |cut|
    ensures AllRecords(cut[lo..]) != []
  {
    hide ReplayChunks, Stream;
    AllRecordsSlice(cut, lo, |cut|);
    assert cut[lo..|cut|] == cut[lo..];
  }

  /** Records survive whenever a whole one, or an older chunk, does. */
  lemma ImageReplays<R(!new), S(!new)>(
    env: Env<R, S>, hist: seq<ChunkLog<R>>, lo: nat, cur: nat, m: nat, image: Disk, ids: seq<nat>)
    requires EnvOk(env) && ValidLog(env, hist) && Image(env.codec, hist, lo, cur, m, image) && IsListing(ids, image.Keys)
    ensures Replayable(env, image, ids) <==> m > 0 || lo < cur
  {
    hide Open, Stream, Stored, HoldsPrefix, ReplayChunks, AllRecords, LoadedLog, Offsets, IsListing, IsClean, ValidLog, Cut;
    ImageFacts(env, hist, lo, cur, m, image);
    if m > 0 {
      OpenWithRecord(env, hist, lo, cur, m, image, ids, env.initial, true);
      CutValid(env, hist, cur, m);
      CutLength(hist, cur, m);
      CutReplaysSomething(env, Cut(hist, cur, m), lo);
    } else if lo < cur {
      OpenWithoutRecord(env, hist, lo, cur, image, ids, env.initial, true);
      PrefixValid(env, hist, cur);
      CutReplaysSomething(env, hist[..cur], lo);
    } else {
      OpenWithNothing(env, hist, cur, image, ids, env.initial, true);
    }
  }

  lemma CutLength<R>(hist: seq<ChunkLog<R>>, cur: nat, m: nat)
    requires cur < |hist| && m <= |hist[cur].recs|
    ensures |Cut(hist, cur, m)| == cur + 1
  {
  }

  lemma AsOnDisk<R(!new), S(!new)>(env: Env<R, S>, s: Sys<R, S>) returns (t: Sys<R, S>)
    requires Purged(env, s) && OldestIsDurable(env, s)
    ensures t == s.(sm := StateAfter(env, s.hist)) && OnDisk(env, t)
  {
    t := s.(sm := StateAfter(env, s.hist));
  }

  lemma SafeWhenDurable<R(!new), S(!new)>(env: Env<R, S>, s: Sys<R, S>, image: Disk, ids: seq<nat>)
    requires Purged(env, s) && OldestIsDurable(env, s)
    requires CrashImage(env.codec, s, image) && IsListing(ids, image.Keys)
    ensures Replayable(env, image, ids)
  {
    hide Stream, Stored, StateAfter, CheckpointFirst, Chained, IsListing, Image, Replayable;
    var t := AsOnDisk(env, s);
    assert CrashImage(env.codec, t, image);
    var m := CrashLeavesImage(env, t, image);
    ImageReplays(env, s.hist, s.lo, s.cur, m, image, ids);
    if s.lo == s.cur && m == 0 {
      assert s.hist[s.cur].recs[..1] == [s.hist[s.cur].recs[0]];
      StreamOne(env.codec, s.hist[s.cur].recs[0]);
      assert false;
    }
  }

  // Unsafe

  /** What a power loss leaves of a file of which nothing but the durable part survives. */
  function CutBack(disk: Disk, id: nat): Disk
    requires id in disk && disk[id].dur <= |disk[id].os|
  {
    disk[id := File(disk[id].os[..disk[id].dur], disk[id].dur)]
  }

  lemma CutBackSurvives<R>(c: Codec<R>, recs: seq<R>, f: File)
    requires f.dur <= |f.os|
    ensures Survives(c, recs, f, f, |f.os|) && Survives(c, recs, f, File(f.os[..f.dur], f.dur), f.dur)
  {
  }

  lemma FileIsSane<R(!new), S(!new)>(env: Env<R, S>, s: Sys<R, S>, k: nat)
    requires Purged(env, s) && k in s.disk
    ensures s.disk[k].dur <= |s.disk[k].os|
  {
    hide Stream, ReplayChunks, CheckpointFirst, Chained;
    if k <= s.hist[s.cur].id {
      assert IsLive(s.hist, s.lo, s.cur, k);
      var i :| s.lo <= i <= s.cur && s.hist[i].id == k;
      assert i < s.cur ==> IsWhole(env.codec, s.hist[i], s.disk);
    }
  }

  lemma CutBackIsImage<R(!new), S(!new)>(env: Env<R, S>, s: Sys<R, S>)
    requires Purged(env, s)
    ensures CrashImage(env.codec, s, CutBack(s.disk, s.hist[s.cur].id))
  {
    hide Stream, ReplayChunks, Stored, ValidLog, Survives;
    StoredIndex(env.codec, s.hist, s.lo, s.cur, s.disk);
    var id := s.hist[s.cur].id;
    var image := CutBack(s.disk, id);
    forall i | 0 <= i < |s.hist| && s.hist[i].id in s.disk
      ensures exists p: nat :: Survives(env.codec, s.hist[i].recs, s.disk[s.hist[i].id], image[s.hist[i].id], p)
    {
      var f := s.disk[s.hist[i].id];
      FileIsSane(env, s, s.hist[i].id);
      CutBackSurvives(env.codec, s.hist[i].recs, f);
      assert Survives(env.codec, s.hist[i].recs, f, image[s.hist[i].id], if s.hist[i].id == id then f.dur else |f.os|);
    }
  }

  function Zeros(n: nat): (s: seq<Byte>)
    ensures |s| == n && AllZero(s)
  {
    seq(n, _ => 0)
  }

  /**
   The crashes that are considered: the file being written may lose any part
   of what is not durable, and from a record boundary on its bytes may have
   become zeros.
   */
  lemma LossIsImage<R(!new), S(!new)>(env: Env<R, S>, s: Sys<R, S>, p: nat, z: nat, k: nat) returns (image: Disk)
    requires Purged(env, s) && Placed(s) && CurFile(s).dur <= p && p + z <= |CurFile(s).os|
    requires z > 0 ==> k <= |s.hist[s.cur].recs| && p == |Stream(env.codec, s.hist[s.cur].recs[..k])|
    ensures image == s.disk[s.hist[s.cur].id := File(CurFile(s).os[..p] + Zeros(z), CurFile(s).dur)]
    ensures CrashImage(env.codec, s, image)
  {
    hide Stream, ReplayChunks, Stored, ValidLog, Survives;
    var id, f := s.hist[s.cur].id, CurFile(s);
    var f' := File(f.os[..p] + Zeros(z), f.dur);
    image := s.disk[id := f'];
    LossSurvives(env.codec, s.hist[s.cur].recs, f, p, z, k);
    forall i | 0 <= i < |s.hist| && s.hist[i].id in s.disk
      ensures exists q: nat :: Survives(env.codec, s.hist[i].recs, s.disk[s.hist[i].id], image[s.hist[i].id], q)
    {
      var g := s.disk[s.hist[i].id];
      FileIsSane(env, s, s.hist[i].id);
      if s.hist[i].id == id {
        SameChunk(env, s, i);
        assert Survives(env.codec, s.hist[i].recs, g, image[id], p);
      } else {
        CutBackSurvives(env.codec, s.hist[i].recs, g);
        assert Survives(env.codec, s.hist[i].recs, g, image[s.hist[i].id], |g.os|);
      }
    }
    if f == EMPTY_FILE {
      assert f' == EMPTY_FILE;
    }
  }

  lemma SameChunk<R(!new), S(!new)>(env: Env<R, S>, s: Sys<R, S>, i: nat)
    requires Purged(env, s) && i < |s.hist| && s.cur < |s.hist| && s.hist[i].id == s.hist[s.cur].id
    ensures i == s.cur
  {
    hide Stream, ReplayChunks, Stored, CheckpointFirst;
    IdsOrdered(env.codec, s.hist);
  }

  lemma LossSurvives<R>(c: Codec<R>, recs: seq<R>, f: File, p: nat, z: nat, k: nat)
    requires f.dur <= p && p + z <= |f.os|
    requires z > 0 ==> k <= |recs| && p == |Stream(c, recs[..k])|
    ensures Survives(c, recs, f, File(f.os[..p] + Zeros(z), f.dur), p)
  {
    hide Stream;
    var os := f.os[..p] + Zeros(z);
    assert os[p..] == Zeros(z) && os[..p] == f.os[..p];
  }

  lemma CutBackHoldsNothing<R(!new), S(!new)>(env: Env<R, S>, s: Sys<R, S>)
    requires Purged(env, s) && s.lo == s.cur && CurFile(s).dur < |Bytes1(env.codec, s.hist[s.cur].recs[0])|
    ensures Image(env.codec, s.hist, s.lo, s.cur, 0, CutBack(s.disk, s.hist[s.cur].id))
  {
    hide ReplayChunks, CheckpointFirst, Stored, Stream;
    StoredIndex(env.codec, s.hist, s.lo, s.cur, s.disk);
    var c, recs, f := env.codec, s.hist[s.cur].recs, CurFile(s);
    StoredCurrent(c, s.hist, s.lo, s.cur, s.disk, File(f.os[..f.dur], f.dur));
    assert recs[..0] == [];
    StreamEmpty(c);
    StreamHead(c, recs);
    var b := f.os[..f.dur];
    assert b == Bytes1(c, recs[0])[..f.dur];
    assert b[0..] == b;
  }

  /** A purge that ran ahead of the sync: one power loss, and nothing of the log is left. */
  lemma UnsafeWhenNot<R(!new), S(!new)>(env: Env<R, S>, s: Sys<R, S>) returns (image: Disk, ids: seq<nat>)
    requires Purged(env, s) && !OldestIsDurable(env, s)
    ensures CrashImage(env.codec, s, image) && IsListing(ids, image.Keys) && !Replayable(env, image, ids)
  {
    hide Stream, Stored, ReplayChunks, CheckpointFirst, IsListing, CrashImage, Replayable, Image;
    StoredIndex(env.codec, s.hist, s.lo, s.cur, s.disk);
    image := CutBack(s.disk, s.hist[s.cur].id);
    ids := ListingExists(image.Keys);
    CutBackIsImage(env, s);
    CutBackHoldsNothing(env, s);
    ImageReplays(env, s.hist, s.lo, s.cur, 0, image, ids);
  }

  /**
   A purge is safe against power loss if and only if the first record of the
   oldest chunk it leaves is durable. The worker unlinks without checking, so
   this is what a caller must wait for before it asks for a removal.
   */
  lemma PurgeIsSafeIff<R(!new), S(!new)>(env: Env<R, S>, s: Sys<R, S>)
    requires Purged(env, s)
    ensures NeverEmptied(env, s) <==> OldestIsDurable(env, s)
  {
    hide Purged, CrashImage, IsListing, Replayable, OldestIsDurable;
    if OldestIsDurable(env, s) {
      forall image, ids | CrashImage(env.codec, s, image) && IsListing(ids, image.Keys) ensures Replayable(env, image, ids) {
        SafeWhenDurable(env, s, image, ids);
      }
    } else {
      var image, ids := UnsafeWhenNot(env, s);
    }
  }
}
