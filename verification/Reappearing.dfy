/**
 Unlinks that a power loss undoes. The worker syncs the directory once, after
 the last unlink of a removal; before that any of the removed files may come
 back, an older one without a newer one.
 */
module Reappearing {
  import opened Codec
  import opened RecordStream
  import opened Log
  import opened Requests
  import opened Recovery
  import opened CrashImages
  import opened RecoveredLog
  import opened Opening
  import opened Damage
  import opened Orphans
  import opened System
  import opened Invariant
  import opened MainSteps
  import opened Crashes
  import opened Durability
  import opened Reopening

  /** The files of the chunks in `back` are in the directory again, as they were when they were removed. */
  ghost predicate ComesBack<R>(c: Codec<R>, hist: seq<ChunkLog<R>>, back: set<nat>, disk: Disk, disk': Disk)
  {
    && (forall k | k in disk :: k in disk' && disk'[k] == disk[k])
    && (forall i | i in back :: i < |hist| && IsWhole(c, hist[i], disk'))
    && (forall k | k in disk' :: k in disk || Returned(hist, back, k))
  }

  ghost predicate Returned<R>(hist: seq<ChunkLog<R>>, back: set<nat>, k: nat)
  {
    exists i | i in back :: i < |hist| && hist[i].id == k
  }

  /** No chunk is missing between one that came back and chunk `lo`. */
  predicate IsSuffix(back: set<nat>, lo: nat) {
    forall i, k | i in back && i < k < lo :: k in back
  }

  /** What came back is older than everything that was there. */
  lemma ReturnedIsOld<R(!new)>(c: Codec<R>, hist: seq<ChunkLog<R>>, lo: nat, cur: nat, back: set<nat>, k: nat) returns (i: nat)
    requires Lawful(c) && Chained(c, hist) && lo <= cur < |hist|
    requires (forall i | i in back :: i < lo) && Returned(hist, back, k)
    ensures i in back && hist[i].id == k < hist[lo].id <= hist[cur].id
  {
    hide Chained, Lawful;
    IdsOrdered(c, hist);
    i :| i in back && i < |hist| && hist[i].id == k;
  }

  // A suffix is a log with fewer chunks removed

  /** The oldest chunk there is. */
  function Oldest(back: set<nat>, lo: nat): (j: nat)
    requires forall i | i in back :: i < lo
    ensures j <= lo && (forall i | i in back :: j <= i) && (j < lo ==> j in back)
  {
    OldestFrom(back, lo, 0)
  }

  function OldestFrom(back: set<nat>, lo: nat, from: nat): (j: nat)
    requires from <= lo && forall i | i in back :: from <= i < lo
    ensures j <= lo && (forall i | i in back :: j <= i) && (j < lo ==> j in back)
    decreases lo - from
  {
    if from == lo || from in back then from else OldestFrom(back, lo, from + 1)
  }

  lemma SuffixIsImage<R(!new), S(!new)>(
    env: Env<R, S>, hist: seq<ChunkLog<R>>, lo: nat, cur: nat, m: nat, disk: Disk, back: set<nat>, disk': Disk)
    requires EnvOk(env) && ValidLog(env, hist) && Image(env.codec, hist, lo, cur, m, disk) && lo <= cur < |hist|
    requires (forall i | i in back :: i < lo) && ComesBack(env.codec, hist, back, disk, disk') && IsSuffix(back, lo)
    ensures Image(env.codec, hist, Oldest(back, lo), cur, m, disk')
  {
    hide Stream, ReplayChunks, CheckpointFirst, HoldsPrefix, Returned, Lawful, Chained;
    var c, j := env.codec, Oldest(back, lo);
    forall i | j <= i < cur ensures IsWhole(c, hist[i], disk') {
      assert i >= lo ==> IsWhole(c, hist[i], disk);
    }
    forall k | k in disk' && k !in disk ensures k < hist[cur].id && IsLive(hist, j, cur, k) {
      var i := ReturnedIsOld(c, hist, lo, cur, back, k);
      assert IsLive(hist, j, cur, hist[i].id);
    }
    forall k | k in disk && k <= hist[cur].id ensures IsLive(hist, j, cur, k) {
      assert IsLive(hist, lo, cur, k);
    }
  }

  // A gap is seen

  /** The first chunk missing after the oldest that came back. */
  function FirstMissing(back: set<nat>, lo: nat, from: nat): (k: nat)
    requires from <= lo
    ensures from <= k <= lo && (forall i | from <= i < k :: i in back) && (k < lo ==> k !in back)
    decreases lo - from
  {
    if from == lo || from !in back then from else FirstMissing(back, lo, from + 1)
  }

  /** A file is not that of chunk `k`, and if it is not beyond the gap it is before it. */
  lemma BesideGap<R(!new)>(
    c: Codec<R>, hist: seq<ChunkLog<R>>, lo: nat, cur: nat, back: set<nat>, disk: Disk, disk': Disk, j: nat, k: nat, key: nat)
    requires Lawful(c) && Chained(c, hist) && Stored(c, hist, lo, cur, disk) && key in disk'
    requires (forall i | i in back :: j <= i < lo) && ComesBack(c, hist, back, disk, disk') && j < k < lo && k !in back
    ensures key != hist[k].id && (key <= hist[k - 1].id ==> key in LiveIds(hist, j, k - 1))
  {
    hide Stream, Lawful, Chained, ComesBack, Stored;
    StoredBounds(c, hist, lo, cur, disk);
    IdsOrdered(c, hist);
    var i := WhichChunk(c, hist, lo, cur, back, disk, disk', key);
    if i < k {
      assert LiveIds(hist, j, k - 1)[i - j] == key;
    }
  }

  /** A listing starts with the keys below a gap, and then skips it. */
  lemma ListedPast(live: seq<nat>, ids: seq<nat>, keys: set<nat>, last: nat)
    requires live != [] && IsListing(ids, keys) && forall x, y | 0 <= x < y < |live| :: live[x] < live[y]
    requires forall x | 0 <= x < |live| :: live[x] in keys
    requires forall k | k in keys && k <= live[|live| - 1] :: k in live
    requires last in keys && live[|live| - 1] < last
    ensures |live| < |ids| && (forall x | 0 <= x < |live| :: ids[x] == live[x]) && ids[|live|] in keys
  {
    hide IsListing;
    forall x | 0 <= x < |live| ensures x < |ids| && ids[x] == live[x] {
      ListingStart(live, ids, keys, x);
    }
    ListingStart(live, ids, keys, |live| - 1);
    NotTheLast(ids, keys, |live| - 1, last);
    KeyAt(ids, keys, |live|);
  }

  lemma KeyAt(ids: seq<nat>, keys: set<nat>, j: nat)
    requires IsListing(ids, keys) && j < |ids|
    ensures ids[j] in keys
  {
  }

  /** The files on both sides of the gap. */
  lemma GapKeys<R(!new)>(
    c: Codec<R>, hist: seq<ChunkLog<R>>, lo: nat, cur: nat, back: set<nat>, disk: Disk, disk': Disk, j: nat, k: nat)
    requires Lawful(c) && Chained(c, hist) && Stored(c, hist, lo, cur, disk)
    requires (forall i | i in back :: j <= i < lo) && ComesBack(c, hist, back, disk, disk')
    requires j < k < lo && (forall i | j <= i < k :: i in back) && k !in back
    ensures lo <= cur < |hist| && hist[k].id !in disk' && hist[cur].id in disk'
    ensures forall id | id in LiveIds(hist, j, k - 1) :: id in disk'
    ensures forall key | key in disk' && key <= hist[k - 1].id :: key in LiveIds(hist, j, k - 1)
  {
    hide Stream, Lawful, Chained, Returned, IsLive;
    var live := LiveIds(hist, j, k - 1);
    forall x | 0 <= x < k - j ensures live[x] in disk' {
      assert IsWhole(c, hist[j + x], disk');
    }
    hide ComesBack, Stored;
    forall key | key in disk' ensures key != hist[k].id && (key <= hist[k - 1].id ==> key in live) {
      BesideGap(c, hist, lo, cur, back, disk, disk', j, k, key);
    }
  }

  /** The listing starts with the chunks before the gap, and then skips it. */
  lemma ListedToGap<R(!new)>(
    c: Codec<R>, hist: seq<ChunkLog<R>>, lo: nat, cur: nat, back: set<nat>, disk: Disk, disk': Disk, j: nat, k: nat, ids: seq<nat>)
    requires Lawful(c) && Chained(c, hist) && Stored(c, hist, lo, cur, disk)
    requires (forall i | i in back :: j <= i < lo) && ComesBack(c, hist, back, disk, disk')
    requires j < k < lo && (forall i | j <= i < k :: i in back) && k !in back && IsListing(ids, disk'.Keys)
    ensures k - j < |ids| && forall x | 0 <= x < k - j :: ids[x] == hist[j + x].id
    ensures ids[k - j] != hist[k].id
  {
    hide Stream, Lawful, Chained, IsListing, ComesBack, Stored;
    GapKeys(c, hist, lo, cur, back, disk, disk', j, k);
    IdsOrdered(c, hist);
    var live := LiveIds(hist, j, k - 1);
    ListedPast(live, ids, disk'.Keys, hist[cur].id);
  }

  /** Every file is that of a chunk that came back, or of one that was there, or it lies beyond them. */
  lemma WhichChunk<R(!new)>(
    c: Codec<R>, hist: seq<ChunkLog<R>>, lo: nat, cur: nat, back: set<nat>, disk: Disk, disk': Disk, key: nat)
    returns (i: nat)
    requires Lawful(c) && Chained(c, hist) && Stored(c, hist, lo, cur, disk)
    requires (forall i | i in back :: i < lo) && ComesBack(c, hist, back, disk, disk') && key in disk'
    ensures i in back || lo <= i
    ensures if i < |hist| then hist[i].id == key else key > hist[cur].id
  {
    hide Stream, Lawful, Chained, IsWhole, Returned;
    if key !in disk {
      assert Returned(hist, back, key);
      i := ReturnedIsOld(c, hist, lo, cur, back, key);
    } else if key > hist[cur].id {
      i := |hist|;
    } else {
      assert IsLive(hist, lo, cur, key);
      i :| lo <= i <= cur && hist[i].id == key;
    }
  }

  lemma GapStopsLoad<R(!new), S(!new)>(
    env: Env<R, S>, hist: seq<ChunkLog<R>>, lo: nat, cur: nat, back: set<nat>, disk: Disk, disk': Disk, ids: seq<nat>, start: S)
    requires EnvOk(env) && ValidLog(env, hist) && Stored(env.codec, hist, lo, cur, disk)
    requires (forall i | i in back :: i < lo) && ComesBack(env.codec, hist, back, disk, disk') && !IsSuffix(back, lo)
    requires IsListing(ids, disk'.Keys)
    ensures LoadAndOpen(env, disk', ids, start, true).Err?
  {
    hide Stream, ReplayChunks, CheckpointFirst, Load, LoadOne, IsListing, OpenTail, LoadedLog, AllRecords, Stored, Returned;
    var j := Oldest(back, lo);
    var k := FirstMissing(back, lo, j);
    StoredBounds(env.codec, hist, lo, cur, disk);
    ListedToGap(env.codec, hist, lo, cur, back, disk, disk', j, k, ids);
    LoadWhole(env, hist, j, k, disk', ids, start, true);
    ChunkFollows(env, hist, k);
    var p := LoadedTo(env, hist, j, k, disk', start);
    GapIsSeen(env, p, ids[k - j], k - j + 1 == |ids|);
    LoadNext(env, disk', ids, k - j, start, true, p);
    LoadStops(env, disk', ids, k - j + 1, |ids|, start, true);
  }

  lemma StoredBounds<R>(c: Codec<R>, hist: seq<ChunkLog<R>>, lo: nat, cur: nat, disk: Disk)
    requires Stored(c, hist, lo, cur, disk)
    ensures lo <= cur < |hist|
  {
  }

  /** The same with the files after the last chunk that has a record. */
  lemma UptoComesBack<R(!new)>(
    c: Codec<R>, hist: seq<ChunkLog<R>>, lo: nat, n: nat, back: set<nat>, disk: Disk, disk': Disk)
    requires Lawful(c) && Chained(c, hist) && lo <= n < |hist| && (forall i | i in back :: i < lo)
    requires ComesBack(c, hist, back, disk, disk')
    ensures ComesBack(c, hist, back, Upto(disk, hist[n].id), Upto(disk', hist[n].id))
    ensures forall k | k in disk' && k > hist[n].id :: k in disk && disk'[k] == disk[k]
  {
    hide Stream, Lawful, Chained, Returned;
    IdsOrdered(c, hist);
    forall k | k in disk' && k !in disk ensures k < hist[n].id {
      var i := ReturnedIsOld(c, hist, lo, n, back, k);
    }
    forall i | i in back ensures IsWhole(c, hist[i], Upto(disk', hist[n].id)) {
      assert IsWhole(c, hist[i], disk');
    }
  }

  lemma GapBlocks<R(!new), S(!new)>(
    env: Env<R, S>, hist: seq<ChunkLog<R>>, lo: nat, cur: nat, m: nat, disk: Disk, back: set<nat>, disk': Disk,
    ids: seq<nat>, start: S)
    requires EnvOk(env) && ValidLog(env, hist) && Image(env.codec, hist, lo, cur, m, disk) && lo <= cur < |hist|
    requires (forall i | i in back :: i < lo) && ComesBack(env.codec, hist, back, disk, disk') && !IsSuffix(back, lo)
    requires (m > 0 || lo < cur) && IsListing(ids, disk'.Keys)
    ensures Open(env, disk', ids, start, true).Err?
  {
    hide Stream, ReplayChunks, CheckpointFirst, Chained, HasInitialRecord, HoldsPrefix, RemoveTails, LoadAndOpen, IsListing,
    Upto, ComesBack, IsSuffix, Lawful, Stored;
    var n, k := ToLastRecord(env, hist, lo, cur, m, disk);
    var last := hist[n].id;
    UptoComesBack(env.codec, hist, lo, n, back, disk, disk');
    SameFile(env.codec, hist, back, disk, disk', last);
    var ids' := RemoveAfter(env.codec, disk', ids, last);
    EnvBounded(env);
    OpenAfterRemoval(env, disk', ids, start, true, Upto(disk', last), ids');
    GapStopsLoad(env, hist, lo, n, back, Upto(disk, last), Upto(disk', last), ids', start);
  }

  lemma SameFile<R>(c: Codec<R>, hist: seq<ChunkLog<R>>, back: set<nat>, disk: Disk, disk': Disk, k: nat)
    requires ComesBack(c, hist, back, disk, disk') && k in disk
    ensures k in disk' && disk'[k] == disk[k]
  {
  }

  /** What `open` gives for two images of one log, of which one has more old chunks. */
  lemma OlderChunksAddNothing<R(!new), S(!new)>(
    env: Env<R, S>, hist: seq<ChunkLog<R>>, lo: nat, j: nat, cur: nat, m: nat, disk: Disk, disk': Disk,
    ids: seq<nat>, plain: seq<nat>, start: S)
    requires EnvOk(env) && ValidLog(env, hist) && j <= lo <= cur < |hist| && (m > 0 || lo < cur)
    requires Image(env.codec, hist, lo, cur, m, disk) && Image(env.codec, hist, j, cur, m, disk')
    requires disk'[hist[cur].id] == disk[hist[cur].id]
    requires IsListing(ids, disk'.Keys) && IsListing(plain, disk.Keys)
    ensures SameLog(Open(env, disk', ids, start, true), Open(env, disk, plain, start, true))
  {
    hide Open, Stream, ReplayChunks, Chained, CheckpointFirst, Stored, HoldsPrefix, LoadedLog, Offsets, AllRecords, Upto,
    IsListing;
    if m > 0 {
      OpenWithRecord(env, hist, j, cur, m, disk', ids, start, true);
      OpenWithRecord(env, hist, lo, cur, m, disk, plain, start, true);
    } else {
      OpenWithoutRecord(env, hist, j, cur, disk', ids, start, true);
      OpenWithoutRecord(env, hist, lo, cur, disk, plain, start, true);
    }
  }

  /** Both opens succeed, with the same state and the same open chunk. */
  ghost predicate SameLog<R, S>(res: Result<Recovered<R, S>>, plain: Result<Recovered<R, S>>) {
    res.Ok? && plain.Ok? && res.value.sm == plain.value.sm && res.value.open == plain.value.open
  }

  lemma SameAsItself<R, S>(res: Result<Recovered<R, S>>)
    requires res.Ok?
    ensures SameLog(res, res)
  {
  }

  /**
   A directory in which removed chunks have come back can be opened if and only
   if no chunk is missing between the oldest of them and the oldest that was
   not removed; the state is then the one without them.
   */
  lemma ReappearingIsHarmlessIff<R(!new), S(!new)>(
    env: Env<R, S>, hist: seq<ChunkLog<R>>, lo: nat, cur: nat, m: nat, disk: Disk, back: set<nat>, disk': Disk,
    ids: seq<nat>, plain: seq<nat>, start: S)
    requires EnvOk(env) && ValidLog(env, hist) && Image(env.codec, hist, lo, cur, m, disk) && lo <= cur < |hist|
    requires (forall i | i in back :: i < lo) && ComesBack(env.codec, hist, back, disk, disk') && (m > 0 || lo < cur)
    requires IsListing(ids, disk'.Keys) && IsListing(plain, disk.Keys)
    ensures var res := Open(env, disk', ids, start, true);
            && (res.Ok? <==> IsSuffix(back, lo))
            && (res.Ok? ==> SameLog(res, Open(env, disk, plain, start, true)))
  {
    hide Open, Stream, ReplayChunks, Chained, CheckpointFirst, Stored, HoldsPrefix, IsListing, ComesBack, IsSuffix, SameLog;
    if IsSuffix(back, lo) {
      SuffixIsImage(env, hist, lo, cur, m, disk, back, disk');
      ImageFacts(env, hist, lo, cur, m, disk);
      SameFile(env.codec, hist, back, disk, disk', hist[cur].id);
      OlderChunksAddNothing(env, hist, lo, Oldest(back, lo), cur, m, disk, disk', ids, plain, start);
      BothOk(Open(env, disk', ids, start, true), Open(env, disk, plain, start, true));
    } else {
      GapBlocks(env, hist, lo, cur, m, disk, back, disk', ids, start);
    }
  }

  lemma BothOk<R, S>(res: Result<Recovered<R, S>>, plain: Result<Recovered<R, S>>)
    requires SameLog(res, plain)
    ensures res.Ok?
  {
  }

  lemma NothingPurged<R(!new), S(!new)>(env: Env<R, S>, s: Sys<R, S>, m: nat)
    requires OnDisk(env, s) && OldestDurable(env.codec, s) && CoversDurable(env.codec, s, m) && Placed(s)
    requires m == 0 && s.lo == s.cur
    ensures s.lo == 0
  {
    hide OnDisk, CoversDurable;
    FirstNotDurable(env, s);
  }

  lemma NoneBack<R>(c: Codec<R>, hist: seq<ChunkLog<R>>, disk: Disk, disk': Disk)
    requires ComesBack(c, hist, {}, disk, disk')
    ensures disk' == disk && forall lo: nat :: IsSuffix({}, lo)
  {
    assert disk'.Keys == disk.Keys;
  }

  /**
   A power loss at any point of any run, after which any of the removed chunks
   are back: the log can be opened if and only if none is missing between the
   oldest of them and the rest of the log, and it then has the state that it
   would have without them.
   */
  lemma CrashWithUnlinksUndone<R(!new), S(!new)>(
    env: Env<R, S>, run: seq<Sys<R, S>>, i: nat, image: Disk, back: set<nat>, disk': Disk, ids: seq<nat>, plain: seq<nat>)
    requires EnvOk(env) && IsRun(env, run) && i < |run|
    requires run[i].careful || OldestDurable(env.codec, run[i])
    requires CrashImage(env.codec, run[i], image) && IsListing(plain, image.Keys)
    requires (forall j | j in back :: j < run[i].lo) && ComesBack(env.codec, run[i].hist, back, image, disk')
    requires IsListing(ids, disk'.Keys)
    ensures var res := Open(env, disk', ids, env.initial, true);
            && (res.Ok? <==> IsSuffix(back, run[i].lo))
            && (res.Ok? ==> SameLog(res, Open(env, image, plain, env.initial, true)))
  {
    hide Init, Next, OnDisk, CrashImage, Open, IsListing, CoversDurable, Stored, HoldsPrefix, IndexOk, Flows, FilesOk, BatchOk,
    RepliesOk, ComesBack, SameLog, IsSuffix, EnvOk;
    EnvBounded(env);
    EveryStateIsOk(env, run, i);
    var s := run[i];
    OnDiskPlaced(env, s);
    OnDiskValid(env, s);
    CarefulIsDurable(env, s);
    var m := CrashLeavesImage(env, s, image);
    if m > 0 || s.lo < s.cur {
      ReappearingIsHarmlessIff(env, s.hist, s.lo, s.cur, m, image, back, disk', ids, plain, env.initial);
    } else {
      NothingPurged(env, s, m);
      assert back == {};
      NoneBack(env.codec, s.hist, image, disk');
      OneListing(ids, plain, image.Keys);
      CrashedFrom(env, s, image, m);
      OpenCrashed(env, s, image, plain, m, env.initial);
      SameAsItself(Open(env, image, plain, env.initial, true));
    }
  }

  /** As soon as two chunks are removed there is such a loss: the older comes back, and the newer does not. */
  lemma UndoneUnlinkBlocks<R(!new), S(!new)>(env: Env<R, S>, run: seq<Sys<R, S>>, i: nat, image: Disk, plain: seq<nat>)
    returns (disk': Disk)
    requires EnvOk(env) && IsRun(env, run) && i < |run| && run[i].lo >= 2
    requires run[i].careful || OldestDurable(env.codec, run[i])
    requires CrashImage(env.codec, run[i], image) && IsListing(plain, image.Keys)
    ensures ComesBack(env.codec, run[i].hist, {run[i].lo - 2}, image, disk')
    ensures forall ids | IsListing(ids, disk'.Keys) :: Open(env, disk', ids, env.initial, true).Err?
  {
    hide IsRun, CrashImage, Open, IsListing, Stored, IndexOk, Flows, FilesOk, BatchOk, RepliesOk, EnvOk, Image, ComesBack,
    OldestDurable, IsSuffix, SameLog, OnDisk;
    EnvBounded(env);
    EveryStateIsOk(env, run, i);
    var s := run[i];
    OnDiskPlaced(env, s);
    OnDiskValid(env, s);
    var m := CrashLeavesImage(env, s, image);
    disk' := OneBack(env, s.hist, s.lo, s.cur, m, image);
    forall ids | IsListing(ids, disk'.Keys) ensures Open(env, disk', ids, env.initial, true).Err? {
      CrashWithUnlinksUndone(env, run, i, image, {s.lo - 2}, disk', ids, plain);
      NotASuffix(s.lo);
    }
  }

  lemma NotASuffix(lo: nat)
    requires lo >= 2
    ensures !IsSuffix({lo - 2}, lo)
  {
    var back, i, k := {lo - 2}, lo - 2, lo - 1;
    assert i in back && i < k < lo && k !in back;
  }

  lemma NotLiveBefore<R(!new)>(c: Codec<R>, hist: seq<ChunkLog<R>>, lo: nat, cur: nat, disk: Disk, i: nat)
    requires Lawful(c) && Chained(c, hist) && Stored(c, hist, lo, cur, disk) && i < lo
    ensures hist[i].id !in disk
  {
    hide Lawful, Chained, Stream;
    IdsOrdered(c, hist);
    assert hist[i].id < hist[cur].id && !IsLive(hist, lo, cur, hist[i].id);
  }

  lemma OneBack<R(!new), S(!new)>(env: Env<R, S>, hist: seq<ChunkLog<R>>, lo: nat, cur: nat, m: nat, disk: Disk) returns (disk': Disk)
    requires EnvOk(env) && ValidLog(env, hist) && Image(env.codec, hist, lo, cur, m, disk) && 2 <= lo <= cur < |hist|
    ensures ComesBack(env.codec, hist, {lo - 2}, disk, disk')
  {
    hide Stream, ReplayChunks, CheckpointFirst, HoldsPrefix, Chained, Lawful;
    var ch := hist[lo - 2];
    disk' := disk[ch.id := File(Stream(env.codec, ch.recs), |Stream(env.codec, ch.recs)|)];
    IdsOrdered(env.codec, hist);
    NotLiveBefore(env.codec, hist, lo, cur, disk, lo - 2);
    assert IsWhole(env.codec, ch, disk');
    assert disk'.Keys == disk.Keys + {ch.id};
  }
}
