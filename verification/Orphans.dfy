/**
 A rotation that fails after it created the successor's file leaves an empty
 file behind. Whether recovery copes with it depends on where the log goes on.
 */
module Orphans {
  import opened Codec
  import opened RecordStream
  import opened Log
  import opened Requests
  import opened Recovery
  import opened CrashImages
  import opened RecoveredLog
  import opened Opening

  /** Id `k` lies after the last chunk of the image that has a record; without any such chunk, every id does. */
  predicate AfterRecords<R>(hist: seq<ChunkLog<R>>, lo: nat, cur: nat, m: nat, k: nat)
    requires lo <= cur < |hist|
  {
    if m > 0 then k > hist[cur].id else lo < cur ==> k > hist[cur - 1].id
  }

  /** Stray files do not have the names of files that are there. */
  ghost predicate AreStray(disk: Disk, strays: set<nat>) {
    forall k | k in strays :: k !in disk
  }

  /** The strays that do not lie after `bound`. */
  function NotAfter(strays: set<nat>, bound: nat): set<nat> {
    set k | k in strays && k <= bound
  }

  // Listing

  lemma ListingUpto(ids: seq<nat>, disk: Disk, j: nat)
    requires IsListing(ids, disk.Keys) && j < |ids|
    ensures IsListing(ids[..j + 1], Upto(disk, ids[j]).Keys)
  {
    var front := ids[..j + 1];
    forall k | k in Upto(disk, ids[j]).Keys ensures k in front {
      var i :| 0 <= i < |ids| && ids[i] == k;
      assert i <= j;
      assert front[i] == k;
    }
  }

  /** Everything after the last chunk with a record is removed. */
  lemma RemoveAfter<R>(c: Codec<R>, d: Disk, ids: seq<nat>, last: nat) returns (ids': seq<nat>)
    requires IsListing(ids, d.Keys) && last in d && HasInitialRecord(c, d[last].os) == Ok(true)
    requires forall k | k in d && k > last :: HasInitialRecord(c, d[k].os) == Ok(false)
    ensures IsListing(ids', Upto(d, last).Keys) && RemoveTails(c, d, ids) == Ok((Upto(d, last), ids'))
  {
    hide HasInitialRecord, Upto, Without, RemoveTails, IsListing;
    var j := IndexOf(ids, d.Keys, last);
    ids' := ids[..j + 1];
    ListingUpto(ids, d, j);
    ListedUpto(d, ids, j);
    var extra := ids[j + 1..];
    ListedAfter(ids, d.Keys, j, extra);
    assert ids == ids' + extra;
    RemoveTrailing(c, d, ids', extra);
    KeepsRecord(c, Upto(d, last), ids');
    UptoKeeps(d, last);
  }

  lemma IndexOf(ids: seq<nat>, keys: set<nat>, k: nat) returns (j: nat)
    requires IsListing(ids, keys) && k in keys
    ensures j < |ids| && ids[j] == k
  {
    j :| 0 <= j < |ids| && ids[j] == k;
  }

  lemma ListedAfter(ids: seq<nat>, keys: set<nat>, j: nat, extra: seq<nat>)
    requires IsListing(ids, keys) && j < |ids| && extra == ids[j + 1..]
    ensures forall x | 0 <= x < |extra| :: extra[x] in keys && extra[x] > ids[j]
    ensures forall x, y | 0 <= x < y < |extra| :: extra[x] < extra[y]
  {
  }

  lemma UptoKeeps(d: Disk, last: nat)
    requires last in d
    ensures last in Upto(d, last) && Upto(d, last)[last] == d[last]
  {
  }

  lemma KeepsRecord<R>(c: Codec<R>, d: Disk, ids: seq<nat>)
    requires ids != []
    ensures ids[|ids| - 1] in d && HasInitialRecord(c, d[ids[|ids| - 1]].os) == Ok(true) ==> RemoveTails(c, d, ids) == Ok((d, ids))
  {
  }

  /** Without any record everything is removed. */
  lemma RemoveAll<R>(c: Codec<R>, d: Disk, ids: seq<nat>)
    requires IsListing(ids, d.Keys) && forall k | k in d :: HasInitialRecord(c, d[k].os) == Ok(false)
    ensures RemoveTails(c, d, ids) == Ok((map[], []))
  {
    hide HasInitialRecord;
    RemoveTrailing(c, d, [], ids);
    assert [] + ids == ids;
    assert Without(d, ids) == map[];
  }

  // Strays before the last record

  /** The first live chunk beyond `k`. */
  lemma {:induction false} FirstBeyond<R>(hist: seq<ChunkLog<R>>, lo: nat, cur: nat, k: nat) returns (n: nat)
    requires lo <= cur < |hist| && k < hist[cur].id && forall i | lo <= i <= cur :: hist[i].id != k
    requires forall i, j | 0 <= i < j < |hist| :: hist[i].id < hist[j].id
    ensures lo <= n <= cur && k < hist[n].id && forall i | lo <= i < n :: hist[i].id < k
    decreases cur
  {
    if cur == lo || hist[cur - 1].id < k {
      n := cur;
    } else {
      n := FirstBeyond(hist, lo, cur - 1, k);
    }
  }

  /** The ids up to the orphan, in order. */
  function Before<R>(hist: seq<ChunkLog<R>>, lo: nat, n: nat, k: nat): (ids: seq<nat>)
    requires lo <= n < |hist|
    ensures |ids| == n - lo + 1 && ids[n - lo] == k && forall j | 0 <= j < n - lo :: ids[j] == hist[lo + j].id
  {
    (if lo == n then [] else LiveIds(hist, lo, n - 1)) + [k]
  }

  lemma LiveBefore<R>(hist: seq<ChunkLog<R>>, lo: nat, cur: nat, n: nat, k: nat, key: nat) returns (i: nat)
    requires lo <= n <= cur < |hist| && IsLive(hist, lo, cur, key) && key <= k < hist[n].id
    requires forall i, j | 0 <= i < j < |hist| :: hist[i].id < hist[j].id
    ensures lo <= i < n && hist[i].id == key
  {
    i :| lo <= i <= cur && hist[i].id == key;
  }

  /** The oldest stray is listed right after the chunks before it. */
  lemma ListedBefore<R(!new)>(
    c: Codec<R>, hist: seq<ChunkLog<R>>, lo: nat, cur: nat, n: nat, disk: Disk, strays: set<nat>, k: nat, ids: seq<nat>)
    requires Lawful(c) && Chained(c, hist) && Stored(c, hist, lo, cur, disk)
    requires k in strays && forall x | x in strays :: x >= k
    requires lo <= n <= cur && k < hist[n].id && (forall i | lo <= i < n :: hist[i].id < k)
    requires IsListing(ids, disk.Keys + strays)
    ensures n - lo < |ids| && ids[n - lo] == k && forall j | 0 <= j < n - lo :: ids[j] == hist[lo + j].id
  {
    hide Stream, Lawful, Chained, IsLive, Before;
    var live, keys := Before(hist, lo, n, k), disk.Keys + strays;
    IdsOrdered(c, hist);
    forall x | 0 <= x < |live| ensures live[x] in keys {
      assert x < n - lo ==> IsWhole(c, hist[lo + x], disk);
    }
    forall key | key in keys && key <= live[|live| - 1] ensures key in live {
      if key != k {
        var i := LiveBefore(hist, lo, cur, n, k, key);
        assert live[i - lo] == key;
      } else {
        assert live[n - lo] == k;
      }
    }
    forall j | 0 <= j <= n - lo ensures j < |ids| && ids[j] == live[j] {
      ListingStart(live, ids, keys, j);
    }
  }

  /** Loading stops at the orphan: it is not where its predecessor ends, or it has no record. */
  lemma OrphanStops<R(!new), S(!new)>(env: Env<R, S>, hist: seq<ChunkLog<R>>, lo: nat, n: nat, d: Disk, k: nat, start: S)
    requires EnvOk(env) && ValidLog(env, hist) && lo <= n < |hist| && k < hist[n].id
    requires k in d && d[k] == EMPTY_FILE
    ensures LoadOne(env, LoadedTo(env, hist, lo, n, d, start), k, false).Err?
  {
    hide ReplayChunks, LoadedLog, AllRecords, Stream;
    if lo < n {
      assert Follows(env.codec, hist, n);
    }
  }

  lemma NotTheLast(ids: seq<nat>, keys: set<nat>, j: nat, last: nat)
    requires IsListing(ids, keys) && j < |ids| && ids[j] < last && last in keys
    ensures j + 1 < |ids|
  {
    var i :| 0 <= i < |ids| && ids[i] == last;
  }

  lemma NotLive<R>(c: Codec<R>, hist: seq<ChunkLog<R>>, lo: nat, cur: nat, disk: Disk, k: nat)
    requires Stored(c, hist, lo, cur, disk) && k !in disk
    ensures forall i | lo <= i <= cur :: hist[i].id != k
  {
    forall i | lo <= i <= cur ensures hist[i].id != k {
      assert i < cur ==> IsWhole(c, hist[i], disk);
    }
  }

  lemma {:induction false} Smallest(keys: set<nat>) returns (first: nat)
    requires keys != {}
    ensures first in keys && forall k | k in keys :: k >= first
    decreases |keys|
  {
    var some :| some in keys;
    first := some;
    var others := keys - {some};
    assert forall k | k in keys :: k == some || k in others;
    if others != {} {
      var other := Smallest(others);
      first := if other < some then other else some;
    }
  }

  /** A load that meets a stray before the last chunk fails. */
  lemma StrayStopsLoad<R(!new), S(!new)>(
    env: Env<R, S>, hist: seq<ChunkLog<R>>, lo: nat, cur: nat, disk: Disk, strays: set<nat>, ids: seq<nat>, start: S)
    requires EnvOk(env) && ValidLog(env, hist) && Stored(env.codec, hist, lo, cur, disk)
    requires AreStray(disk, strays) && strays != {} && (forall k | k in strays :: k < hist[cur].id)
    requires IsListing(ids, disk.Keys + strays)
    ensures LoadAndOpen(env, WithFiles(disk, strays), ids, start, true).Err?
  {
    hide Stream, ReplayChunks, CheckpointFirst, Load, LoadOne, IsListing, OpenTail, LoadedLog, AllRecords;
    var c, d := env.codec, WithFiles(disk, strays);
    var k := Smallest(strays);
    IdsOrdered(c, hist);
    NotLive(c, hist, lo, cur, disk, k);
    var n := FirstBeyond(hist, lo, cur, k);
    ListedBefore(c, hist, lo, cur, n, disk, strays, k, ids);
    forall i | lo <= i < n ensures IsWhole(c, hist[i], d) {
      assert IsWhole(c, hist[i], disk);
    }
    LoadWhole(env, hist, lo, n, d, ids, start, true);
    OrphanStops(env, hist, lo, n, d, k, start);
    NotTheLast(ids, disk.Keys + strays, n - lo, hist[cur].id);
    LoadNext(env, d, ids, n - lo, start, true, LoadedTo(env, hist, lo, n, d, start));
    LoadStops(env, d, ids, n - lo + 1, |ids|, start, true);
  }

  // Any strays

  /** The image up to its last chunk with a record: that chunk, and how many records of it there are. */
  lemma ToLastRecord<R(!new), S(!new)>(env: Env<R, S>, hist: seq<ChunkLog<R>>, lo: nat, cur: nat, m: nat, disk: Disk)
    returns (n: nat, k: nat)
    requires EnvOk(env) && ValidLog(env, hist) && Image(env.codec, hist, lo, cur, m, disk) && lo <= cur < |hist|
    requires m > 0 || lo < cur
    ensures lo <= n <= cur && k > 0 && n == (if m > 0 then cur else cur - 1)
    ensures Image(env.codec, hist, lo, n, k, Upto(disk, hist[n].id)) && hist[n].id in disk
    ensures HasInitialRecord(env.codec, disk[hist[n].id].os) == Ok(true)
    ensures forall x | x in disk && x > hist[n].id :: HasInitialRecord(env.codec, disk[x].os) == Ok(false)
  {
    hide Stream, ReplayChunks, CheckpointFirst, HoldsPrefix, HasInitialRecord;
    var c := env.codec;
    n, k := cur, m;
    InitialRecord(c, hist[cur].recs, m, disk[hist[cur].id].os);
    EmptyHasNone(c);
    if m > 0 {
      UptoImage(c, hist, lo, cur, m, disk);
    } else {
      n, k := cur - 1, |hist[cur - 1].recs|;
      DropCurrent(c, hist, lo, cur, disk);
      IdsIncrease(c, hist, n, cur);
      InitialRecord(c, hist[n].recs, k, Upto(disk, hist[n].id)[hist[n].id].os);
      forall x | x in disk && hist[n].id < x <= hist[cur].id ensures x == hist[cur].id {
        LiveIsBelow(c, hist, lo, cur, x);
      }
    }
  }

  lemma EmptyHasNone<R>(c: Codec<R>)
    ensures HasInitialRecord(c, EMPTY_FILE.os) == Ok(false)
  {
  }

  lemma UptoWithFiles(disk: Disk, strays: set<nat>, bound: nat)
    ensures Upto(WithFiles(disk, strays), bound) == WithFiles(Upto(disk, bound), NotAfter(strays, bound))
    ensures Upto(WithFiles(disk, strays), bound).Keys == Upto(disk, bound).Keys + NotAfter(strays, bound)
  {
  }

  /** Opening with stray files, when some chunk has a record. */
  lemma OpenWithStrays<R(!new), S(!new)>(
    env: Env<R, S>, hist: seq<ChunkLog<R>>, lo: nat, cur: nat, m: nat, disk: Disk, strays: set<nat>, ids: seq<nat>, start: S)
    returns (n: nat, k: nat, ids': seq<nat>)
    requires EnvOk(env) && ValidLog(env, hist) && Image(env.codec, hist, lo, cur, m, disk) && lo <= cur < |hist|
    requires (m > 0 || lo < cur) && AreStray(disk, strays) && IsListing(ids, disk.Keys + strays)
    ensures n == (if m > 0 then cur else cur - 1) && k > 0 && Image(env.codec, hist, lo, n, k, Upto(disk, hist[n].id))
    ensures var before := NotAfter(strays, hist[n].id);
            && IsListing(ids', Upto(disk, hist[n].id).Keys + before)
            && Open(env, WithFiles(disk, strays), ids, start, true)
            == LoadAndOpen(env, WithFiles(Upto(disk, hist[n].id), before), ids', start, true)
  {
    hide Stream, ReplayChunks, CheckpointFirst, Chained, HoldsPrefix, HasInitialRecord, RemoveTails, LoadAndOpen, IsListing, Stored, Upto;
    var d := WithFiles(disk, strays);
    n, k := ToLastRecord(env, hist, lo, cur, m, disk);
    EmptyHasNone(env.codec);
    assert d.Keys == disk.Keys + strays;
    ids' := RemoveAfter(env.codec, d, ids, hist[n].id);
    UptoWithFiles(disk, strays, hist[n].id);
    OpenAfterRemoval(env, d, ids, start, true, Upto(d, hist[n].id), ids');
  }

  lemma NothingToOpen<R(!new), S(!new)>(
    env: Env<R, S>, hist: seq<ChunkLog<R>>, cur: nat, disk: Disk, strays: set<nat>, ids: seq<nat>, start: S)
    requires EnvOk(env) && ValidLog(env, hist) && Image(env.codec, hist, cur, cur, 0, disk) && cur < |hist|
    requires AreStray(disk, strays) && IsListing(ids, disk.Keys + strays)
    ensures Open(env, WithFiles(disk, strays), ids, start, true) == LoadAndOpen(env, map[], [], start, true)
  {
    hide Stream, ReplayChunks, CheckpointFirst, HoldsPrefix, HasInitialRecord, RemoveTails, LoadAndOpen, IsListing;
    var d := WithFiles(disk, strays);
    InitialRecord(env.codec, hist[cur].recs, 0, disk[hist[cur].id].os);
    EmptyHasNone(env.codec);
    forall x | x in d ensures HasInitialRecord(env.codec, d[x].os) == Ok(false) {
      if x in disk && x <= hist[cur].id {
        assert IsLive(hist, cur, cur, x);
      }
    }
    assert d.Keys == disk.Keys + strays;
    RemoveAll(env.codec, d, ids);
    OpenAfterRemoval(env, d, ids, start, true, map[], []);
  }

  lemma HarmlessSame<R(!new), S(!new)>(
    env: Env<R, S>, hist: seq<ChunkLog<R>>, lo: nat, n: nat, k: nat, base: Disk, ids: seq<nat>, ids': seq<nat>, start: S)
    requires EnvOk(env) && ValidLog(env, hist) && Image(env.codec, hist, lo, n, k, base) && k > 0
    requires n < |hist| && (forall x | x in base :: x <= hist[n].id)
    requires IsListing(ids, base.Keys) && IsListing(ids', base.Keys)
    ensures LoadAndOpen(env, base, ids, start, true) == LoadAndOpen(env, base, ids', start, true)
    ensures LoadAndOpen(env, base, ids, start, true).Ok?
  {
    hide Stream, ReplayChunks, CheckpointFirst, HoldsPrefix, LoadAndOpen, Reopened, Restarted, IsClean, Stored, Open;
    OneListing(ids, ids', base.Keys);
    ImageFacts(env, hist, lo, n, k, base);
    OpenWithRecord(env, hist, lo, n, k, base, ids, start, true);
    RemoveTailsOfImage(env.codec, hist, lo, n, k, base, ids);
    UptoLast(base, hist[n].id);
    ListedChunks(env.codec, hist, lo, n, base, ids);
    OpenAfterRemoval(env, base, ids, start, true, base, LiveIds(hist, lo, n));
    AllListed(ids, base.Keys, LiveIds(hist, lo, n), hist[n].id);
  }

  lemma AllListed(ids: seq<nat>, keys: set<nat>, live: seq<nat>, last: nat)
    requires IsListing(ids, keys) && live != [] && |live| <= |ids| && ids[..|live|] == live && live[|live| - 1] == last
    requires forall k | k in keys :: k <= last
    ensures ids == live
  {
    var i :| 0 <= i < |ids| && ids[i] == last;
    assert ids[|ids| - 1] in keys;
    assert i == |live| - 1 == |ids| - 1;
  }

  /** A directory has one listing. */
  lemma OneListing(ids: seq<nat>, ids': seq<nat>, keys: set<nat>)
    requires IsListing(ids, keys) && IsListing(ids', keys)
    ensures ids == ids'
  {
    if ids != [] {
      ListingStart(ids, ids', keys, |ids| - 1);
    }
    if ids' != [] {
      ListingStart(ids', ids, keys, |ids'| - 1);
    }
    forall j | 0 <= j < |ids| ensures ids'[j] == ids[j] {
      ListingStart(ids, ids', keys, j);
    }
  }

  /**
   Stray empty files keep a log from being opened if and only if one of them
   lies before the last chunk with a record. If none does, `open` gives exactly
   what it gives without them.
   */
  lemma OrphansAreHarmlessIff<R(!new), S(!new)>(
    env: Env<R, S>, hist: seq<ChunkLog<R>>, lo: nat, cur: nat, m: nat, disk: Disk, strays: set<nat>,
    ids: seq<nat>, plain: seq<nat>, start: S)
    requires EnvOk(env) && ValidLog(env, hist) && Image(env.codec, hist, lo, cur, m, disk) && lo <= cur < |hist|
    requires AreStray(disk, strays) && IsListing(ids, disk.Keys + strays) && IsListing(plain, disk.Keys)
    ensures var res := Open(env, WithFiles(disk, strays), ids, start, true);
            && (res.Ok? <==> forall k | k in strays :: AfterRecords(hist, lo, cur, m, k))
            && (res.Ok? ==> res == Open(env, disk, plain, start, true))
  {
    hide Open, LoadAndOpen, Stream, ReplayChunks, CheckpointFirst, Chained, HoldsPrefix, IsListing, Stored;
    NoStrays(disk, plain);
    if m > 0 || lo < cur {
      var n, k, ids1 := OpenWithStrays(env, hist, lo, cur, m, disk, strays, ids, start);
      var n0, k0, ids0 := OpenWithStrays(env, hist, lo, cur, m, disk, {}, plain, start);
      var base := Upto(disk, hist[n].id);
      var before := NotAfter(strays, hist[n].id);
      NothingAdded(base, hist[n].id);
      if before == {} {
        UptoBound(disk, hist[n].id);
        HarmlessSame(env, hist, lo, n, k, base, ids1, ids0, start);
        forall x | x in strays ensures AfterRecords(hist, lo, cur, m, x) {
          assert x !in before;
        }
      } else {
        BeforeIsStrict(env, hist, lo, cur, m, n, disk, strays);
        ImageStored(env, hist, lo, n, k, base);
        StrayStopsLoad(env, hist, lo, n, base, before, ids1, start);
        var x :| x in before;
        assert !AfterRecords(hist, lo, cur, m, x);
      }
    } else {
      NothingToOpen(env, hist, cur, disk, strays, ids, start);
      NothingToOpen(env, hist, cur, disk, {}, plain, start);
      NothingOpens(env, start);
    }
  }

  lemma NothingAdded(base: Disk, bound: nat)
    ensures NotAfter({}, bound) == {} && WithFiles(base, {}) == base && base.Keys + {} == base.Keys
  {
  }

  lemma UptoBound(disk: Disk, bound: nat)
    ensures forall k | k in Upto(disk, bound) :: k <= bound
  {
  }

  lemma NoStrays(disk: Disk, plain: seq<nat>)
    requires IsListing(plain, disk.Keys)
    ensures WithFiles(disk, {}) == disk && IsListing(plain, disk.Keys + {}) && AreStray(disk, {})
  {
    assert disk.Keys + {} == disk.Keys;
  }

  lemma ImageStored<R, S>(env: Env<R, S>, hist: seq<ChunkLog<R>>, lo: nat, cur: nat, m: nat, disk: Disk)
    requires Image(env.codec, hist, lo, cur, m, disk)
    ensures Stored(env.codec, hist, lo, cur, disk)
  {
  }

  lemma BeforeIsStrict<R(!new), S(!new)>(
    env: Env<R, S>, hist: seq<ChunkLog<R>>, lo: nat, cur: nat, m: nat, n: nat, disk: Disk, strays: set<nat>)
    requires EnvOk(env) && ValidLog(env, hist) && Image(env.codec, hist, lo, cur, m, disk) && lo <= n <= cur < |hist|
    requires AreStray(disk, strays)
    ensures var before := NotAfter(strays, hist[n].id);
            && (forall k | k in before :: k < hist[n].id) && AreStray(Upto(disk, hist[n].id), before)
  {
    hide Stream, ReplayChunks, CheckpointFirst, HoldsPrefix;
    assert n < cur ==> IsWhole(env.codec, hist[n], disk);
  }

  lemma NothingOpens<R(!new), S(!new)>(env: Env<R, S>, start: S)
    requires EnvOk(env)
    ensures LoadAndOpen(env, map[], [], start, true).Ok?
  {
    assert Encodable(env.codec, env.checkpoint(start));
  }
}
