/** What a crash can leave on disk, and that recovery always reads it as a cut of the log. */
module CrashImages {
  import opened Bytes
  import opened Codec
  import opened RecordStream
  import opened Log
  import opened Requests
  import opened Recovery

  ghost predicate IsWhole<R>(c: Codec<R>, ch: ChunkLog<R>, disk: Disk) {
    ch.id in disk && disk[ch.id] == File(Stream(c, ch.recs), |Stream(c, ch.recs)|)
  }

  ghost predicate IsLive<R>(hist: seq<ChunkLog<R>>, lo: nat, cur: nat, k: nat) {
    exists i | lo <= i <= cur < |hist| :: hist[i].id == k
  }

  /**
   The rotation invariant: chunk `cur` is the last with any bytes in its file,
   and every live chunk before it is written and durable to its end.
   */
  ghost predicate Stored<R>(c: Codec<R>, hist: seq<ChunkLog<R>>, lo: nat, cur: nat, disk: Disk) {
    && lo <= cur < |hist|
    && (forall i {:trigger IsWhole(c, hist[i], disk)} | lo <= i < cur :: IsWhole(c, hist[i], disk))
    && hist[cur].id in disk
    && (forall k | k in disk && k > hist[cur].id :: disk[k] == EMPTY_FILE)
    && (forall k | k in disk && k <= hist[cur].id :: IsLive(hist, lo, cur, k))
  }

  /** A directory whose files hold the log up to the first `m` records of chunk `cur`. */
  ghost predicate Image<R>(c: Codec<R>, hist: seq<ChunkLog<R>>, lo: nat, cur: nat, m: nat, disk: Disk) {
    Stored(c, hist, lo, cur, disk) && HoldsPrefix(c, hist[cur].recs, m, disk[hist[cur].id].os)
  }

  // Listing

  /** A listing starts with `live` when those are all the keys up to the last of them. */
  lemma {:induction false} ListingStart(live: seq<nat>, ids: seq<nat>, keys: set<nat>, j: nat)
    requires IsListing(ids, keys) && j < |live|
    requires forall x, y | 0 <= x < y < |live| :: live[x] < live[y]
    requires forall x | 0 <= x < |live| :: live[x] in keys
    requires forall k | k in keys && k <= live[|live| - 1] :: k in live
    ensures j < |ids| && ids[j] == live[j]
  {
    if j > 0 {
      ListingStart(live, ids, keys, j - 1);
    }
    var x :| 0 <= x < |ids| && ids[x] == live[j];
    assert j <= x;
    var y :| 0 <= y < |live| && live[y] == ids[j];
  }

  function LiveIds<R>(hist: seq<ChunkLog<R>>, lo: nat, cur: nat): (ids: seq<nat>)
    requires lo <= cur < |hist|
    ensures |ids| == cur - lo + 1
    ensures forall j | 0 <= j <= cur - lo :: ids[j] == hist[lo + j].id
    decreases cur
  {
    (if lo == cur then [] else LiveIds(hist, lo, cur - 1)) + [hist[cur].id]
  }

  /** A listing of the directory is the live chunks in order, then files that hold nothing. */
  lemma ListedChunks<R(!new)>(
    c: Codec<R>, hist: seq<ChunkLog<R>>, lo: nat, cur: nat, disk: Disk, ids: seq<nat>)
    requires Lawful(c) && Chained(c, hist) && Stored(c, hist, lo, cur, disk)
    requires IsListing(ids, disk.Keys)
    ensures cur - lo < |ids| && ids[..cur - lo + 1] == LiveIds(hist, lo, cur)
    ensures forall j: nat | cur - lo < j < |ids| :: ids[j] > hist[cur].id && disk[ids[j]] == EMPTY_FILE
  {
    var live := LiveIds(hist, lo, cur);
    IdsOrdered(c, hist);
    forall x | 0 <= x < |live| ensures live[x] in disk.Keys {
      assert lo + x < cur ==> IsWhole(c, hist[lo + x], disk);
    }
    forall k | k in disk.Keys && k <= live[|live| - 1] ensures k in live {
      assert IsLive(hist, lo, cur, k);
      var i :| lo <= i <= cur && hist[i].id == k;
      assert live[i - lo] == k;
    }
    forall j | 0 <= j < |live| ensures j < |ids| && ids[j] == live[j] {
      ListingStart(live, ids, disk.Keys, j);
    }
    ListingStart(live, ids, disk.Keys, cur - lo);
  }

  // Removing tails

  lemma WholeHoldsAll<R>(c: Codec<R>, ch: ChunkLog<R>)
    ensures HoldsPrefix(c, ch.recs, |ch.recs|, Stream(c, ch.recs))
  {
    assert ch.recs[..|ch.recs|] == ch.recs;
  }

  lemma InitialRecord<R(!new)>(c: Codec<R>, recs: seq<R>, m: nat, b: seq<Byte>)
    requires Lawful(c) && AllEncodable(c, recs) && HoldsPrefix(c, recs, m, b)
    ensures HasInitialRecord(c, b) == Ok(m > 0)
  {
    if m == 0 {
      assert recs[..0] == [];
      assert b[0..] == b;
      TailDoesNotParse(c, recs, 0, b);
    } else {
      StreamHead(c, recs[..m]);
      var tail := Stream(c, recs[..m][1..]) + b[|Stream(c, recs[..m])|..];
      assert b == Bytes1(c, recs[0]) + tail;
      assert RoundTrips(c, recs[0], tail) && Encodable(c, recs[0]) && SizeIsHonest(c, recs[0]);
    }
  }

  /** The files with ids up to `bound`. */
  function Upto(disk: Disk, bound: nat): Disk {
    map k | k in disk && k <= bound :: disk[k]
  }

  lemma UptoLast(disk: Disk, bound: nat)
    requires forall k | k in disk :: k <= bound
    ensures Upto(disk, bound) == disk
  {
  }

  lemma UptoImage<R(!new)>(c: Codec<R>, hist: seq<ChunkLog<R>>, lo: nat, cur: nat, m: nat, disk: Disk)
    requires Lawful(c) && Chained(c, hist) && Image(c, hist, lo, cur, m, disk)
    ensures Image(c, hist, lo, cur, m, Upto(disk, hist[cur].id))
  {
    forall i | lo <= i < cur ensures IsWhole(c, hist[i], Upto(disk, hist[cur].id)) {
      IdsIncrease(c, hist, i, cur);
      assert IsWhole(c, hist[i], disk);
    }
  }

  lemma LiveIsBelow<R(!new)>(c: Codec<R>, hist: seq<ChunkLog<R>>, lo: nat, cur: nat, k: nat)
    requires Lawful(c) && Chained(c, hist) && lo < cur && IsLive(hist, lo, cur, k)
    ensures k == hist[cur].id || (k <= hist[cur - 1].id && IsLive(hist, lo, cur - 1, k))
  {
    var i :| lo <= i <= cur && hist[i].id == k;
    if i < cur - 1 {
      IdsIncrease(c, hist, i, cur - 1);
    }
    if i < cur {
      assert IsLive(hist, lo, cur - 1, hist[i].id);
    }
  }

  lemma UptoPrev<R(!new)>(c: Codec<R>, hist: seq<ChunkLog<R>>, lo: nat, cur: nat, disk: Disk)
    requires Lawful(c) && Chained(c, hist) && Stored(c, hist, lo, cur, disk) && lo < cur
    ensures hist[cur - 1].id < hist[cur].id
    ensures Upto(disk, hist[cur - 1].id) == Upto(disk, hist[cur].id) - {hist[cur].id}
    ensures forall k | k in disk && k <= hist[cur - 1].id :: IsLive(hist, lo, cur - 1, k)
  {
    IdsIncrease(c, hist, cur - 1, cur);
    forall k | k in disk && k <= hist[cur].id
      ensures k == hist[cur].id || (k <= hist[cur - 1].id && IsLive(hist, lo, cur - 1, k))
    {
      LiveIsBelow(c, hist, lo, cur, k);
    }
  }

  lemma StoredPrev<R(!new)>(c: Codec<R>, hist: seq<ChunkLog<R>>, lo: nat, cur: nat, disk: Disk)
    requires Lawful(c) && Chained(c, hist) && Stored(c, hist, lo, cur, disk) && lo < cur
    ensures Stored(c, hist, lo, cur - 1, Upto(disk, hist[cur - 1].id))
  {
    hide Stream, Lawful, Chained;
    var prev := hist[cur - 1];
    UptoPrev(c, hist, lo, cur, disk);
    assert IsWhole(c, prev, disk);
    forall i | lo <= i < cur - 1 ensures IsWhole(c, hist[i], Upto(disk, prev.id)) {
      IdsIncrease(c, hist, i, cur - 1);
      assert IsWhole(c, hist[i], disk);
    }
  }

  /** Without chunk `cur`, its predecessor is the tail, with all its records. */
  lemma DropCurrent<R(!new)>(c: Codec<R>, hist: seq<ChunkLog<R>>, lo: nat, cur: nat, disk: Disk)
    requires Lawful(c) && Chained(c, hist) && Stored(c, hist, lo, cur, disk) && lo < cur
    ensures var kept := Upto(disk, hist[cur - 1].id);
            && Image(c, hist, lo, cur - 1, |hist[cur - 1].recs|, kept)
            && IsWhole(c, hist[cur - 1], kept)
    ensures Upto(disk, hist[cur - 1].id) == Upto(disk, hist[cur].id) - {hist[cur].id}
  {
    UptoPrev(c, hist, lo, cur, disk);
    StoredPrev(c, hist, lo, cur, disk);
    assert IsWhole(c, hist[cur - 1], disk);
    WholeHoldsAll(c, hist[cur - 1]);
  }

  lemma RemoveOneTail<R>(c: Codec<R>, disk: Disk, ids: seq<nat>)
    requires ids != [] && ids[|ids| - 1] in disk
    requires HasInitialRecord(c, disk[ids[|ids| - 1]].os) == Ok(false)
    ensures RemoveTails(c, disk, ids) == RemoveTails(c, disk - {ids[|ids| - 1]}, ids[..|ids| - 1])
  {
  }

  function Without(disk: Disk, ids: seq<nat>): Disk {
    map k | k in disk && k !in ids :: disk[k]
  }

  /** Files without a first record are removed one after the other. */
  lemma {:induction false} RemoveTrailing<R>(c: Codec<R>, disk: Disk, base: seq<nat>, extra: seq<nat>)
    requires forall j | 0 <= j < |extra| :: extra[j] in disk && HasInitialRecord(c, disk[extra[j]].os) == Ok(false)
    requires forall i, j | 0 <= i < j < |extra| :: extra[i] < extra[j]
    ensures RemoveTails(c, disk, base + extra) == RemoveTails(c, Without(disk, extra), base)
    decreases |extra|
  {
    hide RemoveTails, Without;
    WithoutLast(disk, extra);
    if extra == [] {
      assert base + extra == base;
    } else {
      var last, rest := extra[|extra| - 1], extra[..|extra| - 1];
      assert (base + extra)[..|base + extra| - 1] == base + rest;
      RemoveOneTail(c, disk, base + extra);
      RemoveTrailing(c, disk - {last}, base, rest);
    }
  }

  lemma WithoutLast(disk: Disk, ids: seq<nat>)
    ensures ids == [] ==> Without(disk, ids) == disk
    ensures ids != [] ==> Without(disk - {ids[|ids| - 1]}, ids[..|ids| - 1]) == Without(disk, ids)
  {
    if ids != [] {
      assert ids == ids[..|ids| - 1] + [ids[|ids| - 1]];
    }
  }

  /** The files after the last chunk with bytes are all removed. */
  lemma RemoveEmptyTails<R(!new)>(
    c: Codec<R>, hist: seq<ChunkLog<R>>, lo: nat, cur: nat, disk: Disk, ids: seq<nat>)
    requires Lawful(c) && Chained(c, hist) && Stored(c, hist, lo, cur, disk)
    requires IsListing(ids, disk.Keys)
    ensures RemoveTails(c, disk, ids) == RemoveTails(c, Upto(disk, hist[cur].id), LiveIds(hist, lo, cur))
  {
    hide RemoveTails, Without, Upto, Chained, Lawful, IsWhole, IsLive;
    ListedChunks(c, hist, lo, cur, disk, ids);
    var n := cur - lo + 1;
    var base, extra := ids[..n], ids[n..];
    assert ids == base + extra;
    RemoveTrailing(c, disk, base, extra);
    assert base[n - 1] == hist[cur].id;
    ListedUpto(disk, ids, n - 1);
  }

  lemma ListedUpto(disk: Disk, ids: seq<nat>, j: nat)
    requires IsListing(ids, disk.Keys) && j < |ids|
    ensures Without(disk, ids[j + 1..]) == Upto(disk, ids[j])
  {
    forall k | k in disk ensures k in ids[j + 1..] <==> k > ids[j] {
      var i :| 0 <= i < |ids| && ids[i] == k;
      if i > j {
        assert ids[j + 1..][i - j - 1] == k;
      }
    }
  }

  /**
   Removing incomplete tails never drops a whole record. With a record in
   chunk `cur` it keeps that chunk; without one it keeps the predecessor.
   */
  lemma RemoveTailsOfImage<R(!new)>(
    c: Codec<R>, hist: seq<ChunkLog<R>>, lo: nat, cur: nat, m: nat, disk: Disk, ids: seq<nat>)
    requires Lawful(c) && Chained(c, hist) && Image(c, hist, lo, cur, m, disk)
    requires IsListing(ids, disk.Keys)
    ensures m > 0 ==> RemoveTails(c, disk, ids) == Ok((Upto(disk, hist[cur].id), LiveIds(hist, lo, cur)))
    ensures m == 0 && lo < cur ==>
              RemoveTails(c, disk, ids) == Ok((Upto(disk, hist[cur - 1].id), LiveIds(hist, lo, cur - 1)))
    ensures m == 0 && lo == cur ==> RemoveTails(c, disk, ids) == Ok((map[], []))
  {
    RemoveEmptyTails(c, hist, lo, cur, disk, ids);
    var live, kept := LiveIds(hist, lo, cur), Upto(disk, hist[cur].id);
    assert live[|live| - 1] == hist[cur].id;
    InitialRecord(c, hist[cur].recs, m, kept[hist[cur].id].os);
    if m == 0 {
      RemoveOneTail(c, kept, live);
      if lo < cur {
        var prev := hist[cur - 1];
        DropCurrent(c, hist, lo, cur, disk);
        assert live[..|live| - 1] == LiveIds(hist, lo, cur - 1);
        InitialRecord(c, prev.recs, |prev.recs|, Upto(disk, prev.id)[prev.id].os);
      } else {
        assert live[..|live| - 1] == [];
        assert kept - {hist[cur].id} == map[];
      }
    }
  }
}
