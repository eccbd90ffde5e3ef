/** Records missing in the middle of a log are never skipped over: `open` reports them. */
module Damage {
  import opened Bytes
  import opened Codec
  import opened RecordStream
  import opened Log
  import opened Requests
  import opened Recovery
  import opened CrashImages
  import opened RecoveredLog
  import opened Opening

  /** A chunk that is not the last and has lost its end: an error, or a shorter chunk than its successor expects. */
  lemma ShortChunk<R(!new), S(!new)>(env: Env<R, S>, p: Progress<R, S>, ch: ChunkLog<R>, m: nat)
    requires EnvOk(env) && AllEncodable(env.codec, ch.recs) && ch.id in p.disk
    requires HoldsPrefix(env.codec, ch.recs, m, p.disk[ch.id].os) && p.disk[ch.id].os != Stream(env.codec, ch.recs)
    requires p.prevEnd == None || p.prevEnd == Some(ch.id)
    ensures var res := LoadOne(env, p, ch.id, false);
            res.Ok? ==> res.value.prevEnd.Some? && res.value.prevEnd.value < End(env.codec, ch)
  {
    hide Stream, Parse, ReplayChunks, Replay;
    if m == 0 {
      OpenPrefix(env.codec, ch.recs, 0, p.disk[ch.id], false);
      assert ch.recs[..0] == [];
    } else {
      assert ch.recs[..|ch.recs|] == ch.recs;
      LoadPrefix(env, p, ch, m, false);
      if p.disk[ch.id].os == Stream(env.codec, ch.recs[..m]) {
        StreamGrows(env.codec, ch.recs, m, |ch.recs|);
      }
    }
  }

  /** The next chunk then does not start where the short one ends. */
  lemma GapIsSeen<R, S>(env: Env<R, S>, p: Progress<R, S>, id: nat, canTruncate: bool)
    requires Bounded(env.codec) && p.prevEnd.Some? && p.prevEnd.value != id
    ensures LoadOne(env, p, id, canTruncate).Err?
  {
  }

  lemma LoadFails<R(!new), S(!new)>(
    env: Env<R, S>, hist: seq<ChunkLog<R>>, lo: nat, n: nat, cur: nat, m: nat, disk: Disk, ids: seq<nat>, start: S, truncate: bool)
    requires EnvOk(env) && ValidLog(env, hist) && lo <= n < cur < |hist| && ids == LiveIds(hist, lo, cur)
    requires forall i {:trigger IsWhole(env.codec, hist[i], disk)} | lo <= i < n :: IsWhole(env.codec, hist[i], disk)
    requires hist[n].id in disk && HoldsPrefix(env.codec, hist[n].recs, m, disk[hist[n].id].os)
    requires disk[hist[n].id].os != Stream(env.codec, hist[n].recs)
    ensures Load(env, disk, ids, |ids|, start, truncate).Err?
  {
    hide Stream, ReplayChunks, Load, LoadOne, HoldsPrefix, CheckpointFirst, LoadedLog, AllRecords;
    LoadWhole(env, hist, lo, n, disk, ids, start, truncate);
    var p, k := LoadedTo(env, hist, lo, n, disk, start), n - lo;
    if lo < n {
      ChunkFollows(env, hist, n);
    }
    ShortChunk(env, p, hist[n], m);
    LoadNext(env, disk, ids, k, start, truncate, p);
    var next := LoadOne(env, p, ids[k], false);
    if next.Ok? {
      ChunkFollows(env, hist, n + 1);
      GapIsSeen(env, next.value, ids[k + 1], truncate && k + 2 == |ids|);
      LoadNext(env, disk, ids, k + 1, start, truncate, next.value);
      LoadStops(env, disk, ids, k + 2, |ids|, start, truncate);
    } else {
      LoadStops(env, disk, ids, k + 1, |ids|, start, truncate);
    }
  }

  /**
   If any chunk but the last has lost records at its end, torn, zeroed or cut
   at a record boundary, `open` fails, also when it may truncate: it never
   replays later records after a hole.
   */
  lemma MissingRecordsAreReported<R(!new), S(!new)>(
    env: Env<R, S>, hist: seq<ChunkLog<R>>, lo: nat, n: nat, cur: nat, m: nat, disk: Disk, start: S, truncate: bool)
    requires EnvOk(env) && ValidLog(env, hist) && lo <= n < cur < |hist|
    requires forall i {:trigger IsWhole(env.codec, hist[i], disk)} | lo <= i < n :: IsWhole(env.codec, hist[i], disk)
    requires hist[n].id in disk && HoldsPrefix(env.codec, hist[n].recs, m, disk[hist[n].id].os)
    requires disk[hist[n].id].os != Stream(env.codec, hist[n].recs)
    requires hist[cur].id in disk && HasInitialRecord(env.codec, disk[hist[cur].id].os) == Ok(true)
    ensures Open(env, disk, LiveIds(hist, lo, cur), start, truncate).Err?
  {
    hide Stream, ReplayChunks, Load, HoldsPrefix, CheckpointFirst, HasInitialRecord, Chained, IsWhole;
    var ids := LiveIds(hist, lo, cur);
    LoadFails(env, hist, lo, n, cur, m, disk, ids, start, truncate);
    assert ids[|ids| - 1] == hist[cur].id;
    assert RemoveTails(env.codec, disk, ids) == Ok((disk, ids));
  }

  /** Whole records, and then bytes that are neither a record nor the start of one nor zero. */
  ghost predicate HoldsDamage<R>(c: Codec<R>, recs: seq<R>, m: nat, b: seq<Byte>) {
    m <= |recs| && Stream(c, recs[..m]) <= b && IsDamaged(c, b[|Stream(c, recs[..m])|..])
  }

  lemma OpenDamaged<R(!new)>(c: Codec<R>, recs: seq<R>, m: nat, f: File, canTruncate: bool)
    requires Lawful(c) && AllEncodable(c, recs) && HoldsDamage(c, recs, m, f.os)
    ensures OpenWithTruncate(c, f, canTruncate) == Err(DamagedRecord)
  {
    hide AllZero, Stream;
    var front := recs[..m];
    var body := Stream(c, front);
    var rest := f.os[|body|..];
    assert f.os[0..] == body + rest;
    ParseRecords(c, f.os, 0, front, rest);
    LayoutEnds(c, 0, front);
    NoZeros(rest);
  }

  lemma FirstOfDamaged<R(!new)>(c: Codec<R>, recs: seq<R>, m: nat, b: seq<Byte>)
    requires Lawful(c) && AllEncodable(c, recs) && HoldsDamage(c, recs, m, b)
    ensures HasInitialRecord(c, b) == if m > 0 then Ok(true) else Err(DamagedRecord)
  {
    hide AllZero;
    var body := Stream(c, recs[..m]);
    var rest := b[|body|..];
    if m == 0 {
      assert recs[..0] == [];
      assert b == rest;
      NoZeros(rest);
    } else {
      StreamHead(c, recs[..m]);
      var tail := Stream(c, recs[..m][1..]) + rest;
      assert b == body + rest == Bytes1(c, recs[0]) + tail;
      assert RoundTrips(c, recs[0], tail) && Encodable(c, recs[0]) && SizeIsHonest(c, recs[0]);
    }
  }

  lemma NoZeros(b: seq<Byte>)
    requires !AllZero(b)
    ensures b != []
  {
  }

  /**
   Damage in the last chunk is not mistaken for a write that a crash cut short:
   whether whole records come before it or not, `open` fails, also when it may
   truncate. By `Directory.OpenLocked` it then removes and cuts no such chunk.
   */
  lemma DamagedRecordIsReported<R(!new), S(!new)>(
    env: Env<R, S>, hist: seq<ChunkLog<R>>, lo: nat, cur: nat, m: nat, disk: Disk, start: S, truncate: bool)
    requires EnvOk(env) && ValidLog(env, hist) && lo <= cur < |hist|
    requires forall i {:trigger IsWhole(env.codec, hist[i], disk)} | lo <= i < cur :: IsWhole(env.codec, hist[i], disk)
    requires hist[cur].id in disk && HoldsDamage(env.codec, hist[cur].recs, m, disk[hist[cur].id].os)
    ensures Open(env, disk, LiveIds(hist, lo, cur), start, truncate) == Err(DamagedRecord)
  {
    hide Stream, ReplayChunks, Load, HoldsDamage, CheckpointFirst, HasInitialRecord, OpenWithTruncate, IsWhole, LoadedLog, AllRecords;
    var ids, f := LiveIds(hist, lo, cur), disk[hist[cur].id];
    OpenDamaged(env.codec, hist[cur].recs, m, f, truncate);
    FirstOfDamaged(env.codec, hist[cur].recs, m, f.os);
    assert ids[|ids| - 1] == hist[cur].id;
    if m > 0 {
      assert RemoveTails(env.codec, disk, ids) == Ok((disk, ids));
      LoadWhole(env, hist, lo, cur, disk, ids, start, truncate);
      LoadNext(env, disk, ids, cur - lo, start, truncate, LoadedTo(env, hist, lo, cur, disk, start));
      if lo < cur {
        ChunkFollows(env, hist, cur);
      }
    }
  }
}
