/** Every step of the main thread keeps the invariant. */
module MainSteps {
  import opened Bytes
  import opened Codec
  import opened Log
  import opened Requests
  import opened Backlog
  import opened CrashImages
  import opened System
  import opened Invariant

  // Growing the log

  lemma LiveExtends<R>(h: seq<ChunkLog<R>>, h': seq<ChunkLog<R>>, lo: nat, cur: nat, k: nat)
    requires Extends(h, h') && IsLive(h, lo, cur, k)
    ensures IsLive(h', lo, cur, k)
  {
    var i :| lo <= i <= cur && h[i].id == k;
    assert h'[i].id == k;
  }

  lemma StoredExtends<R>(c: Codec<R>, h: seq<ChunkLog<R>>, h': seq<ChunkLog<R>>, lo: nat, cur: nat, disk: Disk)
    requires Extends(h, h') && Stored(c, h, lo, cur, disk)
    ensures Stored(c, h', lo, cur, disk)
    ensures Stream(c, h[cur].recs) <= Stream(c, h'[cur].recs) && h'[cur].id == h[cur].id
  {
    hide Stream;
    forall i | lo <= i < cur ensures IsWhole(c, h'[i], disk) {
      assert IsWhole(c, h[i], disk);
    }
    forall k | k in disk && k <= h[cur].id ensures IsLive(h', lo, cur, k) {
      LiveExtends(h, h', lo, cur, k);
    }
    assert h[cur].recs <= h'[cur].recs;
    StreamSplit(c, h'[cur].recs, |h[cur].recs|);
    assert h'[cur].recs[..|h[cur].recs|] == h[cur].recs;
  }

  /** The files of a log that grew in memory only. */
  lemma OnDiskExtends<R(!new), S(!new)>(env: Env<R, S>, s: Sys<R, S>, s': Sys<R, S>)
    requires OnDisk(env, s) && Extends(s.hist, s'.hist) && ValidLog(env, s'.hist)
    requires s'.disk == s.disk && s'.lo == s.lo && s'.cur == s.cur && s'.sm == StateAfter(env, s'.hist)
    requires s'.careful == s.careful
    ensures OnDisk(env, s') && DurableEnd(s') == DurableEnd(s)
  {
    hide Stream, StateAfter, Chained, CheckpointFirst;
    StoredExtends(env.codec, s.hist, s'.hist, s.lo, s.cur, s.disk);
    FirstExtends(env.codec, s.hist, s'.hist, s.cur, CurFile(s).dur, s.lo);
  }

  lemma FirstExtends<R>(c: Codec<R>, h: seq<ChunkLog<R>>, h': seq<ChunkLog<R>>, cur: nat, dur: nat, n: nat)
    requires Extends(h, h')
    ensures FirstIsDurable(c, h, cur, dur, n) ==> FirstIsDurable(c, h', cur, dur, n)
  {
    if n == cur < |h| && h[cur].recs != [] {
      assert h[cur].recs <= h'[cur].recs;
    }
  }

  lemma EndsOkExtends<R>(c: Codec<R>, h: seq<ChunkLog<R>>, h': seq<ChunkLog<R>>, cur: nat, writes: seq<WriteReq>, limit: nat)
    requires Extends(h, h') && cur < |h| && EndsOk(c, h[cur], writes, limit)
    ensures EndsOk(c, h'[cur], writes, limit)
  {
    hide Stream;
    forall i | 0 <= i < |writes| ensures EndOk(c, h'[cur], writes[i], limit) {
      assert EndOk(c, h[cur], writes[i], limit);
      var k: nat :| IsMark(c, h[cur], writes[i].upto, k);
      assert h[cur].recs <= h'[cur].recs;
      assert h'[cur].recs[..k] == h[cur].recs[..k];
      assert IsMark(c, h'[cur], writes[i].upto, k);
    }
  }

  /** The worker's side is untouched by a log that grew. */
  lemma WorkerExtends<R(!new), S(!new)>(env: Env<R, S>, s: Sys<R, S>, s': Sys<R, S>)
    requires Placed(s) && Placed(s') && Extends(s.hist, s'.hist) && s'.cur == s.cur
    requires s'.worker.phase == s.worker.phase && CurFile(s') == CurFile(s) && BatchOk(env, s)
    ensures BatchOk(env, s')
  {
    hide Stream, EndsOk;
    var c, f, id := env.codec, CurFile(s), s.hist[s.cur].id;
    match s.worker.phase
    case Writing(b, rest) => EndsOkExtends(c, s.hist, s'.hist, s.cur, b.writes, id + |f.os| + |rest|);
    case Syncing(b) => EndsOkExtends(c, s.hist, s'.hist, s.cur, b.writes, id + |f.os|);
    case Replying(b, _) => EndsOkExtends(c, s.hist, s'.hist, s.cur, b.writes, id + |f.os|);
    case _ =>
  }

  lemma ValidIsChained<R, S>(env: Env<R, S>, hist: seq<ChunkLog<R>>)
    requires ValidLog(env, hist)
    ensures hist != [] && Chained(env.codec, hist)
    ensures forall i | 0 <= i < |hist| :: hist[i].recs != []
  {
  }

  lemma OnDiskPlaced<R(!new), S(!new)>(env: Env<R, S>, s: Sys<R, S>)
    requires OnDisk(env, s)
    ensures Placed(s) && s.lo <= s.cur
  {
  }

  // Append

  lemma OffsetsAppend<R>(c: Codec<R>, ch: ChunkLog<R>, r: R)
    ensures Last(Offsets(c, ch)) == End(c, ch)
    ensures Offsets(c, ChunkLog(ch.id, ch.recs + [r])) == Offsets(c, ch) + [End(c, ch) + |Bytes1(c, r)|]
  {
    var ch' := ChunkLog(ch.id, ch.recs + [r]);
    assert ch.recs[..|ch.recs|] == ch.recs;
    assert ch'.recs[..|ch'.recs|] == ch'.recs;
    StreamAppend(c, ch.recs, r);
    forall k | 0 <= k <= |ch.recs| ensures Offsets(c, ch')[k] == Offsets(c, ch)[k] {
      assert ch'.recs[..k] == ch.recs[..k];
    }
  }

  lemma AppendIndex<R(!new), S(!new)>(env: Env<R, S>, s: Sys<R, S>, r: R)
    requires EnvOk(env) && IndexOk(env, s) && Encodable(env.codec, r)
    ensures IndexOk(env, s.(main := Appended(env.codec, s.main, r), hist := WithRecord(s.hist, r), sm := env.apply(s.sm, r)))
    ensures Appended(env.codec, s.main, r) ==
            s.main.(offsets := Appended(env.codec, s.main, r).offsets, pending := s.main.pending + Bytes1(env.codec, r))
    ensures |WithRecord(s.hist, r)| == |s.hist|
  {
    hide Stream, Offsets;
    var n := |s.hist| - 1;
    var hist' := WithRecord(s.hist, r);
    assert SizeIsHonest(env.codec, r);
    OffsetsAppend(env.codec, s.hist[n], r);
    forall j: nat | j < |s.main.closed| ensures ClosedOk(env, hist', s.drained + j, s.main.closed[j]) {
      assert ClosedOk(env, s.hist, s.drained + j, s.main.closed[j]);
      assert s.hist[s.drained + j + 1].recs <= hist'[s.drained + j + 1].recs;
    }
  }

  lemma AppendFlows<R(!new), S(!new)>(env: Env<R, S>, s: Sys<R, S>, s': Sys<R, S>, r: R)
    requires Flows(env, s) && Placed(s') && s.hist[|s.hist| - 1].recs != []
    requires s'.hist == WithRecord(s.hist, r) && Extends(s.hist, s'.hist)
    requires PosOf(s') == PosOf(s) && Todo(s') == Todo(s) && s'.purged == s.purged
    requires s'.main.pending == s.main.pending + Bytes1(env.codec, r)
    ensures Flows(env, s')
  {
    hide Stream, Runs, Final, PosOf, Todo;
    var p, n := Promised(s), |s.hist| - 1;
    RunsExtends(env.codec, s.hist, s'.hist, PosOf(s), Todo(s));
    StreamAppend(env.codec, s.hist[n].recs, r);
    assert p.have + (s.main.pending + Bytes1(env.codec, r)) == (p.have + s.main.pending) + Bytes1(env.codec, r);
  }

  lemma FilesExtends<R, S>(s: Sys<R, S>, s': Sys<R, S>)
    requires FilesOk(s) && Extends(s.hist, s'.hist) && |s'.hist| == |s.hist|
    requires s'.disk == s.disk && s'.cur == s.cur && s'.worker == s.worker && s.sending == None && s'.sending == None
    ensures FilesOk(s')
  {
    forall k | k in s.disk && k > s.hist[s.cur].id ensures IsLive(s'.hist, s.cur, |s.hist| - 1, k) {
      LiveExtends(s.hist, s'.hist, s.cur, |s.hist| - 1, k);
    }
  }

  lemma AppendStep<R(!new), S(!new)>(env: Env<R, S>, s: Sys<R, S>, r: R, s': Sys<R, S>)
    requires Core(env, s) && Encodable(env.codec, r) && s.hist != [] && s.sending == None
    requires s' == s.(main := Appended(env.codec, s.main, r), hist := WithRecord(s.hist, r), sm := env.apply(s.sm, r))
    ensures Core(env, s') && Preserves(env, s, s')
  {
    hide FirstIsDurable, Runs, Final, BatchOk, FilesOk, Offsets, ReplayChunks, Preserves, RepliesOk, Stream,
    IndexOk, Appended, Extends, ValidLog, WithRecord, IsWhole, IsLive;
    ValidIsChained(env, s.hist);
    WithRecordValid(env, s.hist, r);
    AppendIndex(env, s, r);
    OnDiskExtends(env, s, s');
    ExtendsIds(s.hist, s'.hist);
    ExtendingStep(env, s, s');
    RepliesStayOk(env, s, s');
    if s.worker.status == Running {
      assert PosOf(s') == PosOf(s);
      AppendFlows(env, s, s', r);
      FilesExtends(s, s');
      WorkerExtends(env, s, s');
    }
  }

  lemma ExtendsIds<R>(h: seq<ChunkLog<R>>, h': seq<ChunkLog<R>>)
    requires Extends(h, h')
    ensures |h| <= |h'| && forall i | 0 <= i < |h| :: h'[i].id == h[i].id
  {
  }

  // Sending

  lemma TodoReserve<R, S>(s: Sys<R, S>, req: Request<R>)
    requires s.sending == None && !req.AppendFile?
    ensures Todo(Reserving(s, req)) == Todo(s) + [req]
  {
  }

  /** Queueing a reserved request does not change what is left to do; the file of a new chunk is added to it. */
  lemma TodoEnqueue<R, S>(s: Sys<R, S>, req: Request<R>)
    requires s.sending == Some(req)
    ensures Todo(Enqueued(s, req)) == if req.AppendFile? then Todo(s) + [req] else Todo(s)
  {
    assert Reqs(s.queue + [SeqRequest(s.main.sent + 1, req)]) == Reqs(s.queue) + [req];
    assert Reqs(s.queue) + [] == Reqs(s.queue);
  }

  /** A step that leaves the log, the files and the worker alone. */
  ghost predicate SameStore<R, S>(s: Sys<R, S>, s': Sys<R, S>) {
    && s'.hist == s.hist && s'.disk == s.disk && s'.lo == s.lo && s'.cur == s.cur && s'.sm == s.sm
    && s'.notes == s.notes && s'.replies == s.replies && s'.careful == s.careful
  }

  lemma SameStoreInv<R(!new), S(!new)>(env: Env<R, S>, s: Sys<R, S>, s': Sys<R, S>)
    requires OnDisk(env, s) && RepliesOk(env, s) && SameStore(s, s')
    ensures OnDisk(env, s') && RepliesOk(env, s') && Preserves(env, s, s')
    ensures Placed(s) && Placed(s') && PosOf(s') == PosOf(s)
    ensures s'.worker.files == s.worker.files && Creating(s') == Creating(s) && FilesOk(s) ==> FilesOk(s')
    ensures s'.worker.phase == s.worker.phase && BatchOk(env, s) ==> BatchOk(env, s')
  {
    hide ValidLog, IsWhole, IsLive, Stream, FirstIsDurable, EndsOk, StateAfter;
    ExtendingStep(env, s, s');
    RepliesStayOk(env, s, s');
  }

  /** One more request that is in order after all others keeps the flow. */
  lemma AddFlows<R, S>(env: Env<R, S>, s: Sys<R, S>, s': Sys<R, S>, req: Request<R>)
    requires Flows(env, s) && Placed(s') && PosOf(s') == PosOf(s) && Todo(s') == Todo(s) + [req]
    requires Runs(env.codec, s'.hist, PosOf(s), Todo(s))
    requires Allowed(env.codec, s'.hist, Promised(s), req) && EndsAt(env, s', Advance(Promised(s), req))
    ensures Flows(env, s')
    ensures Promised(s') == Advance(Promised(s), req)
  {
    hide Runs, Final, Allowed, Advance, Stream, PosOf, EndsAt, Todo;
    RunsAppend(env.codec, s'.hist, PosOf(s), Todo(s), req);
  }

  lemma EndsSame<R, S>(env: Env<R, S>, s: Sys<R, S>, s': Sys<R, S>, p: Pos)
    requires EndsAt(env, s, p) && s'.hist == s.hist && s'.purged == s.purged && s'.main.pending == s.main.pending
    ensures EndsAt(env, s', p)
  {
  }

  /** The pending bytes are in order as the next write. */
  lemma PendingAllowed<R, S>(env: Env<R, S>, s: Sys<R, S>, sync: bool, cb: Option<nat>)
    requires Flows(env, s) && IndexOk(env, s)
    ensures var w := PendingWrite(s.main, sync, cb);
            && Allowed(env.codec, s.hist, Promised(s), Write(w))
            && EndsAt(env, s.(main := s.main.(pending := [])), Wrote(Promised(s), w))
  {
    hide Stream, Runs, Final;
    var last := s.hist[|s.hist| - 1];
    assert last.recs[..|last.recs|] == last.recs;
    assert IsMark(env.codec, last, End(env.codec, last), |last.recs|);
    var p := Promised(s);
    assert (p.have + s.main.pending) + [] == Stream(env.codec, last.recs);
  }

  lemma SendPendingStep<R(!new), S(!new)>(env: Env<R, S>, s: Sys<R, S>, sync: bool, cb: Option<nat>, s': Sys<R, S>)
    requires Core(env, s) && MainFree(s)
    requires Reserves(env, s.(main := s.main.(pending := [])), Write(PendingWrite(s.main, sync, cb)), s')
    ensures Core(env, s') && Preserves(env, s, s')
    ensures s.worker.status == Running && sync ==> Placed(s') && Settled(s')
  {
    hide OnDisk, RepliesOk, Preserves, FilesOk, BatchOk, EndsAt, Stream, Allowed, Runs, Final, Todo, ClosedOk;
    var taken := s.(main := s.main.(pending := []));
    SameStoreInv(env, s, s');
    if s.worker.status == Running {
      var req: Request<R> := Write(PendingWrite(s.main, sync, cb));
      PendingAllowed(env, s, sync, cb);
      TodoReserve(taken, req);
      TodoTaken(s, taken);
      EndsSame(env, taken, s', Advance(Promised(s), req));
      AddFlows(env, s, s', req);
    }
  }

  lemma TodoTaken<R, S>(s: Sys<R, S>, s': Sys<R, S>)
    requires s'.worker.phase == s.worker.phase && s'.queue == s.queue && s'.sending == s.sending
    ensures Todo(s') == Todo(s)
  {
  }

  lemma SendRemoveStep<R(!new), S(!new)>(env: Env<R, S>, s: Sys<R, S>, n: nat, s': Sys<R, S>)
    requires Core(env, s) && MainFree(s) && Placed(s) && DoesSendRemove(env, s, n, s')
    ensures Core(env, s') && Preserves(env, s, s')
  {
    hide OnDisk, RepliesOk, Preserves, FilesOk, BatchOk, Stream, Runs, Final, Todo, ClosedOk, FirstIsDurable;
    SameStoreInv(env, s, s');
    if s.worker.status == Running {
      var req: Request<R> := RemoveChunks(IdsFrom(s.hist, s.purged, n));
      var marked := s.(purged := s.purged + n);
      TodoReserve(marked, req);
      TodoTaken(s, marked);
      CarefulStays(PosOf(s), Todo(s));
      AddFlows(env, s, s', req);
    }
  }

  lemma DrainStep<R(!new), S(!new)>(env: Env<R, S>, s: Sys<R, S>, n: nat, s': Sys<R, S>)
    requires Core(env, s) && MainFree(s) && n <= |s.main.closed|
    requires s' == s.(main := s.main.(closed := s.main.closed[n..]), drained := s.drained + n)
    ensures Core(env, s') && Preserves(env, s, s')
  {
    hide OnDisk, RepliesOk, Preserves, FilesOk, BatchOk, Stream, Runs, Final;
    SameStoreInv(env, s, s');
    forall j: nat | j < |s'.main.closed| ensures ClosedOk(env, s.hist, s'.drained + j, s'.main.closed[j]) {
      assert ClosedOk(env, s.hist, s.drained + (n + j), s.main.closed[n + j]);
    }
    TodoTaken(s, s');
  }

  lemma CloseStep<R(!new), S(!new)>(env: Env<R, S>, s: Sys<R, S>, s': Sys<R, S>)
    requires Core(env, s) && MainFree(s) && s' == s.(main := s.main.(open := false))
    ensures Core(env, s') && Preserves(env, s, s')
  {
    hide OnDisk, RepliesOk, Preserves, FilesOk, BatchOk, Stream, Runs, Final, ClosedOk;
    SameStoreInv(env, s, s');
    TodoTaken(s, s');
  }

  // Rotation

  /** A new empty file after the current one changes nothing about the stored chunks. */
  lemma StoredCreate<R>(c: Codec<R>, hist: seq<ChunkLog<R>>, lo: nat, cur: nat, disk: Disk, id: nat)
    requires Stored(c, hist, lo, cur, disk) && id !in disk && id > hist[cur].id
    ensures Stored(c, hist, lo, cur, disk[id := EMPTY_FILE])
  {
    hide Stream;
    forall i | lo <= i < cur ensures IsWhole(c, hist[i], disk[id := EMPTY_FILE]) {
      assert IsWhole(c, hist[i], disk);
    }
  }

  /** Another content of the current file changes nothing about the chunks before it. */
  lemma StoredCurrent<R(!new)>(c: Codec<R>, hist: seq<ChunkLog<R>>, lo: nat, cur: nat, disk: Disk, f: File)
    requires Lawful(c) && Chained(c, hist) && Stored(c, hist, lo, cur, disk)
    ensures Stored(c, hist, lo, cur, disk[hist[cur].id := f])
  {
    hide Stream;
    forall i | lo <= i < cur ensures IsWhole(c, hist[i], disk[hist[cur].id := f]) {
      IdsIncrease(c, hist, i, cur);
      assert IsWhole(c, hist[i], disk);
    }
  }

  /** The id of a new chunk is beyond every chunk. */
  lemma EndIsBeyond<R(!new), S(!new)>(env: Env<R, S>, hist: seq<ChunkLog<R>>, cur: nat)
    requires EnvOk(env) && ValidLog(env, hist) && cur < |hist|
    ensures End(env.codec, hist[|hist| - 1]) > hist[cur].id
  {
    hide Stream;
    ChunkNotEmpty(env.codec, hist[|hist| - 1]);
    if cur < |hist| - 1 {
      IdsIncrease(env.codec, hist, cur, |hist| - 1);
    }
  }

  /** Creating the successor's file. */
  lemma CreateFile<R(!new), S(!new)>(env: Env<R, S>, s: Sys<R, S>, id: nat)
    requires OnDisk(env, s) && RepliesOk(env, s) && id !in s.disk && id == End(env.codec, s.hist[|s.hist| - 1])
    ensures var s' := s.(disk := s.disk[id := EMPTY_FILE]);
            && OnDisk(env, s') && RepliesOk(env, s') && Preserves(env, s, s')
            && Placed(s') && PosOf(s') == PosOf(s) && CurFile(s') == CurFile(s) && id > s.hist[s.cur].id
  {
    hide Stream, ReplayChunks, FirstIsDurable, Chained, CheckpointFirst;
    var s' := s.(disk := s.disk[id := EMPTY_FILE]);
    EndIsBeyond(env, s.hist, s.cur);
    StoredCreate(env.codec, s.hist, s.lo, s.cur, s.disk, id);
    ExtendingStep(env, s, s');
    RepliesStayOk(env, s, s');
  }

  lemma RotatedIndex<R(!new), S(!new)>(env: Env<R, S>, s: Sys<R, S>, s': Sys<R, S>)
    requires EnvOk(env) && IndexOk(env, s) && s.sm == StateAfter(env, s.hist)
    requires s'.hist == WithChunk(env, s.hist) && s'.drained == s.drained && s'.purged == s.purged
    requires s'.main.offsets == Rotated(env.codec, s.main, env.checkpoint(s.sm)).offsets
    requires s'.main.closed == Rotated(env.codec, s.main, env.checkpoint(s.sm)).closed
    ensures IndexOk(env, s')
  {
    hide Stream, Offsets, StateAfter;
    var ck, last := env.checkpoint(s.sm), s.hist[|s.hist| - 1];
    assert SizeIsHonest(env.codec, ck) && Encodable(env.codec, ck);
    OffsetsAppend(env.codec, last, ck);
    var started := ChunkLog(End(env.codec, last), []);
    OffsetsAppend(env.codec, started, ck);
    assert [] + [ck] == [ck];
    EmptyOffsets(env.codec, started.id);
    forall j: nat | j < |s'.main.closed| ensures ClosedOk(env, s'.hist, s.drained + j, s'.main.closed[j]) {
      if j < |s.main.closed| {
        assert ClosedOk(env, s.hist, s.drained + j, s.main.closed[j]);
      }
    }
  }

  lemma EmptyOffsets<R>(c: Codec<R>, id: nat)
    ensures Offsets(c, ChunkLog<R>.ChunkLog(id, [])) == [id] && End(c, ChunkLog<R>.ChunkLog(id, [])) == id
  {
  }

  /** Attaching the successor is in order once everything before it is queued with a sync. */
  lemma AttachAllowed<R(!new), S(!new)>(env: Env<R, S>, s: Sys<R, S>, hist': seq<ChunkLog<R>>, pending: seq<Byte>)
    requires EnvOk(env) && Flows(env, s) && Settled(s) && s.sm == StateAfter(env, s.hist)
    requires hist' == WithChunk(env, s.hist)
    ensures var ck := env.checkpoint(s.sm);
            var req := AppendFile(FileEntry(End(env.codec, s.hist[|s.hist| - 1]), Some(ck)));
            && Allowed(env.codec, hist', Promised(s), req)
            && Advance(Promised(s), req) == Pos(|s.hist|, [], 0, false, s.purged, Promised(s).careful)
            && Stream(env.codec, hist'[|s.hist|].recs) == Bytes1(env.codec, ck)
  {
    hide Stream, Runs, Final, StateAfter;
    var p := Promised(s);
    assert p.have + [] == p.have;
    StreamOne(env.codec, env.checkpoint(s.sm));
  }

  lemma SwapFiles<R(!new), S(!new)>(env: Env<R, S>, s: Sys<R, S>, s': Sys<R, S>)
    requires FilesOk(s) && s'.worker.files == s.worker.files && s'.cur == s.cur && s'.disk == s.disk
    requires s'.hist == WithChunk(env, s.hist) && Creating(s) == {s'.hist[|s.hist|].id} && s'.sending == None
    requires s'.hist[|s.hist|].id in s.disk
    ensures FilesOk(s')
  {
    hide ReplayChunks, Stream;
    forall k | k in s'.disk && k > s'.hist[s'.cur].id ensures IsLive(s'.hist, s'.cur, |s'.hist| - 1, k) {
      if k in Creating(s) {
        assert s'.hist[|s.hist|].id == k;
      } else {
        var i :| s.cur <= i <= |s.hist| - 1 && s.hist[i].id == k;
        assert s'.hist[i].id == k;
      }
    }
  }

  lemma RotatedMain<R(!new), S(!new)>(env: Env<R, S>, m: Main<R>, ck: R)
    requires EnvOk(env) && Encodable(env.codec, ck)
    ensures Rotated(env.codec, m, ck).pending == Bytes1(env.codec, ck)
  {
    assert [] + Bytes1(env.codec, ck) == Bytes1(env.codec, ck);
  }

  /** The log after the swap: a chunk with the checkpoint, in memory and as an empty file. */
  lemma SwapStep<R(!new), S(!new)>(env: Env<R, S>, s: Sys<R, S>)
    requires Core(env, s)
    ensures s.hist != [] && Last(s.main.offsets) == End(env.codec, s.hist[|s.hist| - 1])
    ensures var swapped := Swapped(env, s);
            && OnDisk(env, swapped) && IndexOk(env, swapped) && RepliesOk(env, swapped) && Preserves(env, s, swapped)
            && Placed(swapped) && PosOf(swapped) == PosOf(s) && CurFile(swapped) == CurFile(s)
            && Extends(s.hist, swapped.hist)
  {
    hide Stream, ReplayChunks, FirstIsDurable, Chained, CheckpointFirst, Stored, Rotated, RepliesOk, ClosedOk, Runs,
    FilesOk, BatchOk, Preserves;
    var swapped := Swapped(env, s);
    OnDiskPlaced(env, s);
    ValidIsChained(env, s.hist);
    OffsetsAppend(env.codec, s.hist[|s.hist| - 1], env.checkpoint(s.sm));
    WithChunkValid(env, s.hist);
    OnDiskExtends(env, s, swapped);
    RotatedIndex(env, s, swapped);
    ExtendsIds(s.hist, swapped.hist);
    ExtendingStep(env, s, swapped);
    RepliesStayOk(env, s, swapped);
  }

  lemma SwapFlows<R(!new), S(!new)>(env: Env<R, S>, s: Sys<R, S>, e: FileEntry<R>, s': Sys<R, S>)
    requires Inv(env, s) && s.worker.status == Running && s.sending == Some(AppendFile(e)) && s.hist != []
    requires s' == Enqueued(Swapped(env, s), AppendFile(e))
    ensures Placed(s') && PosOf(s') == PosOf(s) && Flows(env, s')
  {
    hide Stream, ReplayChunks, FirstIsDurable, Stored, Rotated, RepliesOk, ClosedOk, Runs, Preserves,
    Final, Todo, PosOf, BatchOk, FilesOk, ValidLog, Allowed, Advance, IndexOk, WithChunk;
    SwapStep(env, s);
    var swapped := Swapped(env, s);
    AttachAllowed(env, s, swapped.hist, swapped.main.pending);
    RotatedMain(env, s.main, env.checkpoint(s.sm));
    ValidIsChained(env, s.hist);
    RunsExtends(env.codec, s.hist, swapped.hist, PosOf(s), Todo(s));
    TodoEnqueue(swapped, AppendFile(e));
    TodoTaken(s, swapped);
    PosEnqueued(swapped, AppendFile(e));
    SwapLength(env, s);
    AddFlows(env, s, s', AppendFile(e));
  }

  lemma SwapLength<R, S>(env: Env<R, S>, s: Sys<R, S>)
    requires s.hist != []
    ensures |WithChunk(env, s.hist)| == |s.hist| + 1 && Swapped(env, s).hist == WithChunk(env, s.hist)
    ensures WithChunk(env, s.hist)[|s.hist|].id == End(env.codec, s.hist[|s.hist| - 1])
  {
  }

  lemma PosEnqueued<R, S>(s: Sys<R, S>, req: Request<R>)
    requires Placed(s)
    ensures Placed(Enqueued(s, req)) && PosOf(Enqueued(s, req)) == PosOf(s)
  {
  }

  lemma PreservesSame<R, S>(env: Env<R, S>, s: Sys<R, S>, s1: Sys<R, S>, s': Sys<R, S>)
    requires Preserves(env, s, s1) && SameStore(s1, s')
    ensures Preserves(env, s, s')
  {
    hide OnMark, Keeps;
    forall u | Durable(env, s, u) ensures Durable(env, s', u) && Keeps(env.codec, s.hist, s'.hist, u) {
      assert Durable(env, s1, u);
    }
  }

  lemma IndexSame<R, S>(env: Env<R, S>, s: Sys<R, S>, s': Sys<R, S>)
    requires IndexOk(env, s) && s'.hist == s.hist && s'.drained == s.drained && s'.purged == s.purged
    requires s'.main.offsets == s.main.offsets && s'.main.closed == s.main.closed
    ensures IndexOk(env, s')
  {
  }

  /** The new file appears, and nothing else changes yet. */
  lemma RotateStep<R(!new), S(!new)>(env: Env<R, S>, s: Sys<R, S>, s': Sys<R, S>)
    requires Core(env, s) && MainFree(s) && Placed(s) && DoesRotate(env, s, s')
    ensures Core(env, s') && Preserves(env, s, s') && (s.worker.status == Running ==> Settled(s'))
    ensures Last(s.main.offsets) in s'.disk
  {
    hide Stream, ReplayChunks, Rotated, RepliesOk, Preserves, Runs, Final, PosOf, BatchOk, OnDisk, ClosedOk, IsFull, IsLive,
    Inflight;
    var id, n := Last(s.main.offsets), |s.hist| - 1;
    var created := s.(disk := s.disk[id := EMPTY_FILE]);
    OffsetsAppend(env.codec, s.hist[n], env.checkpoint(s.sm));
    CreateFile(env, s, id);
    SameStoreInv(env, created, s');
    PreservesSame(env, s, created, s');
    IndexSame(env, s, s');
    OnDiskEnd(env, s);
    if s.worker.status == Running {
      RotateTodo(s, s');
      EndsSame(env, s, s', Promised(s));
      BatchSame(env, s, s');
    }
  }

  lemma OnDiskEnd<R(!new), S(!new)>(env: Env<R, S>, s: Sys<R, S>)
    requires OnDisk(env, s)
    ensures s.hist != [] && End(env.codec, s.hist[|s.hist| - 1]) > s.hist[|s.hist| - 1].id
  {
    hide Stream, ReplayChunks, Stored;
    EndIsBeyond(env, s.hist, |s.hist| - 1);
  }

  lemma RotateTodo<R, S>(s: Sys<R, S>, s': Sys<R, S>)
    requires s.sending == None && s'.sending.Some? && s'.sending.value.AppendFile?
    requires s'.worker.phase == s.worker.phase && s'.queue == s.queue
    ensures Todo(s') == Todo(s)
  {
  }

  lemma BatchSame<R, S>(env: Env<R, S>, s: Sys<R, S>, s': Sys<R, S>)
    requires Placed(s) && Placed(s') && s'.hist == s.hist && s'.cur == s.cur && CurFile(s') == CurFile(s)
    requires s'.worker.phase == s.worker.phase && BatchOk(env, s)
    ensures BatchOk(env, s')
  {
    hide EndsOk;
  }

  /** A reserved request joins the queue; with a new file the chunks are swapped. */
  lemma EnqueueStep<R(!new), S(!new)>(env: Env<R, S>, s: Sys<R, S>, s': Sys<R, S>)
    requires Inv(env, s) && Placed(s) && DoesEnqueue(env, s, s')
    ensures Inv(env, s') && Preserves(env, s, s') && s'.sending == None
    ensures s.worker.status == Running && !s.sending.value.AppendFile? && Settled(s) ==> Placed(s') && Settled(s')
  {
    if s.sending.value.AppendFile? {
      EnqueueFile(env, s, s.sending.value.entry, s');
    } else {
      EnqueuePlain(env, s, s.sending.value, s');
    }
  }

  lemma EnqueuePlain<R(!new), S(!new)>(env: Env<R, S>, s: Sys<R, S>, req: Request<R>, s': Sys<R, S>)
    requires Inv(env, s) && Placed(s) && s.sending == Some(req) && !req.AppendFile? && s' == Enqueued(s, req)
    ensures Inv(env, s') && Preserves(env, s, s')
    ensures s.worker.status == Running && Settled(s) ==> Placed(s') && Settled(s')
  {
    hide OnDisk, RepliesOk, Preserves, FilesOk, BatchOk, Stream, Runs, Final, Todo, ClosedOk, EndsAt;
    SameStoreInv(env, s, s');
    IndexSame(env, s, s');
    if s.worker.status == Running {
      TodoEnqueue(s, req);
      EndsSame(env, s, s', Promised(s));
    }
  }

  lemma EnqueueFile<R(!new), S(!new)>(env: Env<R, S>, s: Sys<R, S>, e: FileEntry<R>, s': Sys<R, S>)
    requires Inv(env, s) && Placed(s) && s.sending == Some(AppendFile(e)) && s.hist != []
    requires s' == Enqueued(Swapped(env, s), AppendFile(e))
    ensures Inv(env, s') && Preserves(env, s, s')
  {
    hide Stream, ReplayChunks, Rotated, RepliesOk, Preserves, Runs, Final, Todo, PosOf, BatchOk, FilesOk, OnDisk, IndexOk,
    Extends, Flows, WithChunk, Settled;
    SwapStep(env, s);
    SwapLength(env, s);
    var swapped := Swapped(env, s);
    SameStoreInv(env, swapped, s');
    PreservesSame(env, s, swapped, s');
    IndexSame(env, swapped, s');
    if s.worker.status == Running {
      SwapFlows(env, s, e, s');
      SwapFiles(env, s, s');
      WorkerExtends(env, s, s');
    }
  }

  /** A send to a queue without a receiver leaves log and files alone. */
  lemma SendFailsStep<R(!new), S(!new)>(env: Env<R, S>, s: Sys<R, S>, s': Sys<R, S>)
    requires Inv(env, s) && DoesSendFail(s, s')
    ensures Inv(env, s') && Preserves(env, s, s')
  {
    hide OnDisk, RepliesOk, Preserves, FilesOk, BatchOk, Flows, ClosedOk;
    SameStoreInv(env, s, s');
    IndexSame(env, s, s');
  }
}
