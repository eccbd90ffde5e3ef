/** The theorems about whole runs: any number of appends, rotations, purges, failures, crashes and recoveries. */
module Durability {
  import opened Bytes
  import opened Codec
  import opened RecordStream
  import opened Log
  import opened Requests
  import opened Backlog
  import opened Recovery
  import opened CrashImages
  import opened RecoveredLog
  import opened System
  import opened Invariant
  import opened MainSteps
  import opened WorkerSteps
  import opened Crashes

  // Every step

  lemma MainStepKeeps<R(!new), S(!new)>(env: Env<R, S>, s: Sys<R, S>, step: Step<R>, s': Sys<R, S>)
    requires Inv(env, s) && Placed(s) && MainStep(env, s, step, s')
    ensures Inv(env, s') && Preserves(env, s, s')
  {
    hide Core, Preserves, DoesRotate, DoesSendRemove, DoesEnqueue, DoesSendFail, Reserves, Appended, WithRecord;
    match step
    case Append(r) =>
      if Encodable(env.codec, r) && s.hist != [] {
        AppendStep(env, s, r, s');
      } else {
        PreservesSelf(env, s, s');
      }
    case SendPending(sync, cb) => SendPendingStep(env, s, sync, cb, s'); ReservesSendOk(env, s, step, s');
    case Rotate => RotateStep(env, s, s'); OnDiskOf(env, s'); RotateSendOk(env, s, s');
    case Drain(n) => DrainStep(env, s, n, s');
    case SendRemove(n) => SendRemoveStep(env, s, n, s'); ReservesSendOk(env, s, step, s');
    case Enqueue => EnqueueStep(env, s, s');
    case SendFails => SendFailsStep(env, s, s');
    case Close => CloseStep(env, s, s');
  }

  lemma ReservesSendOk<R(!new), S(!new)>(env: Env<R, S>, s: Sys<R, S>, step: Step<R>, s': Sys<R, S>)
    requires SendOk(env, s) && Placed(s) && MainStep(env, s, step, s') && (step.SendPending? || step.SendRemove?)
    ensures SendOk(env, s')
  {
    hide Settled, Promised, FirstIsDurable, IdsFrom;
  }

  lemma RotateSendOk<R(!new), S(!new)>(env: Env<R, S>, s: Sys<R, S>, s': Sys<R, S>)
    requires SendOk(env, s) && Placed(s) && DoesRotate(env, s, s')
    requires s.worker.status == Running ==> Placed(s') && Settled(s')
    ensures SendOk(env, s')
  {
    hide Settled, IsFull;
  }

  lemma FinishStep<R(!new), S(!new)>(env: Env<R, S>, s: Sys<R, S>, s': Sys<R, S>)
    requires Core(env, s) && Placed(s) && s.worker.status == Running && DoesFinish(s, s')
    ensures Core(env, s') && Preserves(env, s, s') && (Settled(s) ==> Settled(s'))
  {
    hide Core, Preserves, Settled, Completed;
    var n := s.worker.phase.lastSeq;
    match s.worker.phase.next
    case None => FinishNone(env, s, s', n);
    case Some(sr) =>
      match sr.req
      case AppendFile(e) => FinishAppend(env, s, s', e, Max(n, sr.seqNo));
      case RemoveChunks(_) => FinishRemove(env, s, s', Max(n, sr.seqNo));
  }

  lemma WorkerCore<R(!new), S(!new)>(env: Env<R, S>, s: Sys<R, S>, step: Step<R>, s': Sys<R, S>)
    requires Core(env, s) && Placed(s) && WorkerStep(s, step, s')
    ensures Core(env, s') && Preserves(env, s, s')
    ensures s'.worker.status == Running && Settled(s) ==> Settled(s')
  {
    hide Core, Preserves, Settled, DoesTakeWrites, DoesUnlink, DoesFinish, Data, NeedsSync, Grown, Synced;
    match step
    case TakeWrites(n, withNext) => TakeWritesStep(env, s, n, withNext, s');
    case TakeOther => TakeOtherStep(env, s, s');
    case WriteSome(k) => WriteSomeStep(env, s, k, s');
    case WriteDone => WriteDoneStep(env, s, s');
    case SyncOlder => SyncOlderStep(env, s, s');
    case SyncLast => SyncLastStep(env, s, s');
    case ReplyOne => ReplyOneStep(env, s, s');
    case Release => ReleaseStep(env, s, s');
    case Unlink => UnlinkStep(env, s, s');
    case Finish => FinishStep(env, s, s');
    case Fail(errors) => StopStep(env, s, s', Failed, errors);
    case Stop =>
      assert s.replies + [] == s.replies;
      StopStep(env, s, s', Stopped, []);
    case DropReceiver => DropStep(env, s, s');
  }

  lemma DropStep<R(!new), S(!new)>(env: Env<R, S>, s: Sys<R, S>, s': Sys<R, S>)
    requires Core(env, s) && s.worker.status != Running
    requires s' == s.(worker := s.worker.(rx := false), queue := [])
    ensures Core(env, s') && Preserves(env, s, s')
  {
    hide OnDisk, RepliesOk, Preserves, FilesOk, BatchOk, Flows, ClosedOk;
    SameStoreInv(env, s, s');
    IndexSame(env, s, s');
  }

  /** No worker step removes a file beyond the chunks of the log. */
  lemma WorkerKeepsFile<R(!new), S(!new)>(env: Env<R, S>, s: Sys<R, S>, step: Step<R>, s': Sys<R, S>, id: nat)
    requires Core(env, s) && Placed(s) && WorkerStep(s, step, s')
    requires id in s.disk && id == Last(s.main.offsets)
    ensures id in s'.disk
  {
    hide Core, Data, NeedsSync, BatchEnd, DoesTakeWrites, DoesFinish;
    match step
    case TakeWrites(n, withNext) => TakeFrame(s, n, withNext, s');
    case Finish => FinishFrame(s, s');
    case Unlink => UnlinkedIsOld(env, s);
    case _ =>
  }

  lemma UnlinkedIsOld<R(!new), S(!new)>(env: Env<R, S>, s: Sys<R, S>)
    requires Core(env, s) && s.worker.status == Running && s.worker.phase.Finishing? && s.worker.phase.next.Some?
    requires s.worker.phase.next.value.req.RemoveChunks? && s.worker.phase.next.value.req.ids != []
    ensures s.worker.phase.next.value.req.ids[0] < Last(s.main.offsets)
  {
    hide Stream, ReplayChunks, FirstIsDurable, RepliesOk, FilesOk, BatchOk, EndsAt, ClosedOk, Stored, CheckpointFirst;
    var ids := s.worker.phase.next.value.req.ids;
    assert Todo(s) == [RemoveChunks(ids)] + Waiting(s);
    UnlinkRuns(env.codec, s.hist, PosOf(s), ids, Waiting(s));
    OffsetsAppend(env.codec, s.hist[|s.hist| - 1], env.checkpoint(s.sm));
    EndIsBeyond(env, s.hist, s.lo);
  }

  lemma WorkerStepKeeps<R(!new), S(!new)>(env: Env<R, S>, s: Sys<R, S>, step: Step<R>, s': Sys<R, S>)
    requires Inv(env, s) && Placed(s) && WorkerStep(s, step, s')
    ensures Inv(env, s') && Preserves(env, s, s')
    ensures s'.worker.status == Running && Settled(s) ==> Settled(s')
  {
    hide Core, Preserves, Settled, WorkerStep;
    WorkerCore(env, s, step, s');
    OnDiskOf(env, s');
    WorkerFrame(s, step, s');
    if s.sending.Some? && s.sending.value.AppendFile? {
      WorkerKeepsFile(env, s, step, s', Last(s.main.offsets));
    }
  }

  lemma OnDiskOf<R(!new), S(!new)>(env: Env<R, S>, s: Sys<R, S>)
    requires Core(env, s)
    ensures OnDisk(env, s) && Placed(s)
  {
  }

  /** What the worker leaves to the main thread. */
  ghost predicate Framed<R, S>(s: Sys<R, S>, s': Sys<R, S>) {
    && s'.sending == s.sending && s'.main == s.main && s'.sm == s.sm && s'.hist == s.hist && s'.careful == s.careful
    && (s'.worker.status == Running ==> s.worker.status == Running && s'.worker.rx == s.worker.rx)
  }

  lemma TakeFrame<R, S>(s: Sys<R, S>, n: nat, withNext: bool, s': Sys<R, S>)
    requires DoesTakeWrites(s, n, withNext, s')
    ensures s.worker.status == Running ==> Framed(s, s')
    ensures s'.disk == s.disk && s'.worker.status == s.worker.status
  {
    hide Data, WritesOf;
  }

  lemma FinishFrame<R, S>(s: Sys<R, S>, s': Sys<R, S>)
    requires DoesFinish(s, s')
    ensures s.worker.status == Running ==> Framed(s, s')
    ensures s'.disk == s.disk && s'.queue == s.queue && s'.replies == s.replies && s'.worker.status == s.worker.status
  {
  }

  lemma WorkerFrame<R, S>(s: Sys<R, S>, step: Step<R>, s': Sys<R, S>)
    requires Placed(s) && WorkerStep(s, step, s')
    ensures Framed(s, s')
  {
    hide Data, NeedsSync, BatchEnd, Grown, Synced, DoesTakeWrites, DoesFinish, RepliesOf;
    match step
    case TakeWrites(n, withNext) => TakeFrame(s, n, withNext, s');
    case Finish => FinishFrame(s, s');
    case _ =>
  }

  /** What the main thread leaves to the worker; a rotation adds an empty file. */
  lemma MainFrame<R, S>(env: Env<R, S>, s: Sys<R, S>, step: Step<R>, s': Sys<R, S>)
    requires Placed(s) && MainStep(env, s, step, s')
    ensures s'.worker == s.worker && s'.replies == s.replies && s'.notes == s.notes
    ensures s'.cur == s.cur && s'.lo == s.lo && s'.careful == s.careful
    ensures !step.Rotate? ==> s'.disk == s.disk
    ensures step.Rotate? ==> var id := Last(s.main.offsets); id !in s.disk && s'.disk == s.disk[id := EMPTY_FILE]
  {
    hide Settled, IsFull, Appended, WithChunk, WithRecord, IdsFrom, Rotated, FirstIsDurable, Promised, PendingWrite;
  }

  // Crash and recovery

  lemma CrashedFrom<R(!new), S(!new)>(env: Env<R, S>, s: Sys<R, S>, image: Disk, m: nat)
    requires OnDisk(env, s) && CrashImage(env.codec, s, image) && Image(env.codec, s.hist, s.lo, s.cur, m, image)
    ensures Crashed(env, s, image, m)
  {
    hide OnDisk, CrashImage, Stored, CoversDurable, Stream, HoldsPrefix;
    OnDiskPlaced(env, s);
    ImageCovers(env, s, image, m);
    StoredIndex(env.codec, s.hist, s.lo, s.cur, image);
    HoldsLimit(env.codec, s.hist[s.cur].recs, m, image[s.hist[s.cur].id].os);
  }

  lemma HoldsLimit<R>(c: Codec<R>, recs: seq<R>, m: nat, b: seq<Byte>)
    requires HoldsPrefix(c, recs, m, b)
    ensures m <= |recs|
  {
  }

  /** The log whose records recovery replays: the whole records that survived. */
  function Recoverable<R>(hist: seq<ChunkLog<R>>, lo: nat, cur: nat, m: nat): seq<ChunkLog<R>>
    requires cur < |hist| && m <= |hist[cur].recs|
  {
    if m > 0 then Cut(hist, cur, m) else if lo < cur then hist[..cur] else []
  }

  /** What `open` returns for a crash image, in terms of the log. */
  lemma OpenCrashed<R(!new), S(!new)>(env: Env<R, S>, s: Sys<R, S>, image: Disk, ids: seq<nat>, m: nat, start: S)
    requires EnvOk(env) && Crashed(env, s, image, m) && IsListing(ids, image.Keys)
    ensures var res := Open(env, image, ids, start, true);
            var cut := Recoverable(s.hist, s.lo, s.cur, m);
            && res.Ok?
            && (cut != [] ==> s.lo < |cut| && res.value.sm == StateAfter(env, cut)
                              && res.value.replayed == AllRecords(cut[s.lo..]))
            && (cut == [] ==> res.value.sm == start && res.value.replayed == [])
  {
    hide Open, OnDisk, CoversDurable, Stream, Stored, HoldsPrefix, ReplayChunks, AllRecords, LoadedLog, Offsets, IsListing,
    IsClean, EnvOk;
    OnDiskPlaced(env, s);
    OnDiskValid(env, s);
    if m > 0 {
      OpenWithRecord(env, s.hist, s.lo, s.cur, m, image, ids, start, true);
    } else if s.lo < s.cur {
      OpenWithoutRecord(env, s.hist, s.lo, s.cur, image, ids, start, true);
    } else {
      OpenWithNothing(env, s.hist, s.cur, image, ids, start, true);
    }
  }

  lemma OnDiskValid<R(!new), S(!new)>(env: Env<R, S>, s: Sys<R, S>)
    requires OnDisk(env, s)
    ensures EnvOk(env) && ValidLog(env, s.hist) && s.hist != []
  {
  }

  lemma RestartKeeps<R(!new), S(!new)>(env: Env<R, S>, s: Sys<R, S>, image: Disk, ids: seq<nat>, m: nat, s': Sys<R, S>)
    requires EnvOk(env) && Crashed(env, s, image, m) && RepliesOk(env, s) && IsListing(ids, image.Keys)
    requires OldestDurable(env.codec, s)
    requires var res := Open(env, image, ids, env.initial, true);
             var hist' := LogAfter(env, s.hist, s.lo, s.cur, m, IsClean(env.codec, s.hist, s.cur, m, image));
             res.Ok? && hist' != [] && s' == Booted(res.value, hist', s.lo, s.replies, s.careful)
    ensures Inv(env, s') && Preserves(env, s, s')
  {
    hide Open, OnDisk, CoversDurable, Stream, Stored, HoldsPrefix, IsListing, IsClean, EnvOk, Inv, Preserves, RepliesOk,
    Reopened, Restarted, Upto, Cut, WithChunk, Booted;
    OnDiskPlaced(env, s);
    OnDiskValid(env, s);
    if m > 0 {
      OpenWithRecord(env, s.hist, s.lo, s.cur, m, image, ids, env.initial, true);
      if IsClean(env.codec, s.hist, s.cur, m, image) {
        RestartClean(env, s, image, m);
      } else {
        RestartTorn(env, s, image, m);
      }
    } else if s.lo < s.cur {
      OpenWithoutRecord(env, s.hist, s.lo, s.cur, image, ids, env.initial, true);
      RestartPrefix(env, s, image);
    } else {
      OpenWithNothing(env, s.hist, s.cur, image, ids, env.initial, true);
      RestartFresh(env, s, image);
    }
  }

  lemma RestartStep<R(!new), S(!new)>(env: Env<R, S>, s: Sys<R, S>, image: Disk, ids: seq<nat>, m: nat, s': Sys<R, S>)
    requires Inv(env, s) && DoesRestart(env, s, image, ids, m, s')
    ensures Inv(env, s') && Preserves(env, s, s')
  {
    hide OnDisk, CrashImage, Stream, RepliesOk, Preserves, Open, IsListing, Stored, HoldsPrefix, CoversDurable, LogAfter,
    Booted, IndexOk;
    CrashedFrom(env, s, image, m);
    OnDiskValid(env, s);
    RestartKeeps(env, s, image, ids, m, s');
  }

  // Runs

  lemma NextKeeps<R(!new), S(!new)>(env: Env<R, S>, s: Sys<R, S>, step: Step<R>, s': Sys<R, S>)
    requires Inv(env, s) && Next(env, s, step, s')
    ensures Inv(env, s') && Preserves(env, s, s')
  {
    hide Inv, Preserves, MainStep, WorkerStep, DoesRestart;
    if step.Restart? {
      RestartStep(env, s, step.image, step.ids, step.whole, s');
    } else if MainStep(env, s, step, s') {
      MainStepKeeps(env, s, step, s');
    } else {
      WorkerStepKeeps(env, s, step, s');
    }
  }

  lemma InitKeeps<R(!new), S(!new)>(env: Env<R, S>, s: Sys<R, S>)
    requires EnvOk(env) && Init(env, s)
    ensures Inv(env, s)
  {
    hide Represents, Flows, OnDisk, IndexOk, FilesOk, BatchOk;
    var c, ck := env.codec, env.checkpoint(env.initial);
    assert Encodable(c, ck) && SizeIsHonest(c, ck);
    FreshRepresents(env);
    var r := Recovered(map[0 := File(Bytes1(c, ck), 0)], [], [0, |Bytes1(c, ck)|], env.initial, []);
    assert Open(env, map[], [], env.initial, true) == Ok(r);
    BootedStore(env, s.hist, 0, r, [], s.careful);
    BootedFlows(env, s.hist, 0, r, [], s.careful);
  }

  /** Every state of every run satisfies the invariant. */
  lemma {:induction false} EveryStateIsOk<R(!new), S(!new)>(env: Env<R, S>, run: seq<Sys<R, S>>, i: nat)
    requires EnvOk(env) && IsRun(env, run) && i < |run|
    ensures Inv(env, run[i])
  {
    hide Inv, EnvOk, Init, Next;
    if i == 0 {
      InitKeeps(env, run[0]);
    } else {
      EveryStateIsOk(env, run, i - 1);
      assert Steps(env, run[i - 1], run[i]);
      var step :| Next(env, run[i - 1], step, run[i]);
      NextKeeps(env, run[i - 1], step, run[i]);
    }
  }

  /** What is durable at one point of a run is durable at every later point, with the same records. */
  lemma {:induction false} DurableForever<R(!new), S(!new)>(env: Env<R, S>, run: seq<Sys<R, S>>, i: nat, j: nat, u: nat)
    requires EnvOk(env) && IsRun(env, run) && i <= j < |run| && Durable(env, run[i], u)
    ensures Durable(env, run[j], u) && Keeps(env.codec, run[i].hist, run[j].hist, u)
    decreases j
  {
    hide Inv, EnvOk, Init, Next, Durable, Keeps;
    if i == j {
      KeepsItself(env.codec, run[i].hist, u);
    } else {
      DurableForever(env, run, i, j - 1, u);
      EveryStateIsOk(env, run, j - 1);
      assert Steps(env, run[j - 1], run[j]);
      var step :| Next(env, run[j - 1], step, run[j]);
      NextKeeps(env, run[j - 1], step, run[j]);
      KeepsTransitive(env.codec, run[i].hist, run[j - 1].hist, run[j].hist, u);
    }
  }

  lemma KeepsItself<R>(c: Codec<R>, h: seq<ChunkLog<R>>, u: nat)
    ensures Keeps(c, h, h, u)
  {
  }

  /**
   Acknowledged records are never lost: once the callback of a sync request
   received Ok, every record that ends at or below its offset is durable and
   in the log at every later point, through any number of crashes.
   */
  lemma AcknowledgedForever<R(!new), S(!new)>(env: Env<R, S>, run: seq<Sys<R, S>>, i: nat, j: nat, r: Reply)
    requires EnvOk(env) && IsRun(env, run) && i <= j < |run|
    requires r in run[i].replies && r.ok && r.sync
    ensures Durable(env, run[j], r.upto)
    ensures Keeps(env.codec, run[i].hist, run[j].hist, r.upto)
  {
    hide EnvOk, Init, Next, Durable, OnDisk, IndexOk, Flows, FilesOk, BatchOk, Keeps;
    EveryStateIsOk(env, run, i);
    assert Truthful(env, run[i], r);
    DurableForever(env, run, i, j, r.upto);
  }

  /**
   Recovery after a crash at any point of any run: it succeeds, it replays a
   prefix of everything appended, and the state it rebuilds is that of the
   prefix. The prefix holds every record a sync callback was told is safe,
   unless chunks were removed before the first record of those left is durable.
   */
  lemma CrashAnywhere<R(!new), S(!new)>(
    env: Env<R, S>, run: seq<Sys<R, S>>, i: nat, image: Disk, ids: seq<nat>)
    returns (cut: seq<ChunkLog<R>>, r: Recovered<R, S>)
    requires EnvOk(env) && IsRun(env, run) && i < |run|
    requires CrashImage(env.codec, run[i], image) && IsListing(ids, image.Keys)
    ensures Open(env, image, ids, env.initial, true) == Ok(r)
    ensures AllRecords(cut) <= AllRecords(run[i].hist)
    ensures r.sm == Replay(env, env.initial, AllRecords(cut))
    ensures if cut == [] then r.replayed == [] else run[i].lo < |cut| && r.replayed == AllRecords(cut[run[i].lo..])
    ensures run[i].careful || OldestDurable(env.codec, run[i]) ==>
              forall reply | reply in run[i].replies && reply.ok && reply.sync ::
                Keeps(env.codec, run[i].hist, cut, reply.upto)
  {
    hide Init, Next, OnDisk, CrashImage, IndexOk, Flows, FilesOk, BatchOk, CoversDurable, Open, IsListing, Stored, HoldsPrefix,
    Stream, AllRecords, ReplayChunks, Replay, Keeps;
    var s := run[i];
    EveryStateIsOk(env, run, i);
    OnDiskPlaced(env, s);
    var m := CrashLeavesImage(env, s, image);
    CrashedFrom(env, s, image, m);
    OpenCrashed(env, s, image, ids, m, env.initial);
    r := Open(env, image, ids, env.initial, true).value;
    cut := Recoverable(s.hist, s.lo, s.cur, m);
    RecoverableIsPrefix(s.hist, s.lo, s.cur, m);
    ReplayAllRecords(env, env.initial, cut);
    OneChunkState(env, env.initial, s.hist[0]);
    if s.careful || OldestDurable(env.codec, s) {
      CarefulIsDurable(env, s);
      RecoverableContinues(env, s, m);
      forall reply | reply in s.replies && reply.ok && reply.sync ensures Keeps(env.codec, s.hist, cut, reply.upto) {
        assert Truthful(env, s, reply);
        ContinuesKeeps(env, s, m, cut, reply.upto);
      }
    }
  }

  /** In every state the chunks not yet purged rebuild the current state, from any starting state. */
  lemma SurvivorsSuffice<R(!new), S(!new)>(env: Env<R, S>, run: seq<Sys<R, S>>, i: nat, start: S)
    requires EnvOk(env) && IsRun(env, run) && i < |run|
    ensures run[i].lo < |run[i].hist| && ReplayChunks(env, start, run[i].hist[run[i].lo..]) == run[i].sm
  {
    hide Init, Next, EnvOk, IndexOk, Flows, FilesOk, BatchOk, RepliesOk, Stream, ReplayChunks, Chained, CheckpointFirst,
    FirstIsDurable, Stored;
    EveryStateIsOk(env, run, i);
    OnDiskPlaced(env, run[i]);
    CheckpointSufficiency(env, run[i].hist, run[i].lo, start);
  }

  lemma RecoverableIsPrefix<R>(hist: seq<ChunkLog<R>>, lo: nat, cur: nat, m: nat)
    requires cur < |hist| && m <= |hist[cur].recs|
    ensures AllRecords(Recoverable(hist, lo, cur, m)) <= AllRecords(hist)
  {
    hide AllRecords, Cut;
    NoRecords<R>();
    if m > 0 {
      CutIsPrefix(hist, cur, m);
    } else if lo < cur {
      CutNothing(hist, cur - 1);
      CutIsPrefix(hist, cur - 1, |hist[cur - 1].recs|);
    }
  }

  lemma NoRecords<R>()
    ensures AllRecords<R>([]) == []
  {
  }

  lemma CarefulIsDurable<R(!new), S(!new)>(env: Env<R, S>, s: Sys<R, S>)
    requires OnDisk(env, s) && (s.careful || OldestDurable(env.codec, s))
    ensures OldestDurable(env.codec, s)
  {
  }

  lemma RecoverableContinues<R(!new), S(!new)>(env: Env<R, S>, s: Sys<R, S>, m: nat)
    requires OnDisk(env, s) && OldestDurable(env.codec, s) && CoversDurable(env.codec, s, m) && s.lo <= s.cur < |s.hist| && m <= |s.hist[s.cur].recs|
    ensures Continues(s.hist, s.cur, m, Recoverable(s.hist, s.lo, s.cur, m))
  {
    hide OnDisk, CoversDurable;
    if m > 0 {
      CutContinues(s.hist, s.cur, m, []);
      assert Cut(s.hist, s.cur, m) + [] == Cut(s.hist, s.cur, m);
    } else if s.lo == s.cur {
      FirstNotDurable(env, s);
    }
  }
}
