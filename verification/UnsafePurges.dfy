/** A purge that nothing waits for: a run that a power loss then empties. */
module UnsafePurges {
  import opened Codec
  import opened Log
  import opened Requests
  import opened Backlog
  import opened Recovery
  import opened CrashImages
  import opened System
  import opened Invariant
  import opened MainSteps
  import opened Durability
  import opened Completion
  import opened Notifications
  import opened Progress
  import opened Runs
  import opened WorkerBatches
  import opened Liveness
  import opened Scenarios
  import opened Reopening
  import opened Purging

  /** Nothing of the current file is durable, and nothing queued asks for a sync. */
  ghost predicate Unsynced<R, S>(s: Sys<R, S>) {
    && Placed(s) && CurFile(s).dur == 0
    && (forall i | 0 <= i < |s.queue| :: s.queue[i].req.Write? ==> !s.queue[i].req.write.sync)
    && !s.worker.phase.Syncing?
    && (s.worker.phase.Writing? ==> !NeedsSync(s.worker.phase.batch.writes))
  }

  lemma TakeUnsynced<R, S>(s: Sys<R, S>, n: nat, withNext: bool, s': Sys<R, S>)
    requires Unsynced(s) && DoesTakeWrites(s, n, withNext, s')
    ensures Unsynced(s')
  {
    hide Data;
    var writes := s'.worker.phase.batch.writes;
    forall i | 0 <= i < |writes| ensures !writes[i].sync {
      assert writes[i] == s.queue[i].req.write;
    }
    forall i | 0 <= i < |s'.queue| ensures s'.queue[i].req.Write? ==> !s'.queue[i].req.write.sync {
      assert s'.queue[i] == s.queue[|s.queue| - |s'.queue| + i];
    }
  }

  lemma FinishUnsynced<R(!new), S(!new)>(env: Env<R, S>, s: Sys<R, S>, s': Sys<R, S>)
    requires Inv(env, s) && s.worker.status == Running && Unsynced(s) && DoesFinish(s, s') && Placed(s')
    ensures Unsynced(s')
  {
    hide Inv, Stream, IsWhole, IsNoted;
    if s'.cur != s.cur {
      AttachedAfterNote(env, s, s');
      NextIsEmpty(env, s);
      FinishFrame(s, s');
    }
  }

  lemma NextIsEmpty<R(!new), S(!new)>(env: Env<R, S>, s: Sys<R, S>)
    requires Inv(env, s) && s.cur + 1 < |s.hist| && s.hist[s.cur + 1].id in s.disk
    ensures s.disk[s.hist[s.cur + 1].id] == EMPTY_FILE
  {
    hide Stream, ReplayChunks, CheckpointFirst, IndexOk, RepliesOk, Flows, FilesOk, BatchOk, IsWhole, IsLive;
    IdsIncrease(env.codec, s.hist, s.cur, s.cur + 1);
  }

  lemma UnlinkUnsynced<R, S>(s: Sys<R, S>, s': Sys<R, S>)
    requires Unsynced(s) && DoesUnlink(s, s') && Placed(s')
    ensures Unsynced(s')
  {
    hide NeedsSync;
  }

  lemma UnsyncedStep<R(!new), S(!new)>(env: Env<R, S>, s: Sys<R, S>, s': Sys<R, S>)
    requires Inv(env, s) && Inv(env, s') && Unsynced(s) && WorksOn(s, s')
    ensures Unsynced(s')
  {
    hide Inv, Data, NeedsSync, BatchEnd, RepliesOf, DoesTakeWrites, DoesFinish, DoesUnlink;
    InvPlaced(env, s');
    var step :| WorkerStep(s, step, s') && !step.Fail? && !step.Stop?;
    match step
    case TakeWrites(n, withNext) => TakeUnsynced(s, n, withNext, s');
    case Finish => FinishUnsynced(env, s, s');
    case Unlink => UnlinkUnsynced(s, s');
    case _ =>
  }

  lemma {:induction false} UnsyncedAlong<R(!new), S(!new)>(env: Env<R, S>, run: seq<Sys<R, S>>, i: nat, j: nat)
    requires EnvOk(env) && IsRun(env, run) && i <= j < |run| && Unsynced(run[i])
    requires forall n | i <= n < j :: WorksOn(run[n], run[n + 1])
    ensures Unsynced(run[j])
    decreases j
  {
    hide EnvOk, Init, Next, Inv, WorksOn, Unsynced;
    if i < j {
      UnsyncedAlong(env, run, i, j - 1);
      EveryStateIsOk(env, run, j - 1);
      EveryStateIsOk(env, run, j);
      assert WorksOn(run[j - 1], run[j - 1 + 1]);
      UnsyncedStep(env, run[j - 1], run[j]);
    }
  }

  /** Right after a rotation, with the checkpoint still pending, the new file is empty. */
  lemma NewFileIsEmpty<R(!new), S(!new)>(env: Env<R, S>, s: Sys<R, S>, ck: R)
    requires Inv(env, s) && Ready(s) && s.main.pending == Bytes1(env.codec, ck)
    requires s.hist != [] && s.hist[|s.hist| - 1].recs == [ck]
    ensures Unsynced(s)
  {
    hide ReplayChunks, CheckpointFirst, RepliesOk, FilesOk, BatchOk, IndexOk, Stored, FirstIsDurable, NeedsSync, Stream;
    assert Todo(s) == [];
    StreamOne(env.codec, ck);
    assert |CurFile(s).os| + |s.main.pending| == |s.main.pending|;
  }

  /** All closed chunks are drained and removed. */
  lemma PurgeOn<R(!new), S(!new)>(env: Env<R, S>, run: seq<Sys<R, S>>) returns (run': seq<Sys<R, S>>)
    requires EnvOk(env) && IsRun(env, run) && Ready(End1(run)) && !End1(run).careful && Unsynced(End1(run))
    ensures GoesOn(env, run, run') && Ready(End1(run')) && Unsynced(End1(run'))
    ensures var s, s' := End1(run), End1(run');
            && s'.hist == s.hist && s'.main.pending == s.main.pending && s'.purged == |s.hist| - 1
  {
    hide EnvOk, Init, Steps, Proceeds, HasWork, Settled, IsFull, Unsynced, WorksOn, GoesOn, FirstIsDurable, Promised, IdsFrom;
    var s := End1(run);
    ReadyFacts(env, run);
    IndexCounts(env, run, |run| - 1);
    var n := |s.main.closed|;
    var s1 := s.(main := s.main.(closed := s.main.closed[n..]), drained := s.drained + n);
    assert MainStep(env, s, Drain(n), s1);
    var run1 := MainOn(env, run, Drain(n), s1);
    IsRunOf(env, run, run1);
    PlacedSame(s, s1);
    var k := s1.drained - s1.purged;
    var ids := IdsFrom(s.hist, s.purged, k);
    var s2 := Reserving(s1.(purged := s1.purged + k), RemoveChunks(ids));
    assert MainStep(env, s1, SendRemove(k), s2);
    var run2 := MainOn(env, run1, SendRemove(k), s2);
    IsRunOf(env, run1, run2);
    PlacedSame(s1, s2);
    var s3 := Enqueued(s2, RemoveChunks(ids));
    assert MainStep(env, s2, Enqueue, s3);
    var run3 := MainOn(env, run2, Enqueue, s3);
    IsRunOf(env, run2, run3);
    QueueUnsynced(s, s3, ids);
    run' := FinishOn(env, run3);
    Ending(env, run3, run');
    UnsyncedAlong(env, run', |run3| - 1, |run'| - 1);
    GoesOnTwice(env, run, run1, run2);
    GoesOnTwice(env, run, run2, run3);
    GoesOnTwice(env, run, run3, run');
  }

  lemma Ending<R(!new), S>(env: Env<R, S>, run: seq<Sys<R, S>>, run': seq<Sys<R, S>>)
    requires GoesOn(env, run, run') && ContinuesRun(run, run')
    ensures IsRun(env, run') && run' != [] && |run| <= |run'| && run'[|run| - 1] == End1(run)
    ensures forall n | |run| - 1 <= n < |run'| - 1 :: WorksOn(run'[n], run'[n + 1])
  {
    hide WorksOn, Proceeds;
    assert run'[..|run|][|run| - 1] == run'[|run| - 1];
  }

  lemma IndexCounts<R(!new), S(!new)>(env: Env<R, S>, run: seq<Sys<R, S>>, i: nat)
    requires EnvOk(env) && IsRun(env, run) && i < |run|
    ensures run[i].purged <= run[i].drained && run[i].drained + |run[i].main.closed| == |run[i].hist| - 1
  {
    hide EnvOk, Init, Next, OnDisk, Flows, FilesOk, BatchOk, RepliesOk, ClosedOk, SendOk;
    EveryStateIsOk(env, run, i);
  }

  lemma PlacedSame<R, S>(s: Sys<R, S>, s': Sys<R, S>)
    requires Placed(s) && s'.disk == s.disk && s'.hist == s.hist && s'.cur == s.cur
    ensures Placed(s')
  {
  }

  lemma QueueUnsynced<R, S>(s: Sys<R, S>, s': Sys<R, S>, ids: seq<nat>)
    requires Unsynced(s) && s'.disk == s.disk && s'.hist == s.hist && s'.cur == s.cur && s'.worker == s.worker
    requires s'.queue == s.queue + [SeqRequest(s'.main.sent, RemoveChunks(ids))]
    ensures Unsynced(s')
  {
    hide NeedsSync;
  }

  lemma SendUnsynced<R, S>(s: Sys<R, S>)
    requires Unsynced(s)
    ensures Unsynced(AfterSendPending(s, false, None))
  {
    hide NeedsSync;
    var s' := AfterSendPending(s, false, None);
    forall i | 0 <= i < |s'.queue| ensures s'.queue[i].req.Write? ==> !s'.queue[i].req.write.sync {
      assert i < |s.queue| ==> s'.queue[i] == s.queue[i];
    }
  }

  /**
   From every reachable state that is idle and whose chunk is full: one
   rotation, and a purge of all older chunks that does not wait for a sync.
   Everything is then complete on disk, and one power loss leaves nothing.
   */
  lemma UnsafePurgeHappens<R(!new), S(!new)>(env: Env<R, S>, run: seq<Sys<R, S>>)
    returns (run': seq<Sys<R, S>>, image: Disk, ids: seq<nat>)
    requires EnvOk(env) && IsRun(env, run) && Ready(End1(run)) && IsFull(env, End1(run).main) && !End1(run).careful
    ensures GoesOn(env, run, run') && AtRest(End1(run'))
    ensures CrashImage(env.codec, End1(run'), image) && IsListing(ids, image.Keys) && !Replayable(env, image, ids)
  {
    hide EnvOk, Init, Steps, Proceeds, HasWork, Settled, IsFull, Unsynced, WorksOn, GoesOn, Rotated, WithChunk, AfterSendPending,
    CrashImage, IsListing, Replayable, Purged, OldestIsDurable, Inv;
    var run1 := SendOn(env, run, true);
    IsRunOf(env, run, run1);
    KeepsFull(env, End1(run).main, End1(run1).main);
    var run2 := RotateOn(env, run1);
    IsRunOf(env, run1, run2);
    var ck := env.checkpoint(End1(run1).sm);
    ReadyFacts(env, run1);
    RotatedIsNew(env, run1, run2, ck);
    var run3 := SendOn(env, run2, false);
    IsRunOf(env, run2, run3);
    SendUnsynced(End1(run2));
    SentLength(env, run2, run3);
    UnsyncedAlong(env, run3, |run2| + 1, |run3| - 1);
    run' := PurgeOn(env, run3);
    GoesOnTwice(env, run, run1, run2);
    GoesOnTwice(env, run, run2, run3);
    GoesOnTwice(env, run, run3, run');
    IsRunOf(env, run3, run');
    AtTheEnd(env, run', End1(run3).hist);
    image, ids := UnsafeWhenNot(env, End1(run'));
  }

  lemma SentLength<R(!new), S>(env: Env<R, S>, run: seq<Sys<R, S>>, run': seq<Sys<R, S>>)
    requires GoesOn(env, run, run') && |run| + 1 < |run'|
    ensures run' != [] && |run| + 1 <= |run'| - 1
  {
  }

  lemma RotatedIsNew<R(!new), S(!new)>(env: Env<R, S>, run1: seq<Sys<R, S>>, run2: seq<Sys<R, S>>, ck: R)
    requires EnvOk(env) && IsRun(env, run1) && IsRun(env, run2) && Ready(End1(run2)) && End1(run1).hist != []
    requires ck == env.checkpoint(End1(run1).sm) && End1(run1).sm == StateAfter(env, End1(run1).hist)
    requires End1(run2).hist == WithChunk(env, End1(run1).hist)
    requires End1(run2).main == Rotated(env.codec, End1(run1).main, ck).(sent := End1(run1).main.sent + 1)
    ensures Unsynced(End1(run2)) && |End1(run2).hist| > 1
  {
    hide Init, Steps, Inv, HasWork, Unsynced, Rotated, StateAfter, Lawful;
    EveryStateIsOk(env, run2, |run2| - 1);
    assert Encodable(env.codec, ck);
    RotatedMain(env, End1(run1).main, ck);
    NewFileIsEmpty(env, End1(run2), ck);
  }

  /** At the end the log has one chunk left, of which nothing is durable. */
  lemma AtTheEnd<R(!new), S(!new)>(env: Env<R, S>, run: seq<Sys<R, S>>, hist: seq<ChunkLog<R>>)
    requires EnvOk(env) && IsRun(env, run) && Ready(End1(run)) && Unsynced(End1(run)) && |hist| > 1
    requires End1(run).hist == hist && End1(run).main.pending == [] && End1(run).purged == |hist| - 1
    ensures AtRest(End1(run)) && Purged(env, End1(run)) && !OldestIsDurable(env, End1(run))
  {
    hide Init, Steps, Stored, Flows, FilesOk, BatchOk, RepliesOk, IndexOk, Stream, CheckpointFirst, StateAfter, NeedsSync, Image;
    var s := End1(run);
    EveryStateIsOk(env, run, |run| - 1);
    AtRestIsWhole(env, s);
    NotEmptyFirst(env.codec, s.hist[s.cur].recs);
  }

  lemma NotEmptyFirst<R(!new)>(c: Codec<R>, recs: seq<R>)
    requires Lawful(c) && AllEncodable(c, recs) && recs != []
    ensures |Bytes1(c, recs[0])| > 0
  {
    EncodedNotEmpty(c, recs, 0);
  }
}
