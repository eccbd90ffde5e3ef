/** Continuations of a run: a sync, a rotation, a send, each followed by a worker that finishes its work. */
module Scenarios {
  import opened Codec
  import opened Log
  import opened Requests
  import opened CrashImages
  import opened System
  import opened Invariant
  import opened MainSteps
  import opened Durability
  import opened Budget
  import opened Completion
  import opened Progress
  import opened Runs
  import opened WorkerBatches
  import opened Liveness
  import opened Races

  /** `run'` continues `run` without a crash or a failure of the worker. */
  ghost predicate GoesOn<R(!new), S>(env: Env<R, S>, run: seq<Sys<R, S>>, run': seq<Sys<R, S>>) {
    && 0 < |run| <= |run'| && run'[..|run|] == run && IsRun(env, run')
    && forall n | |run| - 1 <= n < |run'| - 1 :: Proceeds(env, run'[n], run'[n + 1])
  }

  function End1<R, S>(run: seq<Sys<R, S>>): Sys<R, S>
    requires run != []
  {
    run[|run| - 1]
  }

  lemma GoesOnTwice<R(!new), S(!new)>(env: Env<R, S>, run: seq<Sys<R, S>>, run': seq<Sys<R, S>>, run'': seq<Sys<R, S>>)
    requires GoesOn(env, run, run') && GoesOn(env, run', run'')
    ensures GoesOn(env, run, run'')
  {
    hide IsRun, Proceeds;
    assert run''[..|run|] == run''[..|run'|][..|run|] == run;
    forall n | |run| - 1 <= n < |run''| - 1 ensures Proceeds(env, run''[n], run''[n + 1]) {
      if n < |run'| - 1 {
        assert run''[n] == run''[..|run'|][n] && run''[n + 1] == run''[..|run'|][n + 1];
        assert Proceeds(env, run'[n], run'[n + 1]);
      }
    }
  }

  /** One step of the main thread. */
  lemma MainOn<R(!new), S(!new)>(env: Env<R, S>, run: seq<Sys<R, S>>, step: Step<R>, s': Sys<R, S>) returns (run': seq<Sys<R, S>>)
    requires IsRun(env, run) && Placed(End1(run)) && MainStep(env, End1(run), step, s')
    ensures GoesOn(env, run, run') && End1(run') == s' && run' == run + [s']
  {
    hide Init, MainStep, WorkerStep;
    run' := AddMain(env, run, step, s');
    MainIsPlain(env, End1(run), step, s');
    assert Next(env, End1(run), step, s');
    assert Proceeds(env, run'[|run| - 1], run'[|run| - 1 + 1]);
    assert run'[..|run|] == run;
  }

  lemma MainIsPlain<R(!new), S(!new)>(env: Env<R, S>, s: Sys<R, S>, step: Step<R>, s': Sys<R, S>)
    requires Placed(s) && MainStep(env, s, step, s')
    ensures !step.Restart? && !step.Fail? && !step.Stop? && !step.DropReceiver?
  {
  }

  /** The worker finishes all its work. */
  lemma FinishOn<R(!new), S(!new)>(env: Env<R, S>, run: seq<Sys<R, S>>) returns (run': seq<Sys<R, S>>)
    requires EnvOk(env) && IsRun(env, run) && End1(run).worker.status == Running
    ensures GoesOn(env, run, run') && Kept(End1(run), End1(run')) && ContinuesRun(run, run')
    ensures End1(run').worker.status == Running && !HasWork(End1(run'))
  {
    hide EnvOk, Init, Steps, WorksOn, Proceeds, Kept, HasWork;
    run' := WorkCanFinish(env, run);
    WorkerAlone(env, run', |run| - 1, |run'| - 1);
  }

  // An idle log that can be written to

  /** A running log with nothing to do, open for the next call. */
  ghost predicate Ready<R, S>(s: Sys<R, S>) {
    s.worker.status == Running && s.main.open && s.sending == None && !HasWork(s)
  }

  lemma ReadyFacts<R(!new), S(!new)>(env: Env<R, S>, run: seq<Sys<R, S>>)
    requires EnvOk(env) && IsRun(env, run) && Ready(End1(run))
    ensures var s := End1(run);
            && Placed(s) && s.hist != [] && s.worker.rx && s.used == 0 && MainFree(s)
            && Last(s.main.offsets) == End(env.codec, s.hist[|s.hist| - 1]) && Last(s.main.offsets) !in s.disk
            && s.sm == StateAfter(env, s.hist)
  {
    hide EnvOk, Init, Next, HasWork, BudgetOk, Stored, Flows, FilesOk, BatchOk, RepliesOk, ClosedOk, ValidLog, StateAfter,
    AllBelow, Todo, FilesBelow;
    var i := |run| - 1;
    DoneAdmitsAny(env, run, i, 0);
    BudgetAlways(env, run, i);
    EveryStateIsOk(env, run, i);
    var s := run[i];
    InvPlaced(env, s);
    OffsetsAppend(env.codec, s.hist[|s.hist| - 1], env.checkpoint(s.sm));
    EndIsBound(env, s);
  }

  /** Everything pending is sent, and the worker finishes. */
  lemma SendOn<R(!new), S(!new)>(env: Env<R, S>, run: seq<Sys<R, S>>, sync: bool) returns (run': seq<Sys<R, S>>)
    requires EnvOk(env) && IsRun(env, run) && Ready(End1(run))
    ensures GoesOn(env, run, run') && Ready(End1(run'))
    ensures var s, s' := End1(run), End1(run');
            && s'.main == s.main.(pending := [], sent := s.main.sent + 1)
            && s'.hist == s.hist && s'.sm == s.sm && s'.careful == s.careful && s'.drained == s.drained && s'.purged == s.purged
            && (sync ==> Placed(s') && Settled(s'))
    ensures |run| + 1 < |run'| && run'[|run| + 1] == AfterSendPending(End1(run), sync, None)
    ensures forall n | |run| + 1 <= n < |run'| - 1 :: WorksOn(run'[n], run'[n + 1])
  {
    hide EnvOk, Init, Steps, Proceeds, HasWork, ReservedPending, AfterSendPending, PendingWrite, Settled, WorksOn;
    var s := End1(run);
    ReadyFacts(env, run);
    var run1 := SendsPending(env, run, sync, None);
    SentFacts(env, run, run1, sync);
    run' := FinishOn(env, run1);
    GoesOnTwice(env, run, run1, run');
    assert run'[|run| + 1] == run'[..|run1|][|run| + 1];
  }

  /** What sending the pending bytes leaves behind. */
  lemma SentFacts<R(!new), S(!new)>(env: Env<R, S>, run: seq<Sys<R, S>>, run1: seq<Sys<R, S>>, sync: bool)
    requires EnvOk(env) && IsRun(env, run) && Ready(End1(run)) && IsRun(env, run1)
    requires CanSend(env, End1(run), |End1(run).main.pending|)
    requires run1 == run + [ReservedPending(End1(run), sync, None), AfterSendPending(End1(run), sync, None)]
    ensures GoesOn(env, run, run1)
    ensures var s, s' := End1(run), End1(run1);
            && s'.main == s.main.(pending := [], sent := s.main.sent + 1) && s'.sending == None
            && s'.hist == s.hist && s'.sm == s.sm && s'.careful == s.careful && s'.drained == s.drained && s'.purged == s.purged
            && s'.worker == s.worker && (sync ==> Placed(s') && Settled(s'))
  {
    hide EnvOk, Init, Steps, PendingWrite, Core, Settled, Preserves, WorkerStep;
    var s := End1(run);
    var s1, s2 := ReservedPending(s, sync, None), AfterSendPending(s, sync, None);
    SizeOfPending(s, sync, None);
    assert MainStep(env, s, SendPending(sync, None), s1);
    assert MainStep(env, s1, Enqueue, s2);
    MainIsProceeding(env, s, SendPending(sync, None), s1);
    MainIsProceeding(env, s1, Enqueue, s2);
    assert run1[..|run|] == run;
    forall n | |run| - 1 <= n < |run1| - 1 ensures Proceeds(env, run1[n], run1[n + 1]) {
      assert n == |run| - 1 || n == |run|;
    }
    EveryStateIsOk(env, run, |run| - 1);
    EveryStateIsOk(env, run1, |run|);
    assert run1[|run|] == s1;
    SendPendingStep(env, s, sync, None, s1);
    EnqueueStep(env, s1, s2);
  }

  lemma MainIsProceeding<R(!new), S(!new)>(env: Env<R, S>, s: Sys<R, S>, step: Step<R>, s': Sys<R, S>)
    requires Placed(s) && MainStep(env, s, step, s')
    ensures Proceeds(env, s, s')
  {
    hide MainStep, WorkerStep;
    MainIsPlain(env, s, step, s');
    assert Next(env, s, step, s');
  }

  /** A full chunk whose bytes are all queued for sync is rotated, and the worker attaches the new one. */
  lemma RotateOn<R(!new), S(!new)>(env: Env<R, S>, run: seq<Sys<R, S>>) returns (run': seq<Sys<R, S>>)
    requires EnvOk(env) && IsRun(env, run) && Ready(End1(run)) && Placed(End1(run)) && Settled(End1(run))
    requires IsFull(env, End1(run).main)
    ensures GoesOn(env, run, run') && Ready(End1(run'))
    ensures var s, s' := End1(run), End1(run');
            && s'.hist == WithChunk(env, s.hist) && s'.sm == s.sm && s'.careful == s.careful
            && s'.drained == s.drained && s'.purged == s.purged
            && s'.main == Rotated(env.codec, s.main, env.checkpoint(s.sm)).(sent := s.main.sent + 1)
  {
    hide EnvOk, Init, Steps, Proceeds, HasWork, Settled, IsFull, WithChunk, Rotated, WorksOn;
    var s := End1(run);
    ReadyFacts(env, run);
    var id, ck := Last(s.main.offsets), env.checkpoint(s.sm);
    var s1 := Reserving(s.(disk := s.disk[id := EMPTY_FILE]), AppendFile(FileEntry(id, Some(ck))));
    assert MainStep(env, s, Rotate, s1);
    var run1 := MainOn(env, run, Rotate, s1);
    PlacedWith(s, s1, id);
    var s2 := Enqueued(Swapped(env, s1), AppendFile(FileEntry(id, Some(ck))));
    assert MainStep(env, s1, Enqueue, s2);
    var run2 := MainOn(env, run1, Enqueue, s2);
    GoesOnTwice(env, run, run1, run2);
    RotatedSent(env.codec, s.main, ck);
    run' := FinishOn(env, run2);
    GoesOnTwice(env, run, run2, run');
  }

  lemma PlacedWith<R, S>(s: Sys<R, S>, s': Sys<R, S>, id: nat)
    requires Placed(s) && s'.disk == s.disk[id := EMPTY_FILE] && s'.hist == s.hist && s'.cur == s.cur
    ensures Placed(s')
  {
  }

  /** One record is appended. */
  lemma AppendOn<R(!new), S(!new)>(env: Env<R, S>, run: seq<Sys<R, S>>, r: R) returns (run': seq<Sys<R, S>>)
    requires EnvOk(env) && IsRun(env, run) && Ready(End1(run)) && Encodable(env.codec, r)
    ensures GoesOn(env, run, run') && Ready(End1(run')) && run' == run + [End1(run')]
    ensures End1(run').main == Appended(env.codec, End1(run).main, r) && End1(run').careful == End1(run).careful
    ensures Last(End1(run').main.offsets) > Last(End1(run).main.offsets)
    ensures IsFull(env, End1(run).main) ==> IsFull(env, End1(run').main)
  {
    hide EnvOk, Init, Steps, Proceeds, HasWork;
    var s := End1(run);
    ReadyFacts(env, run);
    var s' := s.(main := Appended(env.codec, s.main, r), hist := WithRecord(s.hist, r), sm := env.apply(s.sm, r));
    assert MainStep(env, s, Append(r), s');
    run' := MainOn(env, run, Append(r), s');
    SameWork(s, s');
    AppendGrows(env, s.main, r);
  }

  /** Appending fills a chunk: for every codec with an encodable record there is a run to an idle log with a full chunk. */
  lemma FullHappens<R(!new), S(!new)>(env: Env<R, S>, careful: bool, r: R) returns (run: seq<Sys<R, S>>)
    requires EnvOk(env) && Encodable(env.codec, r)
    ensures IsRun(env, run) && Ready(End1(run)) && IsFull(env, End1(run).main) && End1(run).careful == careful
  {
    hide EnvOk, Init, Steps, HasWork;
    run := FillUp(env, careful, r, env.maxRecords);
  }

  lemma {:induction false} FillUp<R(!new), S(!new)>(env: Env<R, S>, careful: bool, r: R, n: nat) returns (run: seq<Sys<R, S>>)
    requires EnvOk(env) && Encodable(env.codec, r)
    ensures IsRun(env, run) && Ready(End1(run)) && End1(run).careful == careful && |End1(run).main.offsets| > n
    decreases n
  {
    hide EnvOk, Init, Steps, Proceeds, IsFull, GoesOn;
    if n == 0 {
      var s := FirstState(env, careful);
      run := [s];
      HasOffset(env, run);
    } else {
      var run0 := FillUp(env, careful, r, n - 1);
      run := AppendOn(env, run0, r);
      IsRunOf(env, run0, run);
      AppendedLength(env.codec, End1(run0).main, r);
    }
  }

  lemma IsRunOf<R(!new), S(!new)>(env: Env<R, S>, run: seq<Sys<R, S>>, run': seq<Sys<R, S>>)
    requires GoesOn(env, run, run')
    ensures IsRun(env, run') && run' != []
  {
  }

  lemma HasOffset<R(!new), S(!new)>(env: Env<R, S>, run: seq<Sys<R, S>>)
    requires EnvOk(env) && IsRun(env, run)
    ensures |End1(run).main.offsets| > 0
  {
    hide EnvOk, Init, Steps, OnDisk, Flows, FilesOk, BatchOk, RepliesOk, ClosedOk, SendOk;
    EveryStateIsOk(env, run, |run| - 1);
  }

  lemma AppendedLength<R>(c: Codec<R>, m: Main<R>, r: R)
    requires Encodable(c, r)
    ensures |Appended(c, m, r).offsets| == |m.offsets| + 1
  {
  }

  lemma KeepsFull<R, S>(env: Env<R, S>, m: Main<R>, m': Main<R>)
    requires m'.offsets == m.offsets
    ensures IsFull(env, m') == IsFull(env, m)
  {
  }

  lemma SameWork<R, S>(s: Sys<R, S>, s': Sys<R, S>)
    requires s'.queue == s.queue && s'.worker == s.worker
    ensures HasWork(s') == HasWork(s)
  {
  }

  lemma AppendGrows<R(!new), S(!new)>(env: Env<R, S>, m: Main<R>, r: R)
    requires EnvOk(env) && Encodable(env.codec, r)
    ensures var m' := Appended(env.codec, m, r);
            Last(m'.offsets) > Last(m.offsets) && (IsFull(env, m) ==> IsFull(env, m')) && m'.open == m.open
  {
    HonestSize(env.codec, r);
  }

  // The end of the log along a run

  lemma ProceedsBound<R(!new), S(!new)>(env: Env<R, S>, s: Sys<R, S>, s': Sys<R, S>)
    requires EnvOk(env) && Inv(env, s) && s.worker.status == Running && Proceeds(env, s, s')
    ensures Last(s.main.offsets) <= Last(s'.main.offsets) && s'.worker.status == Running
  {
    hide Inv, MainStep, WorkerStep, EnvOk;
    InvPlaced(env, s);
    var step :| Next(env, s, step, s') && !step.Restart? && !step.Fail? && !step.Stop? && !step.DropReceiver?;
    if MainStep(env, s, step, s') {
      MainFrame(env, s, step, s');
      if step.Rotate? {
        RotateKeepsMain(env, s, s');
      } else {
        MainBound(env, s, step, s');
      }
    } else {
      StepQueue(s, step, s');
    }
  }

  lemma RotateKeepsMain<R(!new), S(!new)>(env: Env<R, S>, s: Sys<R, S>, s': Sys<R, S>)
    requires Placed(s) && MainStep(env, s, Rotate, s')
    ensures s'.main == s.main
  {
    hide Settled, IsFull;
  }

  lemma {:induction false} GoesOnBound<R(!new), S(!new)>(env: Env<R, S>, run: seq<Sys<R, S>>, i: nat, j: nat)
    requires EnvOk(env) && IsRun(env, run) && i <= j < |run| && run[i].worker.status == Running
    requires forall n | i <= n < j :: Proceeds(env, run[n], run[n + 1])
    ensures Last(run[i].main.offsets) <= Last(run[j].main.offsets) && run[j].worker.status == Running
    decreases j
  {
    hide EnvOk, Init, Next, Inv, Proceeds;
    if i < j {
      GoesOnBound(env, run, i, j - 1);
      EveryStateIsOk(env, run, j - 1);
      assert Proceeds(env, run[j - 1], run[j - 1 + 1]);
      ProceedsBound(env, run[j - 1], run[j]);
    }
  }
}
