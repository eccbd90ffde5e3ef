/** From every reachable state the worker can finish its work, and a sync request is then answered with Ok. */
module Liveness {
  import opened Log
  import opened Requests
  import opened System
  import opened Invariant
  import opened Durability
  import opened Budget
  import opened Completion
  import opened Progress
  import opened GroupCommit
  import opened WorkerBatches
  import opened Runs

  /** `run'` continues `run` with worker steps only, none of them a failure. */
  ghost predicate ContinuesRun<R(!new), S>(run: seq<Sys<R, S>>, run': seq<Sys<R, S>>) {
    && 0 < |run| <= |run'| && run'[..|run|] == run
    && forall n | |run| - 1 <= n < |run'| - 1 :: WorksOn(run'[n], run'[n + 1])
  }

  lemma ContinuesFrom<R(!new), S>(run: seq<Sys<R, S>>, s': Sys<R, S>, run': seq<Sys<R, S>>)
    requires run != [] && WorksOn(run[|run| - 1], s') && ContinuesRun(run + [s'], run')
    ensures ContinuesRun(run, run')
  {
    hide WorksOn;
    var more := run + [s'];
    assert run'[..|run|] == run'[..|more|][..|run|] == run;
    assert run'[|run| - 1] == run'[..|more|][|run| - 1] && run'[|run|] == run'[..|more|][|run|];
  }

  /** What worker steps keep, besides the log: that everything queued ends in a sync. */
  ghost predicate Kept<R, S>(s: Sys<R, S>, s': Sys<R, S>) {
    && s'.sending == s.sending && s'.main == s.main && s'.sm == s.sm && s'.hist == s.hist && s'.careful == s.careful
    && s'.worker.rx == s.worker.rx && s'.drained == s.drained && s'.purged == s.purged
    && Placed(s) && Placed(s') && (Settled(s) ==> Settled(s'))
  }

  lemma KeptTwice<R, S>(s: Sys<R, S>, s': Sys<R, S>, s'': Sys<R, S>)
    requires Kept(s, s') && Kept(s', s'')
    ensures Kept(s, s'')
  {
    hide Settled;
  }

  /** From every reachable state with a running worker, worker steps alone can finish all requests. */
  lemma {:induction false} WorkCanFinish<R(!new), S(!new)>(env: Env<R, S>, run: seq<Sys<R, S>>) returns (run': seq<Sys<R, S>>)
    requires EnvOk(env) && IsRun(env, run) && run != [] && run[|run| - 1].worker.status == Running
    ensures IsRun(env, run') && ContinuesRun(run, run') && Kept(run[|run| - 1], run'[|run'| - 1])
    ensures run'[|run'| - 1].worker.status == Running && !HasWork(run'[|run'| - 1])
    decreases Work(run[|run| - 1])
  {
    hide EnvOk, IsRun, Work, HasWork, WorksOn, Kept;
    if !HasWork(run[|run| - 1]) {
      run' := run;
      KeptItself(env, run);
    } else {
      var s' := OneStepMore(env, run);
      run' := WorkCanFinish(env, run + [s']);
      ContinuesFrom(run, s', run');
      KeptTwice(run[|run| - 1], s', run'[|run'| - 1]);
    }
  }

  lemma KeptItself<R(!new), S(!new)>(env: Env<R, S>, run: seq<Sys<R, S>>)
    requires EnvOk(env) && IsRun(env, run)
    ensures Kept(run[|run| - 1], run[|run| - 1])
  {
    hide EnvOk, Init, Next, Inv, Settled;
    EveryStateIsOk(env, run, |run| - 1);
    InvPlaced(env, run[|run| - 1]);
  }

  lemma OneStepMore<R(!new), S(!new)>(env: Env<R, S>, run: seq<Sys<R, S>>) returns (s': Sys<R, S>)
    requires EnvOk(env) && IsRun(env, run) && run[|run| - 1].worker.status == Running && HasWork(run[|run| - 1])
    ensures IsRun(env, run + [s']) && WorksOn(run[|run| - 1], s') && Kept(run[|run| - 1], s')
    ensures s'.worker.status == Running && Work(s') < Work(run[|run| - 1])
  {
    hide EnvOk, Init, Steps, WorkerStep, Work, HasWork, WorksOn, Inv, Settled, Preserves;
    var s := run[|run| - 1];
    var step: Step<R>;
    step, s' := WorkerNeverStuck(env, run, |run| - 1);
    StepQueue(s, step, s');
    WorkDecreases(s, step, s');
    WorkerStepIsNext(env, s, step, s');
    OneLonger(env, run, s');
    EveryStateIsOk(env, run, |run| - 1);
    WorkerStepKeeps(env, s, step, s');
    WorkerFrame(s, step, s');
    WorkerCounts(s, step, s');
    InvPlaced(env, s');
  }

  lemma WorkerCounts<R, S>(s: Sys<R, S>, step: Step<R>, s': Sys<R, S>)
    requires Placed(s) && WorkerStep(s, step, s')
    ensures s'.drained == s.drained && s'.purged == s.purged
  {
    hide Data, NeedsSync, BatchEnd, Grown, Synced, RepliesOf;
  }

  lemma WorkerStepIsNext<R(!new), S(!new)>(env: Env<R, S>, s: Sys<R, S>, step: Step<R>, s': Sys<R, S>)
    requires Placed(s) && s.worker.status == Running && WorkerStep(s, step, s') && !step.Fail? && !step.Stop?
    ensures Steps(env, s, s') && WorksOn(s, s')
  {
    hide WorkerStep, MainStep;
    NotDropped(s, step, s');
    assert Next(env, s, step, s');
  }

  /**
   Acknowledgement happens: when a log at work is idle, a sync of what is
   pending can be sent and answered with Ok at the end of the open chunk, so
   the theorems about acknowledged records are not about an empty set.
   */
  lemma SyncCanBeAnswered<R(!new), S(!new)>(env: Env<R, S>, run: seq<Sys<R, S>>, cb: nat) returns (run': seq<Sys<R, S>>)
    requires EnvOk(env) && IsRun(env, run)
    requires var s := run[|run| - 1]; s.worker.status == Running && s.main.open && s.sending == None && !HasWork(s)
    ensures IsRun(env, run') && |run| < |run'| && run'[..|run|] == run
    ensures var s, s' := run[|run| - 1], run'[|run'| - 1];
            s'.replies == s.replies + [Reply(cb, Last(s.main.offsets), true, true)] && !HasWork(s')
  {
    hide EnvOk, Init, Steps, HasWork, CanSend, AfterSendPending, ReservedPending, PendingWrite;
    var s := run[|run| - 1];
    ReadyToSend(env, run);
    var run1 := SendsPending(env, run, true, Some(cb));
    AfterFacts(s, true, Some(cb));
    IdleQueue(s);
    run' := OneRequestAnswered(env, run1, PendingWrite(s.main, true, Some(cb)), cb);
    assert run'[..|run|] == run'[..|run1|][..|run|] == run;
  }

  lemma IdleQueue<R, S>(s: Sys<R, S>)
    requires !HasWork(s)
    ensures s.queue == [] && s.worker.phase == Idle
  {
  }

  /** An idle log can send whatever is pending. */
  lemma ReadyToSend<R(!new), S(!new)>(env: Env<R, S>, run: seq<Sys<R, S>>)
    requires EnvOk(env) && IsRun(env, run)
    requires var s := run[|run| - 1]; s.worker.status == Running && s.main.open && s.sending == None && !HasWork(s)
    ensures CanSend(env, run[|run| - 1], |run[|run| - 1].main.pending|)
  {
    hide EnvOk, Init, Next, HasWork, BudgetOk, OnDisk, Flows, FilesOk, BatchOk, RepliesOk;
    var i := |run| - 1;
    DoneAdmitsAny(env, run, i, |run[i].main.pending|);
    BudgetAlways(env, run, i);
    StepFacts(env, run, i);
  }

  lemma AfterFacts<R, S>(s: Sys<R, S>, sync: bool, cb: Option<nat>)
    ensures var s' := AfterSendPending(s, sync, cb);
            && s'.worker == s.worker && s'.replies == s.replies && s'.sending == None
            && s'.queue == s.queue + [SeqRequest(s.main.sent + 1, Write(PendingWrite(s.main, sync, cb)))]
            && PendingWrite(s.main, sync, cb).callback == cb && PendingWrite(s.main, sync, cb).sync == sync
            && PendingWrite(s.main, sync, cb).upto == Last(s.main.offsets)
  {
  }

  /** The only request of an otherwise idle worker is answered. */
  lemma OneRequestAnswered<R(!new), S(!new)>(env: Env<R, S>, run: seq<Sys<R, S>>, w: WriteReq, cb: nat)
    returns (run': seq<Sys<R, S>>)
    requires EnvOk(env) && IsRun(env, run) && run != [] && w.callback == Some(cb)
    requires var s := run[|run| - 1];
             s.worker.status == Running && s.worker.phase == Idle && |s.queue| == 1 && s.queue[0].req == Write(w)
    ensures IsRun(env, run') && |run| <= |run'| && run'[..|run|] == run
    ensures !HasWork(run'[|run'| - 1])
    ensures run'[|run'| - 1].replies == run[|run| - 1].replies + [Reply(cb, w.upto, w.sync, true)]
  {
    hide EnvOk, IsRun, WorksOn, Refines, RunOnes, Kept;
    var i, s := |run| - 1, run[|run| - 1];
    run' := WorkCanFinish(env, run);
    var j := |run'| - 1;
    assert run'[i] == run'[..|run|][i] == s;
    AloneIsGroupCommit(env, run', i, j);
    AnsweredAlone(StoreOf(s), s.queue, w, StoreOf(run'[j]));
  }

  lemma AnsweredAlone<R>(st: Store<R>, queue: seq<SeqRequest<R>>, w: WriteReq, st': Store<R>)
    requires |queue| == 1 && queue[0].req == Write(w) && w.callback.Some?
    requires Refines(RunOnes(st, Reqs(queue)), st')
    ensures st'.replies == st.replies + [Reply(w.callback.value, w.upto, w.sync, true)]
  {
    hide RunOnes, HandleWrites, Refines;
    var q: seq<Request<R>> := [Write(w)];
    assert Reqs(queue) == q;
    RunOneWrite(st, w);
    RepliesToOne(st, w);
    SameReplies(RunOnes(st, q), st');
  }

  lemma RunOneWrite<R>(st: Store<R>, w: WriteReq)
    ensures RunOnes<R>(st, [Write(w)]) == HandleWrites(st, [w])
  {
    hide HandleWrites;
    var q: seq<Request<R>> := [Write(w)];
    assert q[..0] == [];
  }

  lemma RepliesToOne<R>(st: Store<R>, w: WriteReq)
    ensures HandleWrites(st, [w]).replies == st.replies + RepliesOf(w)
  {
    hide Data, AllReplies, RepliesOf, NeedsSync;
    OneWrite(w);
  }

  lemma SameReplies<R>(a: Store<R>, b: Store<R>)
    requires Refines(a, b)
    ensures a.replies == b.replies
  {
  }
}
