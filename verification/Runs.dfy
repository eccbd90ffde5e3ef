/** Building runs step by step. */
module Runs {
  import opened Log
  import opened Requests
  import opened System

  lemma OneLonger<R(!new), S(!new)>(env: Env<R, S>, run: seq<Sys<R, S>>, s': Sys<R, S>)
    requires IsRun(env, run) && Steps(env, run[|run| - 1], s')
    ensures IsRun(env, run + [s'])
  {
    hide Init, Steps;
    var run' := run + [s'];
    forall i | 0 <= i < |run'| - 1 ensures Steps(env, run'[i], run'[i + 1]) {
      assert i < |run| - 1 ==> Steps(env, run[i], run[i + 1]);
    }
  }

  /** A run with one more step. */
  lemma AddStep<R(!new), S(!new)>(env: Env<R, S>, run: seq<Sys<R, S>>, step: Step<R>, s': Sys<R, S>) returns (run': seq<Sys<R, S>>)
    requires IsRun(env, run) && Next(env, run[|run| - 1], step, s')
    ensures run' == run + [s'] && IsRun(env, run')
  {
    hide Init, Next;
    OneLonger(env, run, s');
    run' := run + [s'];
  }

  /** A main-thread step that is not a crash is a step of the system. */
  lemma AddMain<R(!new), S(!new)>(env: Env<R, S>, run: seq<Sys<R, S>>, step: Step<R>, s': Sys<R, S>) returns (run': seq<Sys<R, S>>)
    requires IsRun(env, run) && Placed(run[|run| - 1]) && MainStep(env, run[|run| - 1], step, s')
    ensures run' == run + [s'] && IsRun(env, run')
  {
    hide Init;
    assert Next(env, run[|run| - 1], step, s') by {
      NotRestart(env, run[|run| - 1], step, s');
    }
    run' := AddStep(env, run, step, s');
  }

  lemma NotRestart<R(!new), S(!new)>(env: Env<R, S>, s: Sys<R, S>, step: Step<R>, s': Sys<R, S>)
    requires Placed(s) && MainStep(env, s, step, s')
    ensures !step.Restart?
  {
  }

  /** The pending bytes reserved, and then queued. */
  function ReservedPending<R, S>(s: Sys<R, S>, sync: bool, cb: Option<nat>): Sys<R, S> {
    Reserving(s.(main := s.main.(pending := [])), Write(PendingWrite(s.main, sync, cb)))
  }

  function AfterSendPending<R, S>(s: Sys<R, S>, sync: bool, cb: Option<nat>): Sys<R, S> {
    Enqueued(ReservedPending(s, sync, cb), Write(PendingWrite(s.main, sync, cb)))
  }

  /** A running log that is not inside another call, with room for `size` more bytes. */
  predicate CanSend<R, S>(env: Env<R, S>, s: Sys<R, S>, size: nat) {
    Placed(s) && s.hist != [] && s.worker.rx && s.main.open && s.sending == None && Fits(env, s, size)
  }

  lemma SendsPending<R(!new), S(!new)>(env: Env<R, S>, run: seq<Sys<R, S>>, sync: bool, cb: Option<nat>)
    returns (run': seq<Sys<R, S>>)
    requires IsRun(env, run) && CanSend(env, run[|run| - 1], |run[|run| - 1].main.pending|)
    ensures IsRun(env, run')
    ensures run' == run + [ReservedPending(run[|run| - 1], sync, cb), AfterSendPending(run[|run| - 1], sync, cb)]
  {
    hide Init, PendingWrite;
    var s := run[|run| - 1];
    var s1, s2 := ReservedPending(s, sync, cb), AfterSendPending(s, sync, cb);
    SizeOfPending(s, sync, cb);
    assert MainStep(env, s, SendPending(sync, cb), s1);
    var run1 := AddMain(env, run, SendPending(sync, cb), s1);
    assert MainStep(env, s1, Enqueue, s2);
    run' := AddMain(env, run1, Enqueue, s2);
  }

  lemma SizeOfPending<R, S>(s: Sys<R, S>, sync: bool, cb: Option<nat>)
    ensures SizeOf(Request<R>.Write(PendingWrite(s.main, sync, cb))) == |s.main.pending|
  {
  }
}
