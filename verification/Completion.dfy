/** Sequence numbers, completion tracking, and what a successful shutdown means. */
module Completion {
  import opened Codec
  import opened Log
  import opened Requests
  import opened Backlog
  import opened Recovery
  import opened CrashImages
  import opened System
  import opened Invariant
  import opened MainSteps
  import opened Budget
  import opened Durability

  /** The number of the last request the worker has taken from the queue. */
  function Taken<R, S>(s: Sys<R, S>): int {
    s.main.sent - |s.queue|
  }

  ghost predicate NextOk<R>(next: Option<SeqRequest<R>>, last: int) {
    next.Some? ==> !next.value.req.Write? && next.value.seqNo == last
  }

  /** What the current phase says about the numbers: its last request is the last one taken. */
  ghost predicate PhaseSeqs<R>(phase: Phase<R>, taken: int, done: nat) {
    match phase
    case Idle => done == taken
    case Writing(b, _) => BatchSeqs(b, taken, done)
    case Syncing(b) => BatchSeqs(b, taken, done)
    case Replying(b, i) => BatchSeqs(b, taken, done) && i <= |b.writes|
    case Finishing(next, n) =>
      && NextOk(next, taken) && done < taken && n <= taken
      && (if next == None then n == taken else n == taken - 1 || done == taken - 1)
  }

  ghost predicate BatchSeqs<R>(b: Batch<R>, taken: int, done: nat) {
    && b.writes != [] && b.lastSeq == done + |b.writes|
    && NextOk(b.next, taken) && b.lastSeq + (if b.next.Some? then 1 else 0) == taken
  }

  /**
   Requests are numbered without gaps: those up to `done` are finished, the
   batch has the next ones, then the request that ended it, then the queue.
   */
  ghost predicate SeqsOk<R, S>(s: Sys<R, S>) {
    && (s.worker.status == Running ==>
          && s.worker.done <= Taken(s)
          && (forall i | 0 <= i < |s.queue| :: s.queue[i].seqNo == Taken(s) + 1 + i)
          && PhaseSeqs(s.worker.phase, Taken(s), s.worker.done))
    && (s.worker.status == Stopped ==> s.worker.done == s.main.sent && !s.main.open)
    && s.worker.done <= s.main.sent
    && (forall i | 0 <= i < |s.queue| :: s.queue[i].seqNo > s.worker.done)
    && (!s.main.open ==> s.sending == None)
  }

  lemma EnqueueSeqs<R, S>(s: Sys<R, S>, s1: Sys<R, S>, req: Request<R>)
    requires SeqsOk(s) && s.worker.status != Stopped
    requires s1.queue == s.queue && s1.worker == s.worker && s1.main.sent == s.main.sent
    ensures SeqsOk(Enqueued(s1, req))
  {
    var s' := Enqueued(s1, req);
    assert Taken(s') == Taken(s);
    forall i | 0 <= i < |s'.queue| && s.worker.status == Running ensures s'.queue[i].seqNo == Taken(s') + 1 + i {
      if i < |s.queue| {
        assert s'.queue[i] == s.queue[i];
      }
    }
  }

  lemma TakeSeqs<R, S>(s: Sys<R, S>, n: nat, withNext: bool, s': Sys<R, S>)
    requires SeqsOk(s) && s.worker.status == Running && DoesTakeWrites(s, n, withNext, s')
    ensures SeqsOk(s')
  {
    hide Data, NeedsSync;
    var k := if withNext then n + 1 else n;
    assert Taken(s') == Taken(s) + k;
    assert s.queue[n - 1].seqNo == Taken(s) + n;
    if withNext {
      assert s.queue[n].seqNo == Taken(s) + n + 1;
    }
    forall i | 0 <= i < |s'.queue| ensures s'.queue[i].seqNo == Taken(s') + 1 + i {
      assert s'.queue[i] == s.queue[k + i];
    }
  }

  /** A step that queues nothing. */
  lemma QuietSeqs<R, S>(s: Sys<R, S>, s': Sys<R, S>)
    requires SeqsOk(s) && s'.queue == s.queue && s'.worker == s.worker && s'.main.sent == s.main.sent
    requires (s'.main.open ==> s.main.open) && (!s'.main.open ==> s'.sending == None)
    ensures SeqsOk(s')
  {
    hide PhaseSeqs;
  }

  lemma SendFailsSeqs<R, S>(s: Sys<R, S>, s': Sys<R, S>)
    requires SeqsOk(s) && DoesSendFail(s, s') && s.worker.status != Running
    ensures SeqsOk(s')
  {
    hide PhaseSeqs;
  }

  lemma SendingIsOpen<R, S>(s: Sys<R, S>)
    requires SeqsOk(s) && s.sending.Some?
    ensures s.worker.status != Stopped && s.main.open
  {
  }

  lemma MainSeqs<R, S>(env: Env<R, S>, s: Sys<R, S>, step: Step<R>, s': Sys<R, S>)
    requires SeqsOk(s) && Placed(s) && MainStep(env, s, step, s') && (s.worker.status == Running ==> s.worker.rx)
    ensures SeqsOk(s') && s'.worker.done == s.worker.done
  {
    hide SeqsOk, Settled, IsFull, WithChunk, WithRecord, IdsFrom, FirstIsDurable, Promised, Rotated, PendingWrite, Appended;
    match step
    case Enqueue =>
      SendingIsOpen(s);
      RotatedSent(env.codec, s.main, env.checkpoint(s.sm));
      EnqueueSeqs(s, if s.sending.value.AppendFile? then Swapped(env, s) else s, s.sending.value);
    case SendFails => SendFailsSeqs(s, s');
    case Append(r) => AppendedSent(env.codec, s.main, r); QuietSeqs(s, s');
    case _ => QuietSeqs(s, s');
  }

  lemma RotatedSent<R>(c: Codec<R>, m: Main<R>, ck: R)
    ensures Rotated(c, m, ck).sent == m.sent && Rotated(c, m, ck).open == m.open
  {
  }

  lemma AppendedSent<R>(c: Codec<R>, m: Main<R>, r: R)
    ensures Appended(c, m, r).sent == m.sent && Appended(c, m, r).open == m.open
  {
  }

  lemma TakeOtherSeqs<R, S>(s: Sys<R, S>, s': Sys<R, S>)
    requires SeqsOk(s) && s.worker.status == Running && s.worker.phase == Idle && s.queue != [] && !s.queue[0].req.Write?
    requires s' == InPhase(s, Finishing(Some(s.queue[0]), 0)).(queue := s.queue[1..])
    ensures SeqsOk(s')
  {
    assert s.queue[0].seqNo == Taken(s) + 1;
    forall i | 0 <= i < |s'.queue| ensures s'.queue[i].seqNo == Taken(s') + 1 + i {
      assert s'.queue[i] == s.queue[i + 1];
    }
  }

  /** A step within a phase, or to one whose numbers follow. */
  lemma SameQueueSeqs<R, S>(s: Sys<R, S>, s': Sys<R, S>)
    requires SeqsOk(s) && s.worker.status == s'.worker.status == Running
    requires s'.queue == s.queue && s'.main == s.main && s'.sending == s.sending && s'.worker.done <= Taken(s)
    requires PhaseSeqs(s'.worker.phase, Taken(s), s'.worker.done)
    ensures SeqsOk(s')
  {
  }

  lemma FinishSeqs<R, S>(s: Sys<R, S>, s': Sys<R, S>)
    requires SeqsOk(s) && s.worker.status == Running && DoesFinish(s, s')
    ensures SeqsOk(s') && s'.worker.done == Taken(s)
  {
    SameQueueSeqs(s, s');
  }

  lemma UnlinkSeqs<R, S>(s: Sys<R, S>, s': Sys<R, S>)
    requires SeqsOk(s) && s.worker.status == Running && DoesUnlink(s, s')
    ensures SeqsOk(s') && s'.worker.done == s.worker.done
  {
    SameQueueSeqs(s, s');
  }

  /** The steps on a batch after it was taken. */
  lemma BatchStepSeqs<R, S>(s: Sys<R, S>, step: Step<R>, s': Sys<R, S>)
    requires SeqsOk(s) && Placed(s) && WorkerStep(s, step, s')
    requires step.WriteSome? || step.WriteDone? || step.SyncOlder? || step.SyncLast? || step.ReplyOne? || step.Release?
    ensures SeqsOk(s') && s'.worker.done == s.worker.done
  {
    hide Data, Grown, Synced, NeedsSync, BatchEnd, RepliesOf;
    SameQueueSeqs(s, s');
  }

  lemma EndSeqs<R, S>(s: Sys<R, S>, step: Step<R>, s': Sys<R, S>)
    requires SeqsOk(s) && Placed(s) && WorkerStep(s, step, s') && (step.Fail? || step.Stop? || step.DropReceiver?)
    ensures SeqsOk(s') && s'.worker.done == s.worker.done
  {
  }

  lemma WorkerSeqs<R, S>(s: Sys<R, S>, step: Step<R>, s': Sys<R, S>)
    requires SeqsOk(s) && Placed(s) && WorkerStep(s, step, s')
    ensures SeqsOk(s') && s'.worker.done >= s.worker.done
  {
    hide SeqsOk, DoesTakeWrites, DoesFinish, DoesUnlink, Data, Grown, Synced, NeedsSync, BatchEnd, RepliesOf;
    match step
    case TakeWrites(n, withNext) => TakeSeqs(s, n, withNext, s'); TakeKeepsDone(s, n, withNext, s');
    case TakeOther => TakeOtherSeqs(s, s');
    case Finish => FinishSeqs(s, s'); DoneIsTaken(s);
    case Unlink => UnlinkSeqs(s, s');
    case WriteSome(_) => BatchStepSeqs(s, step, s');
    case WriteDone => BatchStepSeqs(s, step, s');
    case SyncOlder => BatchStepSeqs(s, step, s');
    case SyncLast => BatchStepSeqs(s, step, s');
    case ReplyOne => BatchStepSeqs(s, step, s');
    case Release => BatchStepSeqs(s, step, s');
    case _ => EndSeqs(s, step, s');
  }

  lemma DoneIsTaken<R, S>(s: Sys<R, S>)
    requires SeqsOk(s) && s.worker.status == Running
    ensures s.worker.done <= Taken(s)
  {
  }

  lemma TakeKeepsDone<R, S>(s: Sys<R, S>, n: nat, withNext: bool, s': Sys<R, S>)
    requires DoesTakeWrites(s, n, withNext, s')
    ensures s'.worker.done == s.worker.done
  {
  }

  /** Numbering and completion in every state; `done` never decreases between crashes. */
  lemma {:induction false} SeqsAlways<R(!new), S(!new)>(env: Env<R, S>, run: seq<Sys<R, S>>, i: nat)
    requires IsRun(env, run) && i < |run|
    ensures SeqsOk(run[i])
    ensures i > 0 ==> run[i].worker.done >= run[i - 1].worker.done
                      || (exists image, ids, m :: Next(env, run[i - 1], Restart(image, ids, m), run[i]))
  {
    hide MainStep, WorkerStep, Open, SeqsOk, BudgetOk;
    if i == 0 {
      BootedSeqs(run[0]);
    } else {
      BudgetAlways(env, run, i - 1);
      SeqsAlways(env, run, i - 1);
      var s, s' := run[i - 1], run[i];
      assert Steps(env, s, s');
      var step :| Next(env, s, step, s');
      if step.Restart? {
        BootedSeqs(s');
      } else if MainStep(env, s, step, s') {
        MainSeqs(env, s, step, s');
      } else {
        WorkerSeqs(s, step, s');
      }
    }
  }

  lemma BootedSeqs<R, S>(s: Sys<R, S>)
    requires s.queue == [] && s.worker.phase == Idle && s.worker.done == 0 && s.main.sent == 0 && s.worker.status == Running
    requires s.sending == None
    ensures SeqsOk(s)
  {
  }

  /** No request with a number up to `done` is queued or in the worker's hands. */
  lemma DoneMeansFinished<R, S>(s: Sys<R, S>)
    requires SeqsOk(s) && s.worker.status == Running
    ensures forall i | 0 <= i < |s.queue| :: s.queue[i].seqNo > s.worker.done
    ensures s.worker.done == s.main.sent ==> s.queue == [] && s.worker.phase == Idle
  {
  }

  // wait_for

  datatype Wait = Returns | Fails | Blocks

  /** The outcome of waiting for a sequence number in the current state. */
  function WaitFor<R, S>(s: Sys<R, S>, target: nat): Wait {
    if s.worker.done >= target then Returns
    else if s.worker.status == Failed then Fails
    else Blocks
  }

  /** Once the worker has stopped, for whatever reason, waiting for the requests sent ends. */
  lemma StoppedWorkerWakesWaiters<R(!new), S(!new)>(env: Env<R, S>, run: seq<Sys<R, S>>, i: nat)
    requires IsRun(env, run) && i < |run| && run[i].worker.status != Running
    ensures WaitFor(run[i], run[i].main.sent) != Blocks
  {
    hide Init, Next;
    SeqsAlways(env, run, i);
  }

  /** Everything appended is in the files, and durable. */
  ghost predicate AllDurable<R, S>(env: Env<R, S>, s: Sys<R, S>) {
    && Placed(s) && s.cur == |s.hist| - 1
    && IsWhole(env.codec, s.hist[s.cur], s.disk) && DurableEnd(s) == End(env.codec, s.hist[s.cur])
  }

  /** With nothing left to do, what was promised is what is on disk. */
  lemma IdleIsSettled<R(!new), S(!new)>(env: Env<R, S>, s: Sys<R, S>)
    requires Flows(env, s) && s.queue == [] && s.worker.phase == Idle && s.sending == None && Settled(s)
    ensures AllDurable(env, s)
  {
    hide Stream, Runs;
    assert Todo(s) == [];
    assert Promised(s) == PosOf(s);
    assert PosOf(s).have + [] == PosOf(s).have;
  }

  // shutdown

  /** A step of `shutdown` after it reserved its sync: the sync is queued, the queue is closed, or the worker works. */
  ghost predicate Drains<R(!new), S>(env: Env<R, S>, s: Sys<R, S>, s': Sys<R, S>) {
    Placed(s) && (MainStep(env, s, Enqueue, s') || MainStep(env, s, Close, s') || exists step :: WorkerStep(s, step, s'))
  }

  /** `shutdown` from state `a` on: its sync of what is pending is accepted, and it waits until state `b`. */
  ghost predicate ShutsDown<R(!new), S>(env: Env<R, S>, run: seq<Sys<R, S>>, a: nat, b: nat) {
    && a < b < |run| && run[a].worker.status == Running
    && Placed(run[a]) && MainStep(env, run[a], SendPending(true, None), run[a + 1])
    && forall i | a < i < b :: Drains(env, run[i], run[i + 1])
  }

  /** While the worker runs everything is queued for sync; once it is gone, all done means all durable. */
  ghost predicate ShutOk<R, S>(env: Env<R, S>, s: Sys<R, S>) {
    && Placed(s) && (s.sending.Some? ==> s.sending.value.Write?)
    && (s.worker.status == Running ==> Settled(s))
    && (s.worker.status != Running && s.sending == None && s.worker.done >= s.main.sent ==> AllDurable(env, s))
  }

  /** A running worker that has done everything leaves everything durable. */
  lemma AllDone<R(!new), S(!new)>(env: Env<R, S>, s: Sys<R, S>)
    requires Inv(env, s) && SeqsOk(s) && s.worker.status == Running && s.worker.done >= s.main.sent && s.sending == None
    requires Placed(s) && Settled(s)
    ensures AllDurable(env, s)
  {
    hide OnDisk, IndexOk, FilesOk, BatchOk, RepliesOk, Flows, Settled, AllDurable;
    DoneMeansFinished(s);
    IdleIsSettled(env, s);
  }

  lemma WorkerEnds<R, S>(s: Sys<R, S>, step: Step<R>, s': Sys<R, S>)
    requires Placed(s) && WorkerStep(s, step, s')
    ensures Framed(s, s')
    ensures s'.worker.status != Running ==> s'.disk == s.disk && s'.cur == s.cur && s'.worker.done == s.worker.done
  {
    hide Data, NeedsSync, Grown, Synced, BatchEnd, DoesTakeWrites, DoesFinish, RepliesOf;
    WorkerFrame(s, step, s');
    match step
    case TakeWrites(n, withNext) => TakeFrame(s, n, withNext, s');
    case Finish => FinishFrame(s, s');
    case _ =>
  }

  lemma DrainKeeps<R(!new), S(!new)>(env: Env<R, S>, s: Sys<R, S>, s': Sys<R, S>)
    requires Inv(env, s) && SeqsOk(s) && ShutOk(env, s) && Drains(env, s, s')
    ensures ShutOk(env, s') && s'.hist == s.hist
  {
    hide Inv, SeqsOk, Settled, AllDurable, WorkerStep, MainStep, Preserves;
    if MainStep(env, s, Close, s') {
      CloseKeeps(env, s, s');
    } else if MainStep(env, s, Enqueue, s') {
      EnqueueKeeps(env, s, s');
    } else {
      var step :| WorkerStep(s, step, s');
      WorkerStepKeeps(env, s, step, s');
      WorkerEnds(s, step, s');
      InvPlaced(env, s');
      if s'.worker.status != Running && s'.worker.done >= s'.main.sent && s'.sending == None {
        if s.worker.status == Running {
          AllDone(env, s);
        }
        SameDurable(env, s, s');
      }
    }
  }

  lemma EnqueueKeeps<R(!new), S(!new)>(env: Env<R, S>, s: Sys<R, S>, s': Sys<R, S>)
    requires Inv(env, s) && SeqsOk(s) && ShutOk(env, s) && MainStep(env, s, Enqueue, s')
    ensures ShutOk(env, s') && s'.hist == s.hist
  {
    hide Inv, Settled, AllDurable, Preserves;
    EnqueueStep(env, s, s');
    InvPlaced(env, s');
  }

  lemma InvPlaced<R(!new), S(!new)>(env: Env<R, S>, s: Sys<R, S>)
    requires Inv(env, s)
    ensures Placed(s)
  {
  }

  lemma SameDurable<R, S>(env: Env<R, S>, s: Sys<R, S>, s': Sys<R, S>)
    requires AllDurable(env, s) && s'.disk == s.disk && s'.hist == s.hist && s'.cur == s.cur
    ensures AllDurable(env, s')
  {
  }

  lemma CloseKeeps<R(!new), S(!new)>(env: Env<R, S>, s: Sys<R, S>, s': Sys<R, S>)
    requires ShutOk(env, s) && MainStep(env, s, Close, s')
    ensures ShutOk(env, s') && s'.hist == s.hist
  {
    hide Final, Stream, IsWhole;
    assert Todo(s') == Todo(s);
  }

  lemma {:induction false} ShutdownState<R(!new), S(!new)>(env: Env<R, S>, run: seq<Sys<R, S>>, a: nat, b: nat)
    requires EnvOk(env) && IsRun(env, run) && ShutsDown(env, run, a, b)
    ensures ShutOk(env, run[b]) && run[b].hist == run[a].hist
    decreases b
  {
    hide EnvOk, Init, Next, Inv, SeqsOk, ShutOk, MainStep, Drains;
    EveryStateIsOk(env, run, b - 1);
    if b == a + 1 {
      SyncAccepted(env, run[a], run[b]);
    } else {
      ShutdownState(env, run, a, b - 1);
      SeqsAlways(env, run, b - 1);
      assert Drains(env, run[b - 1], run[b]);
      DrainKeeps(env, run[b - 1], run[b]);
    }
  }

  lemma SyncAccepted<R(!new), S(!new)>(env: Env<R, S>, s: Sys<R, S>, s': Sys<R, S>)
    requires Inv(env, s) && Placed(s) && s.worker.status == Running && MainStep(env, s, SendPending(true, None), s')
    ensures ShutOk(env, s') && s'.hist == s.hist
  {
    hide Core, Settled, AllDurable, Fits, Preserves;
    SendPendingStep(env, s, true, None, s');
  }

  /**
   A shutdown that returns Ok loses nothing: if its sync of the pending
   records was accepted and waiting for all requests returns Ok, every record
   ever appended is in the files and durable.
   */
  lemma ShutdownIsDurable<R(!new), S(!new)>(env: Env<R, S>, run: seq<Sys<R, S>>, a: nat, b: nat)
    requires EnvOk(env) && IsRun(env, run) && ShutsDown(env, run, a, b)
    requires run[b].sending == None && WaitFor(run[b], run[b].main.sent) == Returns
    ensures run[b].hist == run[a].hist && AllDurable(env, run[b])
  {
    hide EnvOk, Init, Next, Inv, SeqsOk, MainStep, Drains, Settled, AllDurable, ShutsDown;
    ShutdownState(env, run, a, b);
    ShutsDownIndex(env, run, a, b);
    if run[b].worker.status == Running {
      EveryStateIsOk(env, run, b);
      SeqsAlways(env, run, b);
      AllDone(env, run[b]);
    }
  }

  lemma ShutsDownIndex<R(!new), S>(env: Env<R, S>, run: seq<Sys<R, S>>, a: nat, b: nat)
    requires ShutsDown(env, run, a, b)
    ensures a < b < |run|
  {
  }
}
