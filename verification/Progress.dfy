/** The worker never gets stuck, and what it has been given is a bound on what it does. */
module Progress {
  import opened Codec
  import opened Log
  import opened Requests
  import opened Backlog
  import opened CrashImages
  import opened System
  import opened Invariant
  import opened WorkerSteps
  import opened Durability
  import opened Budget
  import opened Completion

  // Never stuck

  ghost predicate HasWork<R, S>(s: Sys<R, S>) {
    s.queue != [] || s.worker.phase != Idle
  }

  /** The held bytes are reserved, so releasing them never underflows. */
  lemma ReleaseFits<R, S>(env: Env<R, S>, s: Sys<R, S>)
    requires BudgetOk(env, s) && s.worker.status == Running && s.worker.phase.Replying?
    ensures |Data(s.worker.phase.batch.writes)| <= s.used
  {
    hide Sum, Holders, Data;
    DataSize(s.worker.phase.batch.writes);
    SumThree(WriteSizes(s.worker.phase.batch.writes), QueueSizes(s.queue), SendingSizes(s.sending));
  }

  /** The file to unlink exists. */
  lemma UnlinkExists<R(!new), S(!new)>(env: Env<R, S>, s: Sys<R, S>, sr: SeqRequest<R>, n: nat)
    requires Inv(env, s) && s.worker.status == Running && s.worker.phase == Finishing(Some(sr), n)
    requires sr.req.RemoveChunks? && sr.req.ids != []
    ensures sr.req.ids[0] in s.disk
  {
    hide Stream, ReplayChunks, FirstIsDurable, ValidLog, IndexOk, RepliesOk, FilesOk, BatchOk, EndsAt;
    var ids := sr.req.ids;
    assert Todo(s) == [RemoveChunks(ids)] + Waiting(s);
    UnlinkRuns(env.codec, s.hist, PosOf(s), ids, Waiting(s));
    assert IsWhole(env.codec, s.hist[s.lo], s.disk);
  }

  lemma CanTake<R, S>(s: Sys<R, S>) returns (step: Step<R>, s': Sys<R, S>)
    requires s.worker.status == Running && s.worker.phase == Idle && s.queue != [] && Placed(s)
    ensures WorkerStep(s, step, s') && !step.Fail? && !step.Stop?
  {
    if s.queue[0].req.Write? {
      step := TakeWrites(1, false);
      var writes := WritesOf(s.queue[..1]);
      s' := s.(queue := s.queue[1..],
      worker := s.worker.(phase := Writing(Batch(writes, s.queue[0].seqNo, None), Data(writes))));
      assert DoesTakeWrites(s, 1, false, s');
    } else {
      step := TakeOther;
      s' := InPhase(s, Finishing(Some(s.queue[0]), 0)).(queue := s.queue[1..]);
    }
  }

  lemma CanFinish<R(!new), S(!new)>(env: Env<R, S>, s: Sys<R, S>) returns (step: Step<R>, s': Sys<R, S>)
    requires Inv(env, s) && SeqsOk(s) && s.worker.status == Running && s.worker.phase.Finishing? && Placed(s)
    ensures WorkerStep(s, step, s') && !step.Fail? && !step.Stop?
  {
    hide Inv;
    step := Finish;
    var n := s.worker.phase.lastSeq;
    match s.worker.phase.next
    case None => s' := Completed(s, n);
    case Some(sr) =>
      match sr.req
      case AppendFile(e) =>
        s' := Completed(s.(worker := s.worker.(files := s.worker.files + [e]), cur := s.cur + 1), Max(n, sr.seqNo));
      case RemoveChunks(ids) =>
        if ids == [] {
          s' := Completed(s, Max(n, sr.seqNo));
        } else {
          UnlinkExists(env, s, sr, n);
          step := Unlink;
          s' := InPhase(s, Finishing(Some(SeqRequest(sr.seqNo, RemoveChunks(ids[1..]))), n))
          .(disk := s.disk - {ids[0]}, lo := s.lo + 1);
        }
  }

  lemma CanWrite<R, S>(s: Sys<R, S>) returns (step: Step<R>, s': Sys<R, S>)
    requires s.worker.status == Running && Placed(s) && s.worker.phase.Writing?
    ensures WorkerStep(s, step, s') && !step.Fail? && !step.Stop?
  {
    hide NeedsSync, Grown;
    var b, rest := s.worker.phase.batch, s.worker.phase.rest;
    if rest != [] {
      step := WriteSome(|rest|);
      s' := InPhase(s, Writing(b, rest[|rest|..])).(disk := Grown(s, rest[..|rest|]));
    } else {
      step := WriteDone;
      s' := InPhase(s, if NeedsSync(b.writes) then Syncing(b) else Replying(b, 0));
    }
  }

  lemma CanSync<R, S>(s: Sys<R, S>) returns (step: Step<R>, s': Sys<R, S>)
    requires s.worker.status == Running && Placed(s) && s.worker.phase.Syncing? && s.worker.files != []
    ensures WorkerStep(s, step, s') && !step.Fail? && !step.Stop?
  {
    hide Synced, BatchEnd;
    var b, files := s.worker.phase.batch, s.worker.files;
    if |files| > 1 {
      step := SyncOlder;
      s' := s.(worker := s.worker.(files := files[1..]), disk := Synced(s.disk, files[0].start));
    } else {
      step := SyncLast;
      s' := InPhase(s, Replying(b, 0))
      .(disk := Synced(s.disk, files[0].start), notes := s.notes + [Note(files[0].start, BatchEnd(b), files[0].prev)]);
    }
  }

  lemma CanReply<R, S>(env: Env<R, S>, s: Sys<R, S>) returns (step: Step<R>, s': Sys<R, S>)
    requires BudgetOk(env, s) && SeqsOk(s) && s.worker.status == Running && Placed(s) && s.worker.phase.Replying?
    ensures WorkerStep(s, step, s') && !step.Fail? && !step.Stop?
  {
    hide BudgetOk, Data, RepliesOf;
    var b, i := s.worker.phase.batch, s.worker.phase.replied;
    if i < |b.writes| {
      step := ReplyOne;
      s' := InPhase(s, Replying(b, i + 1)).(replies := s.replies + RepliesOf(b.writes[i]));
    } else {
      ReleaseFits(env, s);
      step := Release;
      s' := InPhase(s, Finishing(b.next, b.lastSeq)).(used := s.used - |Data(b.writes)|);
    }
  }

  /**
   In every reachable state with a running worker that has anything to do, it
   can take a step without failing: releases never underflow, files to unlink
   exist, and no write is ever taken for another kind of request.
   */
  lemma WorkerNeverStuck<R(!new), S(!new)>(env: Env<R, S>, run: seq<Sys<R, S>>, i: nat)
    returns (step: Step<R>, s': Sys<R, S>)
    requires EnvOk(env) && IsRun(env, run) && i < |run| && run[i].worker.status == Running && HasWork(run[i])
    ensures Placed(run[i]) && WorkerStep(run[i], step, s') && !step.Fail? && !step.Stop?
  {
    hide EnvOk, Init, Next, WorkerStep, SeqsOk, BudgetOk, OnDisk, Flows, IndexOk, RepliesOk, BatchOk;
    EveryStateIsOk(env, run, i);
    SeqsAlways(env, run, i);
    BudgetAlways(env, run, i);
    match run[i].worker.phase
    case Idle => step, s' := CanTake(run[i]);
    case Finishing(_, _) => step, s' := CanFinish(env, run[i]);
    case Writing(_, _) => step, s' := CanWrite(run[i]);
    case Syncing(_) => step, s' := CanSync(run[i]);
    case Replying(_, _) => step, s' := CanReply(env, run[i]);
  }

  // Bounded work

  function Cost<R>(req: Request<R>): nat {
    match req
    case Write(w) => |w.data| + 6
    case AppendFile(_) => 3
    case RemoveChunks(ids) => |ids| + 2
  }

  function QueueCost<R>(queue: seq<SeqRequest<R>>): nat {
    if queue == [] then 0 else Cost(queue[0].req) + QueueCost(queue[1..])
  }

  function NextCost<R>(next: Option<SeqRequest<R>>): nat {
    match next
    case None => 0
    case Some(sr) => Cost(sr.req)
  }

  function PhaseCost<R>(phase: Phase<R>): nat {
    match phase
    case Idle => 0
    case Writing(b, rest) => |rest| + |b.writes| + 4 + NextCost(b.next)
    case Syncing(b) => |b.writes| + 3 + NextCost(b.next)
    case Replying(b, i) => (if i <= |b.writes| then |b.writes| - i else 0) + 2 + NextCost(b.next)
    case Finishing(next, _) => 1 + NextCost(next)
  }

  /** An upper bound on the steps the worker can still take without new requests. */
  function Work<R, S>(s: Sys<R, S>): nat {
    |s.worker.files| + PhaseCost(s.worker.phase) + 2 * QueueCost(s.queue)
  }

  lemma {:induction false} QueueCostSplit<R>(q: seq<SeqRequest<R>>, n: nat)
    requires n <= |q|
    ensures QueueCost(q) == QueueCost(q[..n]) + QueueCost(q[n..])
    decreases n
  {
    if n > 0 {
      QueueCostSplit(q[1..], n - 1);
      assert q[..n][1..] == q[1..][..n - 1];
      assert q[1..][n - 1..] == q[n..];
    } else {
      assert q[0..] == q;
    }
  }

  lemma {:induction false} WritesCost<R>(q: seq<SeqRequest<R>>)
    requires forall i | 0 <= i < |q| :: q[i].req.Write?
    ensures QueueCost(q) == |Data(WritesOf(q))| + 6 * |q|
    decreases |q|
  {
    if q != [] {
      var front, last := q[..|q| - 1], q[|q| - 1..];
      WritesCost(front);
      QueueCostSplit(q, |q| - 1);
      assert last[1..] == [];
      var writes := WritesOf(q);
      assert writes[..|writes| - 1] == WritesOf(front);
    }
  }

  lemma TakeCost<R, S>(s: Sys<R, S>, n: nat, withNext: bool, s': Sys<R, S>)
    requires DoesTakeWrites(s, n, withNext, s')
    ensures Work(s') < Work(s)
  {
    hide Data, QueueCost, Cost;
    WritesCost(s.queue[..n]);
    QueueCostSplit(s.queue, n);
    if withNext {
      TakeNextCost(s.queue[n..]);
      assert s.queue[n..][1..] == s.queue[n + 1..];
    }
  }

  lemma TakeNextCost<R>(q: seq<SeqRequest<R>>)
    requires q != []
    ensures QueueCost(q) == Cost(q[0].req) + QueueCost(q[1..]) && Cost(q[0].req) >= 2
  {
  }

  lemma FinishCost<R, S>(s: Sys<R, S>, s': Sys<R, S>)
    requires DoesFinish(s, s')
    ensures Work(s') < Work(s)
  {
    hide QueueCost;
  }

  lemma UnlinkCost<R, S>(s: Sys<R, S>, s': Sys<R, S>)
    requires DoesUnlink(s, s')
    ensures Work(s') < Work(s)
  {
    hide QueueCost;
  }

  /** Every step the worker takes without failing uses up some of its work. */
  lemma WorkDecreases<R, S>(s: Sys<R, S>, step: Step<R>, s': Sys<R, S>)
    requires Placed(s) && s.worker.status == Running && WorkerStep(s, step, s') && !step.Fail? && !step.Stop?
    ensures Work(s') < Work(s)
  {
    hide DoesTakeWrites, DoesFinish, DoesUnlink, Data, NeedsSync, Grown, Synced, BatchEnd, RepliesOf, QueueCost;
    match step
    case TakeWrites(n, withNext) => TakeCost(s, n, withNext, s');
    case Finish => FinishCost(s, s');
    case Unlink => UnlinkCost(s, s');
    case TakeOther => TakeNextCost(s.queue);
    case _ =>
  }

  ghost predicate WorksOn<R(!new), S>(s: Sys<R, S>, s': Sys<R, S>) {
    Placed(s) && s.worker.status == Running && exists step :: WorkerStep(s, step, s') && !step.Fail? && !step.Stop?
  }

  /**
   The worker alone reaches the end of its work: without new requests it takes
   at most `Work` more steps, so a waiting caller waits for boundedly many.
   */
  lemma {:induction false} WorkIsBounded<R(!new), S(!new)>(run: seq<Sys<R, S>>, i: nat, j: nat)
    requires i <= j < |run| && forall n | i <= n < j :: WorksOn(run[n], run[n + 1])
    ensures Work(run[j]) + (j - i) <= Work(run[i])
    decreases j
  {
    hide Work, WorkerStep;
    if i < j {
      WorkIsBounded(run, i, j - 1);
      assert WorksOn(run[j - 1], run[j]);
      var step :| WorkerStep(run[j - 1], step, run[j]) && !step.Fail? && !step.Stop?;
      WorkDecreases(run[j - 1], step, run[j]);
    }
  }

  /** Once its work is done the worker holds no reservation, so any waiting sender is let through. */
  lemma DoneAdmitsAny<R(!new), S(!new)>(env: Env<R, S>, run: seq<Sys<R, S>>, i: nat, size: nat)
    requires IsRun(env, run) && i < |run| && run[i].worker.status == Running && !HasWork(run[i]) && run[i].sending == None
    ensures run[i].used == 0 && Fits(env, run[i], size)
  {
    hide Init, Next;
    BudgetAlways(env, run, i);
    assert Reserved(run[i]) == [];
  }
}
