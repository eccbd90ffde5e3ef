/** The byte budget of queued writes, in every state with a running worker. */
module Budget {
  import opened Log
  import opened Requests
  import opened Backlog
  import opened Recovery
  import opened System
  import opened Durability

  /** Total of the sizes, and how many of them are not zero. */
  function Sum(sizes: seq<nat>): nat {
    if sizes == [] then 0 else Sum(sizes[..|sizes| - 1]) + sizes[|sizes| - 1]
  }

  function Holders(sizes: seq<nat>): nat {
    if sizes == [] then 0 else Holders(sizes[..|sizes| - 1]) + (if sizes[|sizes| - 1] > 0 then 1 else 0)
  }

  lemma {:induction false} SumConcat(a: seq<nat>, b: seq<nat>)
    ensures Sum(a + b) == Sum(a) + Sum(b) && Holders(a + b) == Holders(a) + Holders(b)
    decreases |b|
  {
    if b == [] {
      assert a + b == a;
    } else {
      assert (a + b)[..|a + b| - 1] == a + b[..|b| - 1];
      SumConcat(a, b[..|b| - 1]);
    }
  }

  lemma {:induction false} SumPositive(a: seq<nat>)
    ensures Sum(a) > 0 <==> Holders(a) > 0
  {
    if a != [] {
      SumPositive(a[..|a| - 1]);
    }
  }

  function QueueSizes<R>(queue: seq<SeqRequest<R>>): (sizes: seq<nat>)
    ensures |sizes| == |queue| && forall i | 0 <= i < |queue| :: sizes[i] == SizeOf(queue[i].req)
    decreases |queue|
  {
    if queue == [] then [] else QueueSizes(queue[..|queue| - 1]) + [SizeOf(queue[|queue| - 1].req)]
  }

  function WriteSizes(writes: seq<WriteReq>): (sizes: seq<nat>)
    ensures |sizes| == |writes| && forall i | 0 <= i < |writes| :: sizes[i] == |writes[i].data|
    decreases |writes|
  {
    if writes == [] then [] else WriteSizes(writes[..|writes| - 1]) + [|writes[|writes| - 1].data|]
  }

  lemma {:induction false} DataSize(writes: seq<WriteReq>)
    ensures |Data(writes)| == Sum(WriteSizes(writes))
    decreases |writes|
  {
    if writes != [] {
      DataSize(writes[..|writes| - 1]);
      var sizes := WriteSizes(writes);
      assert sizes[..|sizes| - 1] == WriteSizes(writes[..|writes| - 1]);
    }
  }

  /** The sizes of the writes the worker holds and has not released. */
  function HeldSizes<R>(phase: Phase<R>): seq<nat> {
    match phase
    case Writing(b, _) => WriteSizes(b.writes)
    case Syncing(b) => WriteSizes(b.writes)
    case Replying(b, _) => WriteSizes(b.writes)
    case _ => []
  }

  /** The sizes of all requests that are reserved and not released. */
  function Reserved<R, S>(s: Sys<R, S>): seq<nat> {
    HeldSizes(s.worker.phase) + QueueSizes(s.queue) + SendingSizes(s.sending)
  }

  function SendingSizes<R>(sending: Option<Request<R>>): seq<nat> {
    if sending.Some? then [SizeOf(sending.value)] else []
  }

  /**
   The reserved bytes are exactly those of the unreleased requests, and they
   exceed the limit only when a single request holds them all.
   */
  ghost predicate BudgetOk<R, S>(env: Env<R, S>, s: Sys<R, S>) {
    s.worker.status == Running ==>
      && s.used == Sum(Reserved(s))
      && (s.used > env.queueLimit ==> Holders(Reserved(s)) == 1)
  }

  ghost predicate SameLoad<R, S>(s: Sys<R, S>, s': Sys<R, S>) {
    && s'.used == s.used && s'.worker.status == s.worker.status
    && Sum(Reserved(s')) == Sum(Reserved(s)) && Holders(Reserved(s')) == Holders(Reserved(s))
  }

  /** Admitting a request under the rule of `acquire`. */
  lemma ReserveBudget<R, S>(env: Env<R, S>, s: Sys<R, S>, req: Request<R>)
    requires BudgetOk(env, s) && s.worker.status == Running && s.sending == None && Fits(env, s, SizeOf(req))
    ensures BudgetOk(env, Reserving(s, req))
  {
    hide Sum, Holders, HeldSizes, QueueSizes;
    var n := SizeOf(req);
    assert Reserved(Reserving(s, req)) == Reserved(s) + [n];
    SumConcat(Reserved(s), [n]);
    SumOne(n);
    SumPositive(Reserved(s));
  }

  lemma SumOne(n: nat)
    ensures Sum([n]) == n && Holders([n]) == if n > 0 then 1 else 0
  {
    assert [n][..0] == [];
  }

  /** Queueing a reserved request moves its size, and nothing else. */
  lemma EnqueueBudget<R, S>(s: Sys<R, S>, s1: Sys<R, S>, req: Request<R>)
    requires s.sending == Some(req) && s1.queue == s.queue && s1.worker == s.worker && s1.used == s.used
    ensures SameLoad(s, Enqueued(s1, req))
  {
    hide Sum, Holders, HeldSizes;
    var s' := Enqueued(s1, req);
    assert s'.queue[..|s.queue|] == s.queue;
    assert QueueSizes(s'.queue) == QueueSizes(s.queue) + [SizeOf(req)];
    assert Reserved(s') == Reserved(s);
  }

  lemma {:induction false} QueueSizesSplit<R>(q: seq<SeqRequest<R>>, n: nat)
    requires n <= |q|
    ensures QueueSizes(q) == QueueSizes(q[..n]) + QueueSizes(q[n..])
  {
  }

  /** Taking a batch moves its sizes from the queue to the worker. */
  lemma TakeBudget<R, S>(s: Sys<R, S>, n: nat, withNext: bool, s': Sys<R, S>)
    requires DoesTakeWrites(s, n, withNext, s')
    ensures SameLoad(s, s')
  {
    hide Sum, Holders, Data, QueueSizes, WriteSizes, WritesOf, SendingSizes, Reserved;
    var writes, rest := WritesOf(s.queue[..n]), s.queue[n..];
    QueueSizesSplit(s.queue, n);
    SizesOfWrites(s.queue[..n]);
    IdleReserved(s, WriteSizes(writes), QueueSizes(rest));
    WritingReserved(s');
    if withNext {
      DropOther(rest);
      assert rest[1..] == s'.queue;
    }
  }

  lemma IdleReserved<R, S>(s: Sys<R, S>, a: seq<nat>, b: seq<nat>)
    requires s.worker.phase == Idle && QueueSizes(s.queue) == a + b
    ensures Sum(Reserved(s)) == Sum(a) + Sum(b) + Sum(SendingSizes(s.sending))
    ensures Holders(Reserved(s)) == Holders(a) + Holders(b) + Holders(SendingSizes(s.sending))
  {
    hide Sum, Holders, SendingSizes, QueueSizes;
    SumThree(a, b, SendingSizes(s.sending));
    assert [] + QueueSizes(s.queue) == QueueSizes(s.queue);
  }

  lemma WritingReserved<R, S>(s: Sys<R, S>)
    requires s.worker.phase.Writing?
    ensures var w, q, n := WriteSizes(s.worker.phase.batch.writes), QueueSizes(s.queue), SendingSizes(s.sending);
            Sum(Reserved(s)) == Sum(w) + Sum(q) + Sum(n) && Holders(Reserved(s)) == Holders(w) + Holders(q) + Holders(n)
  {
    hide Sum, Holders, SendingSizes, QueueSizes, WriteSizes;
    SumThree(WriteSizes(s.worker.phase.batch.writes), QueueSizes(s.queue), SendingSizes(s.sending));
  }

  lemma SumThree(a: seq<nat>, b: seq<nat>, c: seq<nat>)
    ensures Sum(a + b + c) == Sum(a) + Sum(b) + Sum(c)
    ensures Holders(a + b + c) == Holders(a) + Holders(b) + Holders(c)
  {
    SumConcat(a + b, c);
    SumConcat(a, b);
  }

  lemma SizesOfWrites<R>(q: seq<SeqRequest<R>>)
    requires forall i | 0 <= i < |q| :: q[i].req.Write?
    ensures WriteSizes(WritesOf(q)) == QueueSizes(q)
  {
  }

  /** A request that is not a write reserves nothing. */
  lemma DropOther<R>(q: seq<SeqRequest<R>>)
    requires q != [] && !q[0].req.Write?
    ensures Sum(QueueSizes(q)) == Sum(QueueSizes(q[1..])) && Holders(QueueSizes(q)) == Holders(QueueSizes(q[1..]))
  {
    QueueSizesSplit(q, 1);
    var zero := QueueSizes(q[..1]);
    assert zero == [0] && zero[..0] == [];
    SumConcat(zero, QueueSizes(q[1..]));
  }

  lemma ReleaseBudget<R, S>(env: Env<R, S>, s: Sys<R, S>, s': Sys<R, S>)
    requires BudgetOk(env, s) && s.worker.status == Running && s.worker.phase.Replying?
    requires var b := s.worker.phase.batch;
             && |Data(b.writes)| <= s.used
             && s' == InPhase(s, Finishing(b.next, b.lastSeq)).(used := s.used - |Data(b.writes)|)
    ensures BudgetOk(env, s')
  {
    hide Sum, Holders, Data;
    var held, queued, sending := WriteSizes(s.worker.phase.batch.writes), QueueSizes(s.queue), SendingSizes(s.sending);
    DataSize(s.worker.phase.batch.writes);
    SumThree(held, queued, sending);
    SumThree([], queued, sending);
    NoSum();
    SumPositive(Reserved(s'));
  }

  lemma NoSum()
    ensures Sum([]) == 0 && Holders([]) == 0
  {
  }

  lemma MainBudget<R, S>(env: Env<R, S>, s: Sys<R, S>, step: Step<R>, s': Sys<R, S>)
    requires BudgetOk(env, s) && Placed(s) && MainStep(env, s, step, s') && (s.worker.status == Running ==> s.worker.rx)
    ensures BudgetOk(env, s')
  {
    hide BudgetOk, Reserved, Sum, Holders, Settled, IsFull, Appended, WithChunk, WithRecord, IdsFrom, Rotated, FirstIsDurable,
    Promised, PendingWrite;
    if s.worker.status == Running {
      match step
      case SendPending(sync, cb) =>
        ReserveAfter(env, s, s.(main := s.main.(pending := [])), Write(PendingWrite(s.main, sync, cb)));
      case Rotate =>
        var id, ck := Last(s.main.offsets), env.checkpoint(s.sm);
        ReserveAfter(env, s, s.(disk := s.disk[id := EMPTY_FILE]), AppendFile(FileEntry(id, Some(ck))));
      case SendRemove(n) =>
        ReserveAfter(env, s, s.(purged := s.purged + n), RemoveChunks(IdsFrom(s.hist, s.purged, n)));
      case Enqueue =>
        EnqueueBudget(s, if s.sending.value.AppendFile? then Swapped(env, s) else s, s.sending.value);
        LoadBudget(env, s, s');
      case SendFails =>
        assert false;
      case _ => SameReserved(s, s'); LoadBudget(env, s, s');
    } else {
      MainFrame(env, s, step, s');
      StoppedBudget(env, s');
    }
  }

  lemma ReserveAfter<R, S>(env: Env<R, S>, s: Sys<R, S>, s1: Sys<R, S>, req: Request<R>)
    requires BudgetOk(env, s) && s.worker.status == Running && s.sending == None && Fits(env, s, SizeOf(req))
    requires s1.queue == s.queue && s1.used == s.used && s1.worker == s.worker && s1.sending == None
    ensures BudgetOk(env, Reserving(s1, req))
  {
    hide BudgetOk, Reserved, Sum, Holders;
    SameReserved(s, s1);
    LoadBudget(env, s, s1);
    ReserveBudget(env, s1, req);
  }

  lemma SameReserved<R, S>(s: Sys<R, S>, s': Sys<R, S>)
    requires s'.queue == s.queue && s'.used == s.used && s'.worker.status == s.worker.status && s'.sending == s.sending
    requires HeldSizes(s'.worker.phase) == HeldSizes(s.worker.phase)
    ensures SameLoad(s, s')
  {
  }

  lemma WorkerBudget<R, S>(env: Env<R, S>, s: Sys<R, S>, step: Step<R>, s': Sys<R, S>)
    requires BudgetOk(env, s) && Placed(s) && WorkerStep(s, step, s')
    ensures BudgetOk(env, s')
  {
    hide BudgetOk, Reserved, Sum, Holders, DoesTakeWrites, DoesFinish, Data, Grown, Synced, WriteSizes, NeedsSync, BatchEnd, RepliesOf;
    match step
    case TakeWrites(n, withNext) => TakeBudget(s, n, withNext, s'); LoadBudget(env, s, s');
    case TakeOther => TakeOtherBudget(s, s'); LoadBudget(env, s, s');
    case Release => ReleaseBudget(env, s, s');
    case Finish => FinishBudget(s, s'); LoadBudget(env, s, s');
    case Fail(_) => StoppedBudget(env, s');
    case Stop => StoppedBudget(env, s');
    case DropReceiver => StoppedBudget(env, s');
    case _ => SameReserved(s, s'); LoadBudget(env, s, s');
  }

  lemma LoadBudget<R, S>(env: Env<R, S>, s: Sys<R, S>, s': Sys<R, S>)
    requires BudgetOk(env, s) && SameLoad(s, s')
    ensures BudgetOk(env, s')
  {
    hide Reserved, Sum, Holders;
  }

  lemma StoppedBudget<R, S>(env: Env<R, S>, s: Sys<R, S>)
    requires s.worker.status != Running
    ensures BudgetOk(env, s)
  {
  }

  lemma FinishBudget<R, S>(s: Sys<R, S>, s': Sys<R, S>)
    requires DoesFinish(s, s')
    ensures SameLoad(s, s')
  {
    hide Reserved, Sum, Holders;
    SameReserved(s, s');
  }

  lemma TakeOtherBudget<R, S>(s: Sys<R, S>, s': Sys<R, S>)
    requires s.worker.phase == Idle && s.queue != [] && !s.queue[0].req.Write?
    requires s' == InPhase(s, Finishing(Some(s.queue[0]), 0)).(queue := s.queue[1..])
    ensures SameLoad(s, s')
  {
    hide Sum, Holders, QueueSizes, SendingSizes;
    DropOther(s.queue);
    SumThree([], QueueSizes(s.queue), SendingSizes(s.sending));
    SumThree([], QueueSizes(s'.queue), SendingSizes(s.sending));
  }

  /** The budget, and a receiver for the queue while the worker runs, in every state of every run. */
  lemma {:induction false} BudgetAlways<R(!new), S(!new)>(env: Env<R, S>, run: seq<Sys<R, S>>, i: nat)
    requires IsRun(env, run) && i < |run|
    ensures BudgetOk(env, run[i]) && (run[i].worker.status == Running ==> run[i].worker.rx)
  {
    hide MainStep, WorkerStep, Open, BudgetOk;
    if i == 0 {
      BootedBudget(env, run[0]);
    } else {
      BudgetAlways(env, run, i - 1);
      var s, s' := run[i - 1], run[i];
      assert Steps(env, s, s');
      var step :| Next(env, s, step, s');
      if step.Restart? {
        BootedBudget(env, s');
      } else if MainStep(env, s, step, s') {
        MainBudget(env, s, step, s');
        MainFrame(env, s, step, s');
      } else {
        WorkerBudget(env, s, step, s');
        WorkerFrame(s, step, s');
      }
    }
  }

  lemma BootedBudget<R, S>(env: Env<R, S>, s: Sys<R, S>)
    requires s.queue == [] && s.sending == None && s.used == 0 && s.worker.phase == Idle
    ensures BudgetOk(env, s)
  {
  }

  /** A sender that `acquire` makes wait always leaves the worker something to release. */
  lemma BlockedHasHolder<R, S>(env: Env<R, S>, s: Sys<R, S>, size: nat)
    requires BudgetOk(env, s) && s.worker.status == Running && s.sending == None && !Fits(env, s, size)
    ensures Holders(Reserved(s)) > 0
    ensures s.queue != [] || s.worker.phase.Writing? || s.worker.phase.Syncing? || s.worker.phase.Replying?
  {
    SumPositive(Reserved(s));
  }
}
