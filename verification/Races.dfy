/**
 What a worker that stops does to a sender. It releases every reservation
 before its end of the queue is dropped, so a send can fall in between.
 */
module Races {
  import opened Codec
  import opened Log
  import opened Requests
  import opened Backlog
  import opened Recovery
  import opened System
  import opened Durability
  import opened Budget
  import opened Runs
  import opened FlowControl

  /** The request that is being sent was reserved while the worker was running. */
  ghost predicate ReservedWhileRunning<R, S>(run: seq<Sys<R, S>>, b: nat)
    requires b < |run|
  {
    b > 0 &&
    if run[b - 1].sending == None then run[b].worker.status == Running else ReservedWhileRunning(run, b - 1)
  }

  function SendingSize<R, S>(s: Sys<R, S>): nat {
    if s.sending.Some? then SizeOf(s.sending.value) else 0
  }

  /** The reservation of the request being sent outlived a release of everything. */
  ghost predicate IsReleased<R, S>(run: seq<Sys<R, S>>, b: nat)
    requires b < |run|
  {
    run[b].sending.Some? && run[b].worker.status != Running && ReservedWhileRunning(run, b)
  }

  /** The bytes given back a second time since the worker stopped. */
  ghost function GivenTwice<R, S>(run: seq<Sys<R, S>>, b: nat): nat
    requires b < |run|
  {
    if b == 0 || run[b].worker.status == Running then 0
    else
      GivenTwice(run, b - 1) +
      if run[b].sending == None && IsReleased(run, b - 1) && !run[b - 1].worker.rx then SendingSize(run[b - 1]) else 0
  }

  /** The bytes reserved since the worker stopped, and queued for nobody. */
  ghost function Stranded<R, S>(run: seq<Sys<R, S>>, b: nat): nat
    requires b < |run|
  {
    if b == 0 || run[b].worker.status == Running then 0
    else
      Stranded(run, b - 1) +
      if run[b].sending == None && !IsReleased(run, b - 1) && run[b - 1].worker.rx then SendingSize(run[b - 1]) else 0
  }

  /** The bytes of the request being sent, if they are still reserved for it. */
  ghost function ReservedNow<R, S>(run: seq<Sys<R, S>>, b: nat): nat
    requires b < |run|
  {
    if IsReleased(run, b) then 0 else SendingSize(run[b])
  }

  /** What the counter stands for once the worker has stopped. */
  ghost predicate CountOk<R, S>(run: seq<Sys<R, S>>, b: nat)
    requires b < |run|
  {
    if run[b].worker.status == Running then run[b].sending.Some? ==> ReservedWhileRunning(run, b)
    else
      && run[b].used == Stranded(run, b) + ReservedNow(run, b) - GivenTwice(run, b)
      && (IsReleased(run, b) ==> Stranded(run, b) == GivenTwice(run, b) == 0)
      && (GivenTwice(run, b) > 0 ==> Stranded(run, b) == 0 && !run[b].worker.rx)
  }

  // One step

  lemma MainReservation<R(!new), S(!new)>(env: Env<R, S>, s: Sys<R, S>, step: Step<R>, s': Sys<R, S>)
    requires Placed(s) && MainStep(env, s, step, s') && s'.sending.Some?
    ensures s.sending == None && s'.worker == s.worker && s'.used == s.used + SendingSize(s')
  {
    hide Settled, IsFull, Appended, WithChunk, WithRecord, IdsFrom, Rotated, FirstIsDurable, Promised, PendingWrite;
  }

  lemma WorkerReservation<R, S>(s: Sys<R, S>, step: Step<R>, s': Sys<R, S>)
    requires Placed(s) && WorkerStep(s, step, s')
    ensures s'.sending == s.sending && (!s.worker.rx ==> !s'.worker.rx)
    ensures s.worker.status == Running && s'.worker.status != Running ==> s'.used == 0
    ensures s.worker.status != Running ==> s'.used == s.used && s'.worker.status != Running
  {
    hide Data, NeedsSync, BatchEnd, Grown, Synced, RepliesOf, DoesTakeWrites, DoesFinish;
    WorkerFrame(s, step, s');
    match step
    case TakeWrites(n, withNext) => TakeFrame(s, n, withNext, s');
    case Finish => FinishFrame(s, s');
    case _ =>
  }

  /** Only the end of a send changes the balance of a stopped worker. */
  lemma SendEnds<R(!new), S(!new)>(env: Env<R, S>, s: Sys<R, S>, step: Step<R>, s': Sys<R, S>)
    requires Placed(s) && MainStep(env, s, step, s') && s'.sending == None
    ensures s'.worker == s.worker
    ensures s'.used == s.used - if s.worker.rx then 0 else SendingSize(s)
  {
    hide Settled, IsFull, Appended, WithChunk, WithRecord, IdsFrom, Rotated, FirstIsDurable, Promised, PendingWrite;
  }

  lemma CountStep<R(!new), S(!new)>(env: Env<R, S>, run: seq<Sys<R, S>>, b: nat, step: Step<R>)
    requires 0 < b < |run| && CountOk(run, b - 1) && Next(env, run[b - 1], step, run[b])
    ensures CountOk(run, b)
  {
    hide MainStep, WorkerStep, Open;
    var s, s' := run[b - 1], run[b];
    if step.Restart? {
    } else if MainStep(env, s, step, s') {
      if s'.sending.Some? {
        MainReservation(env, s, step, s');
      } else {
        SendEnds(env, s, step, s');
      }
    } else {
      WorkerReservation(s, step, s');
    }
  }

  /** In every state of every run with a stopped worker, what the counter stands for. */
  lemma {:induction false} CountAlways<R(!new), S(!new)>(env: Env<R, S>, run: seq<Sys<R, S>>, b: nat)
    requires IsRun(env, run) && b < |run|
    ensures CountOk(run, b)
  {
    hide Init, Next, CountOk;
    if b == 0 {
      BootedCount(env, run);
    } else {
      CountAlways(env, run, b - 1);
      assert Steps(env, run[b - 1], run[b - 1 + 1]);
      var step :| Next(env, run[b - 1], step, run[b]);
      CountStep(env, run, b, step);
    }
  }

  lemma BootedCount<R(!new), S(!new)>(env: Env<R, S>, run: seq<Sys<R, S>>)
    requires IsRun(env, run)
    ensures CountOk(run, 0)
  {
    hide Steps;
    BootedSending(env, run[0]);
  }

  lemma BootedSending<R(!new), S(!new)>(env: Env<R, S>, s: Sys<R, S>)
    requires Init(env, s)
    ensures s.sending == None && s.worker.status == Running
  {
    hide Open;
  }

  // The unsigned counter

  const ISIZE: nat := 0x7FFF_FFFF_FFFF_FFFF

  /** The longest buffer the program can have is of ISIZE bytes. */
  ghost predicate InMemory<R, S>(run: seq<Sys<R, S>>) {
    forall i | 0 <= i < |run| :: |run[i].main.pending| <= ISIZE
  }

  /** Balances and single requests stay below half the range of the counter. */
  lemma {:induction false} BalanceIsSmall<R(!new), S(!new)>(env: Env<R, S>, run: seq<Sys<R, S>>, b: nat)
    requires IsRun(env, run) && InMemory(run) && b < |run|
    ensures SendingSize(run[b]) <= ISIZE && GivenTwice(run, b) <= ISIZE
    ensures env.queueLimit <= ISIZE ==> run[b].used <= ISIZE
  {
    hide Init, Next, InMemory, CountOk;
    if b == 0 {
      BootedSmall(env, run[0]);
    } else {
      BalanceIsSmall(env, run, b - 1);
      CountAlways(env, run, b - 1);
      assert |run[b - 1].main.pending| <= ISIZE by { assert InMemory(run); BufferIsSmall(run, b - 1); }
      assert Steps(env, run[b - 1], run[b - 1 + 1]);
      var step :| Next(env, run[b - 1], step, run[b]);
      SmallStep(env, run[b - 1], step, run[b]);
      TwiceStep(env, run, b);
    }
  }

  lemma BufferIsSmall<R, S>(run: seq<Sys<R, S>>, b: nat)
    requires InMemory(run) && b < |run|
    ensures |run[b].main.pending| <= ISIZE
  {
  }

  lemma BootedSmall<R(!new), S(!new)>(env: Env<R, S>, s: Sys<R, S>)
    requires Init(env, s)
    ensures s.sending == None && s.used == 0
  {
    hide Open;
  }

  /** Bytes are given back twice at most once while the worker is stopped. */
  lemma TwiceStep<R(!new), S(!new)>(env: Env<R, S>, run: seq<Sys<R, S>>, b: nat)
    requires 0 < b < |run| && CountOk(run, b - 1)
    requires GivenTwice(run, b - 1) <= ISIZE && SendingSize(run[b - 1]) <= ISIZE
    ensures GivenTwice(run, b) <= ISIZE
  {
  }

  lemma SmallStep<R(!new), S(!new)>(env: Env<R, S>, s: Sys<R, S>, step: Step<R>, s': Sys<R, S>)
    requires Next(env, s, step, s') && |s.main.pending| <= ISIZE && SendingSize(s) <= ISIZE
    ensures SendingSize(s') <= ISIZE
    ensures env.queueLimit <= ISIZE && s.used <= ISIZE ==> s'.used <= ISIZE
  {
    hide MainStep, WorkerStep, Open;
    if step.Restart? {
    } else if MainStep(env, s, step, s') {
      if s'.sending.Some? {
        ReservesBuffer(env, s, step, s');
      } else {
        SendEnds(env, s, step, s');
      }
    } else {
      WorkerGivesBack(s, step, s');
    }
  }

  lemma ReservesBuffer<R(!new), S(!new)>(env: Env<R, S>, s: Sys<R, S>, step: Step<R>, s': Sys<R, S>)
    requires Placed(s) && MainStep(env, s, step, s') && s'.sending.Some?
    ensures SendingSize(s') <= |s.main.pending|
    ensures s'.used == s.used + SendingSize(s') && Fits(env, s, SendingSize(s'))
  {
    hide Settled, IsFull, Appended, WithChunk, WithRecord, IdsFrom, Rotated, FirstIsDurable, Promised;
  }

  lemma WorkerGivesBack<R, S>(s: Sys<R, S>, step: Step<R>, s': Sys<R, S>)
    requires Placed(s) && WorkerStep(s, step, s')
    ensures s'.sending == s.sending && (s'.used <= s.used || s'.used == 0)
  {
    hide NeedsSync, BatchEnd, Grown, Synced, RepliesOf, WritesOf, Data;
  }

  /** In every state the model's counter is the value of 64-bit arithmetic, before and after an addition. */
  lemma CounterIsExact<R(!new), S(!new)>(env: Env<R, S>, run: seq<Sys<R, S>>, b: nat, size: nat)
    requires IsRun(env, run) && InMemory(run) && env.queueLimit <= ISIZE && b < |run| && size <= ISIZE
    ensures Counter(run[b].used) == Wrapped(run[b].used) && Counter(run[b].used + size) == Wrapped(run[b].used + size)
    ensures Fits(env, run[b], size) <==> Admits(env.queueLimit, Wrapped(run[b].used), size)
  {
    hide IsRun, InMemory, GivenTwice, SendingSize;
    BalanceIsSmall(env, run, b);
    SmallIsExact(run[b].used);
    SmallIsExact(run[b].used + size);
    WrapsTwice(run[b].used, size);
    hide Wrapped, Counter;
    assert Admits(env.queueLimit, Wrapped(run[b].used), size) <==>
        Wrapped(run[b].used) == 0 || Wrapped(Wrapped(run[b].used) + size) <= env.queueLimit;
  }

  lemma SmallIsExact(balance: int)
    requires balance < USIZE
    ensures Counter(balance) == Wrapped(balance)
  {
  }

  // Giving bytes back twice

  /** The compensating release asks for more bytes than the counter holds. */
  predicate Underflows<R, S>(s: Sys<R, S>) {
    SendingSize(s) > Counter(s.used)
  }

  /**
   When the receiver of the queue is gone, a send gives its reservation back.
   That subtraction underflows if and only if the request carries data and
   either the worker was running when its bytes were reserved, that is, it
   stopped, and released them, between the reservation and the failed send; or
   an earlier underflow has left the counter short by no more than the request.
   */
  lemma UnderflowsIff<R(!new), S(!new)>(env: Env<R, S>, run: seq<Sys<R, S>>, b: nat)
    requires IsRun(env, run) && InMemory(run) && b + 1 < |run| && Next(env, run[b], SendFails, run[b + 1])
    ensures run[b].worker.status != Running
    ensures Underflows(run[b]) <==>
              SendingSize(run[b]) > 0 && (ReservedWhileRunning(run, b) || 0 < GivenTwice(run, b) <= SendingSize(run[b]))
    ensures Counter(run[b + 1].used) ==
              if GivenTwice(run, b + 1) > 0 then USIZE - GivenTwice(run, b + 1) else Stranded(run, b + 1)
  {
    hide Init, Next, InMemory, BudgetOk, ReservedWhileRunning, GivenTwice, Stranded;
    CountAlways(env, run, b);
    CountAlways(env, run, b + 1);
    BudgetAlways(env, run, b);
    BalanceIsSmall(env, run, b);
    BalanceIsSmall(env, run, b + 1);
    SendFailed(env, run[b], run[b + 1]);
  }

  lemma SendFailed<R(!new), S(!new)>(env: Env<R, S>, s: Sys<R, S>, s': Sys<R, S>)
    requires Next(env, s, SendFails, s')
    ensures DoesSendFail(s, s')
  {
  }

  // Waiting for a worker that is gone

  lemma {:induction false} BalanceStays<R(!new), S(!new)>(env: Env<R, S>, run: seq<Sys<R, S>>, b: nat, j: nat)
    requires IsRun(env, run) && b <= j < |run| && run[b].worker.status != Running && run[b].sending == None
    requires forall m | b <= m < j :: NoCrash(env, run[m], run[m + 1])
    ensures run[j].worker.status != Running
    ensures run[j].used >= run[b].used + SendingSize(run[j])
    ensures !run[b].worker.rx ==> !run[j].worker.rx && run[j].used == run[b].used + SendingSize(run[j])
    decreases j
  {
    hide Init, MainStep, WorkerStep, Next;
    if b < j {
      BalanceStays(env, run, b, j - 1);
      var s, s' := run[j - 1], run[j];
      assert NoCrash(env, run[j - 1], run[j - 1 + 1]);
      var step :| Next(env, s, step, s') && !step.Restart?;
      StoppedUsed(env, s, step, s');
    }
  }

  lemma StoppedUsed<R(!new), S(!new)>(env: Env<R, S>, s: Sys<R, S>, step: Step<R>, s': Sys<R, S>)
    requires Next(env, s, step, s') && !step.Restart? && s.worker.status != Running
    ensures s'.worker.status != Running && s'.used - SendingSize(s') >= s.used - SendingSize(s)
    ensures !s.worker.rx ==> !s'.worker.rx && s'.used - SendingSize(s') == s.used - SendingSize(s)
  {
    hide MainStep, WorkerStep;
    if MainStep(env, s, step, s') {
      if s'.sending.Some? {
        MainReservation(env, s, step, s');
      } else {
        SendEnds(env, s, step, s');
      }
    } else {
      WorkerReservation(s, step, s');
    }
  }

  /**
   With the worker gone nobody gives bytes back. What is reserved then is what
   was queued since less what was given back twice; with the receiver gone too
   it stays the same between sends. A request that does not fit then never
   will, and its sender waits until the log is opened again; with the receiver
   gone, one that fits always will.
   */
  lemma WaitsForever<R(!new), S(!new)>(env: Env<R, S>, run: seq<Sys<R, S>>, b: nat, j: nat, size: nat)
    requires IsRun(env, run) && b <= j < |run| && run[b].worker.status != Running
    requires run[b].sending == None && run[j].sending == None
    requires forall m | b <= m < j :: NoCrash(env, run[m], run[m + 1])
    ensures run[b].used == Stranded(run, b) - GivenTwice(run, b)
    ensures Fits(env, run[j], size) ==> Fits(env, run[b], size)
    ensures !run[b].worker.rx ==> run[j].used == run[b].used && (Fits(env, run[j], size) <==> Fits(env, run[b], size))
  {
    hide IsRun, NoCrash, Stranded, GivenTwice;
    BalanceStays(env, run, b, j);
    CountAlways(env, run, b);
  }

  // Both happen

  lemma FirstState<R(!new), S(!new)>(env: Env<R, S>, careful: bool) returns (s: Sys<R, S>)
    requires EnvOk(env)
    ensures Init(env, s) && IsRun(env, [s]) && s.careful == careful
    ensures Placed(s) && s.hist != [] && s.sending == None && s.queue == [] && s.used == 0 && s.main.open && s.main.pending == []
    ensures s.worker.status == Running && s.worker.phase == Idle && s.worker.rx && s.sm == env.initial
  {
    var ck := env.checkpoint(env.initial);
    assert Encodable(env.codec, ck) && SizeIsHonest(env.codec, ck);
    var r := Recovered(map[0 := File(Bytes1(env.codec, ck), 0)], [], [0, |Bytes1(env.codec, ck)|], env.initial, []);
    assert Open(env, map[], [], env.initial, true) == Ok(r);
    s := Booted(r, [ChunkLog(0, [ck])], 0, [], careful);
  }

  lemma FailsNext<R(!new), S(!new)>(env: Env<R, S>, run: seq<Sys<R, S>>) returns (run': seq<Sys<R, S>>)
    requires IsRun(env, run) && Placed(run[|run| - 1]) && run[|run| - 1].worker.status == Running
    ensures run' == run + [run[|run| - 1].(worker := run[|run| - 1].worker.(status := Failed), used := 0)] && IsRun(env, run')
  {
    hide Init;
    var s := run[|run| - 1];
    var s' := s.(worker := s.worker.(status := Failed), used := 0);
    assert s.replies + [] == s.replies;
    assert WorkerStep(s, Fail([]), s');
    assert Next(env, s, Fail([]), s');
    run' := AddStep(env, run, Fail([]), s');
  }

  lemma DropsNext<R(!new), S(!new)>(env: Env<R, S>, run: seq<Sys<R, S>>) returns (run': seq<Sys<R, S>>)
    requires IsRun(env, run) && Placed(run[|run| - 1])
    requires run[|run| - 1].worker.status != Running && run[|run| - 1].worker.rx
    ensures run' == run + [run[|run| - 1].(worker := run[|run| - 1].worker.(rx := false), queue := [])] && IsRun(env, run')
  {
    hide Init;
    var s := run[|run| - 1];
    var s' := s.(worker := s.worker.(rx := false), queue := []);
    assert WorkerStep(s, DropReceiver, s');
    assert Next(env, s, DropReceiver, s');
    run' := AddStep(env, run, DropReceiver, s');
  }

  /** The worker is gone, and `n` bytes were given back twice to a log that is still open. */
  predicate ShortBy<R, S>(s: Sys<R, S>, n: nat) {
    && s.worker.status != Running && !s.worker.rx && s.used == -(n as int)
    && Placed(s) && s.hist != [] && s.sending == None && s.main.open && s.main.pending == []
  }

  /** From every state that can send some pending bytes, the worker may stop so that the release underflows. */
  lemma UnderflowHappens<R(!new), S(!new)>(env: Env<R, S>, run: seq<Sys<R, S>>) returns (run': seq<Sys<R, S>>)
    requires IsRun(env, run) && run[|run| - 1].worker.status == Running && run[|run| - 1].main.pending != []
    requires CanSend(env, run[|run| - 1], |run[|run| - 1].main.pending|)
    ensures IsRun(env, run') && |run'| == |run| + 4 && run'[..|run|] == run
    ensures Next(env, run'[|run| + 2], SendFails, run'[|run| + 3]) && Underflows(run'[|run| + 2])
    ensures ShortBy(run'[|run| + 3], |run[|run| - 1].main.pending|)
  {
    hide Init, Next, PendingWrite;
    var s := run[|run| - 1];
    var s1 := ReservedPending(s, false, None);
    SizeOfPending(s, false, None);
    assert MainStep(env, s, SendPending(false, None), s1);
    var run1 := AddMain(env, run, SendPending(false, None), s1);
    var run2 := FailsNext(env, run1);
    var run3 := DropsNext(env, run2);
    var s3 := run3[|run3| - 1];
    var s4 := s3.(sending := None, main := s3.main.(sent := s3.main.sent + 1), used := s3.used - SendingSize(s3));
    assert MainStep(env, s3, SendFails, s4);
    run' := AddMain(env, run3, SendFails, s4);
    MainIsNext(env, s3, SendFails, s4);
  }

  /**
   The caller may go on: appended bytes that make up for those given back twice
   are let through, and the failure of their send underflows again.
   */
  lemma UnderflowsAgain<R(!new), S(!new)>(env: Env<R, S>, run: seq<Sys<R, S>>, n: nat, r: R) returns (run': seq<Sys<R, S>>)
    requires IsRun(env, run) && 0 < n && ShortBy(run[|run| - 1], n) && Encodable(env.codec, r)
    requires n <= |env.codec.encode(r).bytes| <= n + env.queueLimit
    ensures IsRun(env, run') && |run'| == |run| + 3 && run'[..|run|] == run
    ensures Next(env, run'[|run| + 1], SendFails, run'[|run| + 2]) && Underflows(run'[|run| + 1])
    ensures !ReservedWhileRunning(run', |run| + 1)
  {
    hide Init, Next, PendingWrite;
    var s := run[|run| - 1];
    var s1 := s.(main := Appended(env.codec, s.main, r), hist := WithRecord(s.hist, r), sm := env.apply(s.sm, r));
    assert MainStep(env, s, Append(r), s1);
    var run1 := AddMain(env, run, Append(r), s1);
    SamePlace(s, s1, r);
    var s2 := ReservedPending(s1, false, None);
    SizeOfPending(s1, false, None);
    assert MainStep(env, s1, SendPending(false, None), s2);
    var run2 := AddMain(env, run1, SendPending(false, None), s2);
    var s3 := s2.(sending := None, main := s2.main.(sent := s2.main.sent + 1), used := s2.used - SendingSize(s2));
    assert MainStep(env, s2, SendFails, s3);
    run' := AddMain(env, run2, SendFails, s3);
    MainIsNext(env, s2, SendFails, s3);
    assert run'[|run|] == s1 && run'[|run| + 1] == s2;
  }

  /** A new log and one record, appended twice, are enough for both. */
  lemma BothUnderflow<R(!new), S(!new)>(env: Env<R, S>, r: R, careful: bool) returns (run: seq<Sys<R, S>>)
    requires EnvOk(env) && Encodable(env.codec, r)
    ensures IsRun(env, run) && |run| == 9
    ensures Next(env, run[4], SendFails, run[5]) && Underflows(run[4])
    ensures Next(env, run[7], SendFails, run[8]) && Underflows(run[7]) && !ReservedWhileRunning(run, 7)
  {
    hide IsRun, Next, Lawful, ShortBy, Underflows, ReservedWhileRunning, CanSend;
    var run0 := PendingHappens(env, r, careful);
    var run1 := UnderflowHappens(env, run0);
    run := UnderflowsAgain(env, run1, |run0[|run0| - 1].main.pending|, r);
    assert run[..|run1|][4] == run1[4] && run[..|run1|][5] == run1[5];
  }

  lemma MainIsNext<R(!new), S(!new)>(env: Env<R, S>, s: Sys<R, S>, step: Step<R>, s': Sys<R, S>)
    requires Placed(s) && MainStep(env, s, step, s')
    ensures Next(env, s, step, s')
  {
  }

  /**
   And a request that is queued after the worker released everything, but
   before the queue is dropped, keeps its bytes reserved for good.
   */
  lemma StrandingHappens<R(!new), S(!new)>(env: Env<R, S>, run: seq<Sys<R, S>>) returns (run': seq<Sys<R, S>>)
    requires IsRun(env, run) && run[|run| - 1].worker.status == Running && run[|run| - 1].main.pending != []
    requires CanSend(env, run[|run| - 1], |run[|run| - 1].main.pending|)
    ensures IsRun(env, run') && |run| < |run'| && run'[..|run|] == run
    ensures var s := run'[|run'| - 1];
            && s.worker.status != Running && !s.worker.rx && s.sending == None
            && s.used == |run[|run| - 1].main.pending| > 0
  {
    hide Init, Next, PendingWrite;
    var run1 := FailsNext(env, run);
    var run2 := SendsPending(env, run1, false, None);
    SizeOfPending(run1[|run1| - 1], false, None);
    run' := DropsNext(env, run2);
  }

  /** A log that was just created, with one record appended, is such a state. */
  lemma PendingHappens<R(!new), S(!new)>(env: Env<R, S>, r: R, careful: bool) returns (run: seq<Sys<R, S>>)
    requires EnvOk(env) && Encodable(env.codec, r)
    ensures IsRun(env, run) && run[|run| - 1].worker.status == Running && run[|run| - 1].main.pending != []
    ensures CanSend(env, run[|run| - 1], |run[|run| - 1].main.pending|)
    ensures |run| == 2 && run[1].main.pending == env.codec.encode(r).bytes
  {
    hide Init, Next, Lawful;
    var s := FirstState(env, careful);
    var s1 := s.(main := Appended(env.codec, s.main, r), hist := WithRecord(s.hist, r), sm := env.apply(s.sm, r));
    assert MainStep(env, s, Append(r), s1);
    run := AddMain(env, [s], Append(r), s1);
    NotEmpty(env.codec, r);
    SamePlace(s, s1, r);
  }

  lemma NotEmpty<R(!new)>(c: Codec<R>, r: R)
    requires Lawful(c) && Encodable(c, r)
    ensures |c.encode(r).bytes| > 0
  {
    assert SizeIsHonest(c, r);
  }

  lemma SamePlace<R, S>(s: Sys<R, S>, s': Sys<R, S>, r: R)
    requires Placed(s) && s'.hist == WithRecord(s.hist, r) && s'.cur == s.cur && s'.disk == s.disk
    ensures Placed(s')
  {
  }
}
