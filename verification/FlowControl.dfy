/** The shared state of sender and worker: the byte budget, completion, and the sending side. */
module FlowControl {
  import opened Requests
  import opened System
  import opened Budget
  import opened Completion

  lemma {:induction false} SumPrefix(sizes: seq<nat>, k: nat)
    requires k <= |sizes|
    ensures Sum(sizes[..k]) <= Sum(sizes)
    ensures k < |sizes| ==> Sum(sizes[..k + 1]) == Sum(sizes[..k]) + sizes[k]
  {
    assert sizes == sizes[..k] + sizes[k..];
    SumConcat(sizes[..k], sizes[k..]);
    if k < |sizes| {
      assert sizes[..k + 1][..k] == sizes[..k];
    }
  }

  type Usize = x: nat | x < USIZE

  /** The value of unsigned arithmetic that wraps around. */
  function Wrapped(x: int): Usize {
    x % USIZE
  }

  lemma WrapsTwice(x: int, y: int)
    ensures Wrapped(Wrapped(x) + y) == Wrapped(x + y)
  {
  }

  lemma Unchanged(used: Usize)
    ensures Wrapped(used - 0) == used
  {
  }

  lemma GiveBack(used: Usize, given: nat, size: nat)
    ensures Wrapped(Wrapped(used - given) - size) == Wrapped(used - (given + size))
  {
  }

  /** Whether `acquire` lets `size` more bytes through. */
  predicate Admits(limit: nat, used: Usize, size: nat) {
    used == 0 || Wrapped(used + size) <= limit
  }

  /** Bytes of queued writes, bounded by a limit. */
  class QueuedBytes {
    const limit: nat
    var used: Usize

    constructor (limit: nat)
      ensures this.limit == limit && used == 0
    {
      this.limit := limit;
      used := 0;
    }

    /**
     Waits for room and reserves `size` bytes. `releases` are what is given
     back while the caller waits; it returns false when the caller is still
     waiting after all of them. It is let through as soon as there is room.
     */
    method Acquire(size: nat, releases: seq<nat>) returns (admitted: bool, waited: nat)
      modifies this
      ensures waited <= |releases|
      ensures used == Wrapped(old(used) - Sum(releases[..waited]) + if admitted then size else 0)
      ensures forall k | 0 <= k < waited :: !Admits(limit, Wrapped(old(used) - Sum(releases[..k])), size)
      ensures admitted <==> Admits(limit, Wrapped(old(used) - Sum(releases[..waited])), size)
      ensures admitted ==> used <= limit || used == Wrapped(size)
      ensures !admitted ==> waited == |releases|
    {
      hide Wrapped;
      waited := 0;
      assert releases[..0] == [];
      Unchanged(used);
      while used > 0 && Wrapped(used + size) > limit
        invariant waited <= |releases| && used == Wrapped(old(used) - Sum(releases[..waited]))
        invariant forall k | 0 <= k < waited :: !Admits(limit, Wrapped(old(used) - Sum(releases[..k])), size)
        decreases |releases| - waited
      {
        if waited == |releases| {
          return false, waited;
        }
        SumPrefix(releases, waited);
        GiveBack(old(used), Sum(releases[..waited]), releases[waited]);
        used := Wrapped(used - releases[waited]);
        waited := waited + 1;
      }
      WrapsTwice(old(used) - Sum(releases[..waited]), size);
      used := Wrapped(used + size);
      return true, waited;
    }

    /** Gives back `size` bytes: more than is reserved wraps around. */
    method Release(size: nat)
      modifies this
      ensures used == Wrapped(old(used) - size)
      ensures size <= old(used) ==> used + size == old(used)
      ensures old(used) < size <= USIZE ==> used == old(used) + USIZE - size
    {
      used := Wrapped(used - size);
    }
  }

  /** Until bytes are given back twice, nothing wraps: the count is exact and the limit is kept. */
  lemma AcquireIsExact(limit: nat, used: Usize, given: nat, size: nat)
    requires given <= used && used + size < USIZE
    ensures Wrapped(used - given + size) == used - given + size
    ensures Admits(limit, Wrapped(used - given), size) <==> used == given || used - given + size <= limit
  {
  }

  /** A change that the worker makes while somebody waits. */
  datatype Change = Completes(seqNo: nat) | Breaks

  function DoneAfter(done: nat, changes: seq<Change>): nat {
    if changes == [] then done
    else
      var before := DoneAfter(done, changes[..|changes| - 1]);
      match changes[|changes| - 1]
      case Completes(n) => Max(before, n)
      case Breaks => before
  }

  /** What is done is the highest number that was completed. */
  lemma {:induction false} DoneReaches(done: nat, changes: seq<Change>, target: nat)
    ensures DoneAfter(done, changes) >= target <==>
              done >= target || exists i | 0 <= i < |changes| :: changes[i].Completes? && changes[i].seqNo >= target
    ensures DoneAfter(done, changes) >= done
    decreases |changes|
  {
    if changes != [] {
      var n := |changes| - 1;
      var front := changes[..n];
      DoneReaches(done, front, target);
      assert forall i | 0 <= i < n :: front[i] == changes[i];
    }
  }

  lemma NumbersSeen(done: nat, changes: seq<Change>, target: nat)
    ensures DoneAfter(done, changes) < target ==> done < target && forall n: nat | Completes(n) in changes :: n < target
    ensures DoneAfter(done, changes) >= target ==> done >= target || exists n: nat | Completes(n) in changes :: n >= target
  {
    DoneReaches(done, changes, target);
    if DoneAfter(done, changes) < target {
      forall n: nat | Completes(n) in changes ensures n < target {
        var i :| 0 <= i < |changes| && changes[i] == Completes(n);
      }
    } else if done < target {
      var i :| 0 <= i < |changes| && changes[i].Completes? && changes[i].seqNo >= target;
      assert Completes(changes[i].seqNo) in changes;
    }
  }

  /** Completion as the worker reports it. */
  class WorkerState {
    var done: nat
    var broken: bool

    constructor ()
      ensures done == 0 && !broken
    {
      done := 0;
      broken := false;
    }

    method Complete(seqNo: nat)
      modifies this
      ensures done == Max(old(done), seqNo) && broken == old(broken)
    {
      done := Max(done, seqNo);
    }

    method Fail()
      modifies this
      ensures broken && done == old(done)
    {
      broken := true;
    }

    /**
     Waits for a sequence number: returns once it is reached, fails once the
     worker has failed without reaching it, and otherwise keeps waiting.
     */
    method WaitFor(target: nat, changes: seq<Change>) returns (res: Wait, seen: nat)
      modifies this
      ensures seen <= |changes| && done == DoneAfter(old(done), changes[..seen])
      ensures done >= old(done) && (old(broken) ==> broken)
      ensures res == Returns <==> done >= target
      ensures res == Fails <==> done < target && broken
      ensures res == Blocks ==> seen == |changes| && Breaks !in changes && !old(broken)
      ensures res == Blocks ==> old(done) < target && forall n: nat | Completes(n) in changes :: n < target
      ensures res == Returns ==> old(done) >= target || exists n: nat | Completes(n) in changes[..seen] :: n >= target
      ensures broken <==> old(broken) || Breaks in changes[..seen]
      ensures seen > 0 ==> DoneAfter(old(done), changes[..seen - 1]) < target && !old(broken) && Breaks !in changes[..seen - 1]
    {
      seen := 0;
      assert changes[..0] == [];
      while true
        invariant seen <= |changes| && done == DoneAfter(old(done), changes[..seen])
        invariant done >= old(done) && (old(broken) ==> broken)
        invariant broken <==> old(broken) || Breaks in changes[..seen]
        invariant seen > 0 ==> DoneAfter(old(done), changes[..seen - 1]) < target && !old(broken) && Breaks !in changes[..seen - 1]
        decreases |changes| - seen
      {
        NumbersSeen(old(done), changes[..seen], target);
        if done >= target {
          return Returns, seen;
        }
        if broken {
          return Fails, seen;
        }
        if seen == |changes| {
          assert changes[..seen] == changes;
          return Blocks, seen;
        }
        assert changes[..seen + 1][..seen] == changes[..seen];
        match changes[seen] {
          case Completes(n) => Complete(n);
          case Breaks => Fail();
        }
        seen := seen + 1;
      }
    }
  }

  datatype SendResult = Reserved | ShutDown | StillWaiting

  /**
   The sending side: it reserves the bytes of a request, and then numbers and
   queues it. The worker may act between the two halves.
   */
  class FlushClient<R> {
    var tx: bool
    var sentSeq: nat
    var channel: seq<SeqRequest<R>>
    const bytes: QueuedBytes

    constructor (bytes: QueuedBytes)
      ensures tx && sentSeq == 0 && channel == [] && this.bytes == bytes
    {
      tx := true;
      sentSeq := 0;
      channel := [];
      this.bytes := bytes;
    }

    /** The first half of a send: a log that was shut down refuses it, and a full budget makes it wait. */
    method Reserve(req: Request<R>, releases: seq<nat>) returns (res: SendResult, waited: nat)
      modifies bytes
      ensures res == ShutDown <==> !tx
      ensures res == ShutDown ==> bytes.used == old(bytes.used)
      ensures res != ShutDown ==>
                && waited <= |releases|
                && bytes.used == Wrapped(old(bytes.used) - Sum(releases[..waited]) + if res == Reserved then SizeOf(req) else 0)
                && (res == Reserved <==>
                      Admits(bytes.limit, Wrapped(old(bytes.used) - Sum(releases[..waited])), SizeOf(req)))
      ensures res == Reserved ==> bytes.used <= bytes.limit || bytes.used == Wrapped(SizeOf(req))
      ensures res == StillWaiting ==> waited == |releases|
    {
      if !tx {
        return ShutDown, 0;
      }
      var admitted;
      admitted, waited := bytes.Acquire(SizeOf(req), releases);
      res := if admitted then Reserved else StillWaiting;
    }

    /**
     The second half: the request gets the next number and joins the queue, or,
     when nobody receives any more, its bytes are given back from whatever is
     reserved by then.
     */
    method Enqueue(req: Request<R>, received: bool) returns (ok: bool)
      requires tx
      modifies this`sentSeq, this`channel, bytes
      ensures ok == received && sentSeq == old(sentSeq) + 1
      ensures channel == old(channel) + if ok then [SeqRequest(sentSeq, req)] else []
      ensures bytes.used == if ok then old(bytes.used) else Wrapped(old(bytes.used) - SizeOf(req))
    {
      sentSeq := sentSeq + 1;
      if received {
        channel := channel + [SeqRequest(sentSeq, req)];
      } else {
        bytes.Release(SizeOf(req));
      }
      return received;
    }

    /** Rejects further requests. */
    method Close()
      modifies this`tx
      ensures !tx
    {
      tx := false;
    }
  }
}
