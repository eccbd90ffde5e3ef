/** Writing a batch with vectored writes that may be short, interrupted or fail. */
module VectoredWrites {
  import opened Bytes
  import opened Log
  import opened Requests

  const MAX_VECTORED_WRITE_SLICES: nat := 1024

  /** What one `write_vectored` call does: it takes up to `n` bytes, is interrupted, or fails. */
  datatype Outcome = Wrote(n: nat) | Interrupted | Failed

  /** How a write of a whole buffer ends; `Unfinished` when the schedule of outcomes ends first. */
  datatype WriteResult = Complete | Errored | Unfinished

  function Concat(slices: seq<seq<Byte>>): seq<Byte> {
    if slices == [] then [] else slices[0] + Concat(slices[1..])
  }

  predicate NoneEmpty(slices: seq<seq<Byte>>) {
    forall i | 0 <= i < |slices| :: slices[i] != []
  }

  lemma ConcatHead(slices: seq<seq<Byte>>)
    requires slices != []
    ensures Concat(slices) == slices[0] + Concat(slices[1..])
  {
  }

  /** The calls of a schedule that move bytes. */
  function Moves(plan: seq<Outcome>): nat {
    if plan == [] then 0 else (if plan[0].Wrote? then 1 else 0) + Moves(plan[1..])
  }

  predicate CanFail(plan: seq<Outcome>) {
    exists i | 0 <= i < |plan| :: plan[i] == Failed || plan[i] == Wrote(0)
  }

  /** What is left of a schedule once it has moved `n` bytes, or nothing when it fails or ends before that. */
  function AfterDelivery(plan: seq<Outcome>, n: nat): Option<seq<Outcome>> {
    if n == 0 then Some(plan)
    else if plan == [] then None
    else match plan[0]
      case Wrote(k) => if k == 0 then None else AfterDelivery(plan[1..], if k < n then n - k else 0)
      case Interrupted => AfterDelivery(plan[1..], n)
      case Failed => None
  }

  /** A schedule that never fails and moves often enough delivers everything. */
  lemma {:induction false} EnoughMoves(plan: seq<Outcome>, n: nat)
    requires !CanFail(plan) && Moves(plan) >= n
    ensures var rest := AfterDelivery(plan, n);
            rest.Some? && !CanFail(rest.value) && Moves(rest.value) >= Moves(plan) - n
    decreases |plan|
  {
    if n > 0 {
      var next := plan[1..];
      assert plan[0] != Failed && plan[0] != Wrote(0);
      assert forall i | 0 <= i < |next| :: next[i] == plan[i + 1];
      match plan[0]
      case Wrote(k) => EnoughMoves(next, if k < n then n - k else 0);
      case Interrupted => EnoughMoves(next, n);
    }
  }

  /** A file open for appending, with the schedule by which its writes go. */
  class AppendFile {
    var data: seq<Byte>
    var plan: seq<Outcome>

    constructor (plan: seq<Outcome>)
      ensures data == [] && this.plan == plan
    {
      data := [];
      this.plan := plan;
    }

    /** One call: the next outcome of the schedule, applied to the front of the slices. The system bounds their number. */
    method WriteVectored(slices: seq<seq<Byte>>) returns (res: Outcome)
      requires plan != [] && |slices| <= MAX_VECTORED_WRITE_SLICES
      modifies this
      ensures plan == old(plan)[1..]
      ensures !old(plan)[0].Wrote? ==> res == old(plan)[0] && data == old(data)
      ensures old(plan)[0].Wrote? ==>
                && res.Wrote? && res.n <= |Concat(slices)|
                && res.n == (if old(plan)[0].n < |Concat(slices)| then old(plan)[0].n else |Concat(slices)|)
                && data == old(data) + Concat(slices)[..res.n]
    {
      res := plan[0];
      plan := plan[1..];
      if res.Wrote? {
        var all := Concat(slices);
        if res.n > |all| {
          res := Wrote(|all|);
        }
        data := data + all[..res.n];
      }
    }
  }

  lemma AdvanceStep(slices: seq<seq<Byte>>, i: nat, left: nat)
    requires i < |slices| && left <= |Concat(slices[i..])|
    ensures |slices[i]| <= left ==>
              Concat(slices[i..])[left..] == Concat(slices[i + 1..])[left - |slices[i]|..]
              && left - |slices[i]| <= |Concat(slices[i + 1..])|
    ensures left < |slices[i]| ==> Concat(slices[i..])[left..] == slices[i][left..] + Concat(slices[i + 1..])
  {
    ConcatHead(slices[i..]);
    assert slices[i..][1..] == slices[i + 1..];
  }

  /** Drops the first `n` bytes: whole slices, then the front of the next. */
  method AdvanceSlices(slices: seq<seq<Byte>>, n: nat) returns (rest: seq<seq<Byte>>)
    requires NoneEmpty(slices) && n <= |Concat(slices)|
    ensures Concat(rest) == Concat(slices)[n..] && NoneEmpty(rest) && |rest| <= |slices|
  {
    var remove: nat, left: nat := 0, n;
    assert slices[0..] == slices;
    while remove < |slices| && |slices[remove]| <= left
      invariant remove <= |slices| && left <= |Concat(slices[remove..])|
      invariant Concat(slices)[n..] == Concat(slices[remove..])[left..]
      decreases |slices| - remove
    {
      AdvanceStep(slices, remove, left);
      left := left - |slices[remove]|;
      remove := remove + 1;
    }
    rest := slices[remove..];
    if rest != [] {
      AdvanceStep(slices, remove, left);
      rest := [rest[0][left..]] + rest[1..];
      ConcatHead(rest);
      assert rest[1..] == slices[remove + 1..];
    }
  }

  lemma NonEmptyBytes(slices: seq<seq<Byte>>)
    requires NoneEmpty(slices)
    ensures slices == [] <==> Concat(slices) == []
  {
  }

  /**
   Writes every slice. Whatever the schedule, the file grows by a prefix of
   the slices; by all of them exactly when the result is `Complete`, which is
   when the schedule delivers them. It fails only on an outcome that fails, and
   every call that moves bytes moves some.
   */
  method WriteAllVectored(file: AppendFile, slices: seq<seq<Byte>>) returns (res: WriteResult)
    requires NoneEmpty(slices) && |slices| <= MAX_VECTORED_WRITE_SLICES
    modifies file
    ensures old(file.data) <= file.data <= old(file.data) + Concat(slices)
    ensures res == Complete <==> file.data == old(file.data) + Concat(slices)
    ensures res == Complete <==> AfterDelivery(old(file.plan), |Concat(slices)|).Some?
    ensures res == Complete ==> AfterDelivery(old(file.plan), |Concat(slices)|) == Some(file.plan)
    ensures res == Errored ==> CanFail(old(file.plan))
    ensures res == Unfinished ==> file.plan == [] && Moves(old(file.plan)) <= |file.data| - |old(file.data)|
    ensures |file.plan| <= |old(file.plan)| && file.plan == old(file.plan)[|old(file.plan)| - |file.plan|..]
    ensures Moves(old(file.plan)) - Moves(file.plan) <= |file.data| - |old(file.data)| + (if res == Errored then 1 else 0)
  {
    var remaining := slices;
    ghost var start, plan := file.data, file.plan;
    while remaining != []
      invariant NoneEmpty(remaining) && |remaining| <= |slices|
      invariant |file.plan| <= |plan| && file.plan == plan[|plan| - |file.plan|..]
      invariant start <= file.data && file.data + Concat(remaining) == start + Concat(slices)
      invariant Moves(plan) - Moves(file.plan) <= |file.data| - |start|
      invariant AfterDelivery(file.plan, |Concat(remaining)|) == AfterDelivery(plan, |Concat(slices)|)
      decreases |file.plan|
    {
      NonEmptyBytes(remaining);
      if file.plan == [] {
        return Unfinished;
      }
      ghost var before, all := file.data, Concat(remaining);
      ghost var used := |plan| - |file.plan|;
      assert plan[used] == file.plan[0];
      var written := file.WriteVectored(remaining);
      match written
      case Wrote(n) =>
        if n == 0 {
          return Errored;
        }
        remaining := AdvanceSlices(remaining, n);
        assert before + all == (before + all[..n]) + all[n..];
      case Interrupted =>
      case Failed =>
        return Errored;
    }
    assert file.data + [] == file.data;
    return Complete;
  }

  // A batch

  /** The slices of some writes: their data, empty ones left out. */
  function SlicesOf(writes: seq<WriteReq>): (slices: seq<seq<Byte>>)
    ensures NoneEmpty(slices) && |slices| <= |writes|
  {
    if writes == [] then []
    else (if writes[0].data == [] then [] else [writes[0].data]) + SlicesOf(writes[1..])
  }

  lemma {:induction false} SlicesData(writes: seq<WriteReq>)
    ensures Concat(SlicesOf(writes)) == Data(writes)
    decreases |writes|
  {
    if writes != [] {
      SlicesData(writes[1..]);
      DataHead(writes);
      var head, tail := writes[0].data, SlicesOf(writes[1..]);
      if head != [] {
        assert SlicesOf(writes)[1..] == tail;
      } else {
        assert SlicesOf(writes) == tail;
      }
    }
  }

  lemma {:induction false} DataConcat(a: seq<WriteReq>, b: seq<WriteReq>)
    ensures Data(a + b) == Data(a) + Data(b)
    decreases |b|
  {
    if b == [] {
      assert a + b == a;
    } else {
      assert (a + b)[..|a + b| - 1] == a + b[..|b| - 1];
      DataConcat(a, b[..|b| - 1]);
    }
  }

  lemma DataHead(writes: seq<WriteReq>)
    requires writes != []
    ensures Data(writes) == writes[0].data + Data(writes[1..])
  {
    var one := [writes[0]];
    assert one[..0] == [] && writes == one + writes[1..];
    DataConcat(one, writes[1..]);
  }

  /** What is left of a schedule once it has delivered the writes, 1024 at a time. */
  function AfterGroups(plan: seq<Outcome>, writes: seq<WriteReq>): Option<seq<Outcome>>
    decreases |writes|
  {
    if writes == [] then Some(plan)
    else
      var n := if |writes| < MAX_VECTORED_WRITE_SLICES then |writes| else MAX_VECTORED_WRITE_SLICES;
      var rest := AfterDelivery(plan, |Data(writes[..n])|);
      if rest.None? then None else AfterGroups(rest.value, writes[n..])
  }

  lemma {:induction false} EnoughForGroups(plan: seq<Outcome>, writes: seq<WriteReq>)
    requires !CanFail(plan) && Moves(plan) >= |Data(writes)|
    ensures AfterGroups(plan, writes).Some?
    decreases |writes|
  {
    hide Data, Moves, CanFail, AfterDelivery;
    if writes != [] {
      var n := if |writes| < MAX_VECTORED_WRITE_SLICES then |writes| else MAX_VECTORED_WRITE_SLICES;
      assert writes == writes[..n] + writes[n..];
      DataConcat(writes[..n], writes[n..]);
      EnoughMoves(plan, |Data(writes[..n])|);
      EnoughForGroups(AfterDelivery(plan, |Data(writes[..n])|).value, writes[n..]);
    }
  }

  /**
   Writes a batch in groups of at most 1024 slices. For every schedule of
   short writes and interruptions, `Complete` means that the file grew by
   exactly the data of all writes in order; otherwise it grew by a prefix. It
   completes if and only if the schedule delivers the groups.
   */
  method WriteBatchVectored(file: AppendFile, writes: seq<WriteReq>) returns (res: WriteResult)
    modifies file
    ensures old(file.data) <= file.data <= old(file.data) + Data(writes)
    ensures res == Complete ==> file.data == old(file.data) + Data(writes)
    ensures res == Complete <==> AfterGroups(old(file.plan), writes).Some?
    ensures res == Errored ==> CanFail(old(file.plan))
    ensures res == Unfinished ==> file.plan == []
  {
    hide Data, Concat, CanFail, SlicesOf, Moves, AfterDelivery, AfterGroups;
    ghost var start, plan := file.data, file.plan;
    var i := 0;
    assert writes[0..] == writes;
    NoData(writes[|writes|..]);
    while i < |writes|
      invariant 0 <= i <= |writes|
      invariant start <= file.data && file.data + Data(writes[i..]) == start + Data(writes)
      invariant |file.plan| <= |plan| && file.plan == plan[|plan| - |file.plan|..]
      invariant AfterGroups(file.plan, writes[i..]) == AfterGroups(plan, writes)
      decreases |writes| - i
    {
      var n := if |writes| - i < MAX_VECTORED_WRITE_SLICES then |writes| - i else MAX_VECTORED_WRITE_SLICES;
      var slices := SlicesOf(writes[i..i + n]);
      NextGroup(writes, i, n);
      ghost var before, plan', data := file.data, file.plan, Concat(slices);
      NoSlices();
      FirstGroup(plan', writes, i, n);
      if slices != [] {
        var r := WriteAllVectored(file, slices);
        if r != Complete {
          PrefixOfSum(before, file.data, data, Data(writes[i + n..]), start, Data(writes));
          if r == Errored {
            FailsLater(plan, plan');
          }
          return r;
        }
      }
      Reassociate(before, data, Data(writes[i + n..]));
      i := i + n;
    }
    assert file.data + [] == file.data;
    NoGroupsLeft(file.plan, writes[i..]);
    return Complete;
  }

  lemma NoGroupsLeft(plan: seq<Outcome>, writes: seq<WriteReq>)
    ensures writes == [] ==> AfterGroups(plan, writes) == Some(plan)
  {
  }

  lemma FirstGroup(plan: seq<Outcome>, writes: seq<WriteReq>, i: nat, n: nat)
    requires i < |writes| && i + n <= |writes|
    requires n == if |writes| - i < MAX_VECTORED_WRITE_SLICES then |writes| - i else MAX_VECTORED_WRITE_SLICES
    ensures var rest := AfterDelivery(plan, |Concat(SlicesOf(writes[i..i + n]))|);
            AfterGroups(plan, writes[i..]) == if rest.None? then None else AfterGroups(rest.value, writes[i + n..])
    ensures SlicesOf(writes[i..i + n]) == [] ==> AfterDelivery(plan, |Concat(SlicesOf(writes[i..i + n]))|) == Some(plan)
  {
    hide Data, Concat, SlicesOf, AfterDelivery;
    SlicesData(writes[i..i + n]);
    assert writes[i..][..n] == writes[i..i + n] && writes[i..][n..] == writes[i + n..];
    NoSlices();
    NoBytes(plan);
  }

  lemma NoBytes(plan: seq<Outcome>)
    ensures AfterDelivery(plan, 0) == Some(plan)
  {
  }

  lemma NoData(writes: seq<WriteReq>)
    ensures writes == [] ==> Data(writes) == []
  {
  }

  lemma NoSlices()
    ensures Concat([]) == []
  {
  }

  lemma Reassociate(a: seq<Byte>, b: seq<Byte>, c: seq<Byte>)
    ensures (a + b) + c == a + (b + c)
    ensures b == [] ==> a + b == a
  {
  }

  lemma NextGroup(writes: seq<WriteReq>, i: nat, n: nat)
    requires i + n <= |writes|
    ensures Data(writes[i..]) == Concat(SlicesOf(writes[i..i + n])) + Data(writes[i + n..])
  {
    hide Data, Concat, SlicesOf;
    SlicesData(writes[i..i + n]);
    DataConcat(writes[i..i + n], writes[i + n..]);
    assert writes[i..] == writes[i..i + n] + writes[i + n..];
  }

  lemma PrefixOfSum(before: seq<Byte>, now: seq<Byte>, data: seq<Byte>, rest: seq<Byte>, start: seq<Byte>, all: seq<Byte>)
    requires before <= now <= before + data && before + (data + rest) == start + all && start <= before
    ensures start <= now <= start + all
  {
    assert before + (data + rest) == (before + data) + rest;
  }

  lemma FailsLater(plan: seq<Outcome>, plan': seq<Outcome>)
    requires |plan'| <= |plan| && plan' == plan[|plan| - |plan'|..] && CanFail(plan')
    ensures CanFail(plan)
  {
    var i :| 0 <= i < |plan'| && (plan'[i] == Failed || plan'[i] == Wrote(0));
    assert plan[|plan| - |plan'| + i] == plan'[i];
  }
}
