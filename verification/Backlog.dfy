/**
 What the queue promises about the files.

 A position says how far the worker has got: the chunk it writes, the bytes in
 that file, how many of them are durable, whether their end has been
 announced, the first chunk still on disk, and whether removals wait until the
 first record of the oldest chunk they leave is durable. `Runs` says that every queued
 request is in order when its turn comes; `Final` is the position after all
 of them.
 */
module Backlog {
  import opened Bytes
  import opened Codec
  import opened Log
  import opened Requests

  datatype Pos = Pos(cur: nat, have: seq<Byte>, dur: nat, noted: bool, lo: nat, careful: bool)

  /** The first record of chunk `n` is durable at a position that is writing chunk `cur`. */
  ghost predicate FirstIsDurable<R>(c: Codec<R>, hist: seq<ChunkLog<R>>, cur: nat, dur: nat, n: nat) {
    || n < cur
    || (n == cur < |hist| && hist[cur].recs != [] && |Bytes1(c, hist[cur].recs[0])| <= dur)
  }

  ghost predicate Allowed<R>(c: Codec<R>, hist: seq<ChunkLog<R>>, p: Pos, req: Request<R>) {
    && p.cur < |hist|
    && match req
       case Write(w) =>
         && p.have + w.data <= Stream(c, hist[p.cur].recs)
         && w.upto == hist[p.cur].id + |p.have| + |w.data|
         && HasMark(c, hist[p.cur], w.upto)
       case AppendFile(e) =>
         && p.have == Stream(c, hist[p.cur].recs)
         && p.dur == |p.have| && p.noted
         && p.cur + 1 < |hist| && hist[p.cur + 1].recs != []
         && e == FileEntry(hist[p.cur + 1].id, Some(hist[p.cur + 1].recs[0]))
       case RemoveChunks(ids) =>
         && p.lo + |ids| <= p.cur
         && (forall j | 0 <= j < |ids| :: ids[j] == hist[p.lo + j].id)
         && (p.careful && ids != [] ==> FirstIsDurable(c, hist, p.cur, p.dur, p.lo + |ids|))
  }

  function Wrote(p: Pos, w: WriteReq): Pos {
    p.(have := p.have + w.data,
    dur := if w.sync then |p.have| + |w.data| else p.dur,
    noted := w.sync || (p.noted && w.data == []))
  }

  function Advance<R>(p: Pos, req: Request<R>): Pos {
    match req
    case Write(w) => Wrote(p, w)
    case AppendFile(_) => Pos(p.cur + 1, [], 0, false, p.lo, p.careful)
    case RemoveChunks(ids) => p.(lo := p.lo + |ids|)
  }

  ghost predicate Runs<R>(c: Codec<R>, hist: seq<ChunkLog<R>>, p: Pos, q: seq<Request<R>>)
    decreases |q|
  {
    q == [] || (Allowed(c, hist, p, q[0]) && Runs(c, hist, Advance(p, q[0]), q[1..]))
  }

  function Final<R>(p: Pos, q: seq<Request<R>>): Pos
    decreases |q|
  {
    if q == [] then p else Final(Advance(p, q[0]), q[1..])
  }

  lemma {:induction false} CarefulStays<R>(p: Pos, q: seq<Request<R>>)
    ensures Final(p, q).careful == p.careful
    decreases |q|
  {
    if q != [] {
      CarefulStays(Advance(p, q[0]), q[1..]);
    }
  }

  lemma {:induction false} RunsConcat<R>(c: Codec<R>, hist: seq<ChunkLog<R>>, p: Pos, a: seq<Request<R>>, b: seq<Request<R>>)
    ensures Runs(c, hist, p, a + b) <==> Runs(c, hist, p, a) && Runs(c, hist, Final(p, a), b)
    ensures Final(p, a + b) == Final(Final(p, a), b)
    decreases |a|
  {
    if a == [] {
      assert a + b == b;
    } else {
      assert (a + b)[1..] == a[1..] + b;
      RunsConcat(c, hist, Advance(p, a[0]), a[1..], b);
    }
  }

  lemma RunsAppend<R>(c: Codec<R>, hist: seq<ChunkLog<R>>, p: Pos, q: seq<Request<R>>, r: Request<R>)
    requires Runs(c, hist, p, q) && Allowed(c, hist, Final(p, q), r)
    ensures Runs(c, hist, p, q + [r])
    ensures Final(p, q + [r]) == Advance(Final(p, q), r)
  {
    RunsConcat(c, hist, p, q, [r]);
    assert [r][1..] == [];
  }

  // A position that is further along: more of the same bytes durable.

  ghost predicate AtLeast(p: Pos, p': Pos) {
    && p'.cur == p.cur && p'.have == p.have && p'.lo == p.lo && p'.careful == p.careful
    && p.dur <= p'.dur <= |p.have|
    && (p.noted ==> p'.noted)
  }

  lemma AllowedAtLeast<R>(c: Codec<R>, hist: seq<ChunkLog<R>>, p: Pos, p': Pos, r: Request<R>)
    requires AtLeast(p, p') && Allowed(c, hist, p, r)
    ensures Allowed(c, hist, p', r) && AtLeast(Advance(p, r), Advance(p', r))
  {
  }

  lemma {:induction false} RunsAtLeast<R>(c: Codec<R>, hist: seq<ChunkLog<R>>, p: Pos, p': Pos, q: seq<Request<R>>)
    requires AtLeast(p, p') && Runs(c, hist, p, q)
    ensures Runs(c, hist, p', q) && AtLeast(Final(p, q), Final(p', q))
    decreases |q|
  {
    if q != [] {
      AllowedAtLeast(c, hist, p, p', q[0]);
      RunsAtLeast(c, hist, Advance(p, q[0]), Advance(p', q[0]), q[1..]);
    }
  }

  // A log that grew while the request was queued.

  lemma AllowedExtends<R>(c: Codec<R>, hist: seq<ChunkLog<R>>, hist': seq<ChunkLog<R>>, p: Pos, r: Request<R>)
    requires Extends(hist, hist') && hist[|hist| - 1].recs != [] && Allowed(c, hist, p, r)
    ensures Allowed(c, hist', p, r)
  {
    hide Stream;
    var a, b := hist[p.cur], hist'[p.cur];
    assert a.recs <= b.recs;
    if r.Write? {
      StreamSplit(c, b.recs, |a.recs|);
      assert b.recs[..|a.recs|] == a.recs;
      var k: nat :| IsMark(c, a, r.write.upto, k);
      assert b.recs[..k] == a.recs[..k];
      assert IsMark(c, b, r.write.upto, k);
    } else if r.AppendFile? {
      assert b == a;
      assert hist[p.cur + 1].recs <= hist'[p.cur + 1].recs;
    }
  }

  lemma {:induction false} RunsExtends<R>(c: Codec<R>, hist: seq<ChunkLog<R>>, hist': seq<ChunkLog<R>>, p: Pos, q: seq<Request<R>>)
    requires Extends(hist, hist') && hist[|hist| - 1].recs != [] && Runs(c, hist, p, q)
    ensures Runs(c, hist', p, q)
    decreases |q|
  {
    if q != [] {
      AllowedExtends(c, hist, hist', p, q[0]);
      RunsExtends(c, hist, hist', Advance(p, q[0]), q[1..]);
    }
  }

  // Group commit: a run of writes handled as one.

  /** The one write that a batch amounts to: all the data, synced if any part asks for it. */
  function Merged(writes: seq<WriteReq>): WriteReq
    requires writes != []
  {
    WriteReq(writes[|writes| - 1].upto, Data(writes), NeedsSync(writes), None)
  }

  lemma MergeStep<R>(c: Codec<R>, hist: seq<ChunkLog<R>>, p: Pos, front: seq<WriteReq>, w: WriteReq)
    requires front != [] && p.dur <= |p.have|
    requires Allowed(c, hist, p, Write(Merged(front)))
    requires Allowed(c, hist, Wrote(p, Merged(front)), Write(w))
    ensures var all := front + [w];
            && Allowed(c, hist, p, Write(Merged(all)))
            && AtLeast(Wrote(Wrote(p, Merged(front)), w), Wrote(p, Merged(all)))
  {
    var all := front + [w];
    assert all[..|all| - 1] == front;
    assert NeedsSync(all) <==> NeedsSync(front) || w.sync by {
      if NeedsSync(front) {
        var i :| 0 <= i < |front| && front[i].sync;
        assert all[i].sync;
      }
      if w.sync {
        assert all[|front|].sync;
      }
      if NeedsSync(all) {
        var i :| 0 <= i < |all| && all[i].sync;
        assert i < |front| ==> front[i].sync;
      }
    }
    assert p.have + (Data(front) + w.data) == (p.have + Data(front)) + w.data;
  }

  /** Handling a batch as one write is in order, and leaves at least as much durable. */
  lemma {:induction false} MergedRuns<R>(c: Codec<R>, hist: seq<ChunkLog<R>>, p: Pos, writes: seq<WriteReq>)
    requires writes != [] && p.dur <= |p.have|
    requires Runs(c, hist, p, AsRequests<R>(writes))
    ensures Allowed(c, hist, p, Write(Merged(writes)))
    ensures AtLeast(Final(p, AsRequests<R>(writes)), Wrote(p, Merged(writes)))
    decreases |writes|
  {
    hide Allowed, NeedsSync, Data, Wrote;
    var n := |writes| - 1;
    var front, w := writes[..n], writes[n];
    var last: seq<Request<R>> := [Write(w)];
    var reqs := AsRequests<R>(writes);
    assert reqs == AsRequests<R>(front) + last && last[1..] == [];
    RunsConcat(c, hist, p, AsRequests<R>(front), last);
    if n == 0 {
      assert writes == [w];
      MergeOne(w);
      MergedAtLeast(c, hist, p, w);
    } else {
      MergedRuns(c, hist, p, front);
      AllowedAtLeast(c, hist, Final(p, AsRequests<R>(front)), Wrote(p, Merged(front)), Write(w));
      MergeStep(c, hist, p, front, w);
      assert front + [w] == writes;
    }
  }

  lemma MergeOne(w: WriteReq)
    ensures Data([w]) == w.data && (NeedsSync([w]) <==> w.sync)
  {
    assert [w][..0] == [];
    assert [w][0] == w;
  }

  lemma MergedAtLeast<R>(c: Codec<R>, hist: seq<ChunkLog<R>>, p: Pos, w: WriteReq)
    requires p.dur <= |p.have| && Allowed(c, hist, p, Write(w))
    ensures Allowed(c, hist, p, Write(w.(callback := None)))
    ensures AtLeast(Wrote(p, w), Wrote(p, w.(callback := None)))
  {
  }
}
