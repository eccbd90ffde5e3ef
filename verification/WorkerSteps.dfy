/** Every step of the flush worker keeps the invariant. */
module WorkerSteps {
  import opened Codec
  import opened Log
  import opened Requests
  import opened Backlog
  import opened CrashImages
  import opened System
  import opened Invariant
  import opened MainSteps

  /** The flow carries over to a state whose promise is at least as good. */
  lemma FlowsAtLeast<R, S>(env: Env<R, S>, s: Sys<R, S>, s': Sys<R, S>)
    requires Flows(env, s) && Placed(s') && s'.hist == s.hist && s'.purged == s.purged
    requires s'.main.pending == s.main.pending
    requires Runs(env.codec, s'.hist, PosOf(s'), Todo(s'))
    requires AtLeast(Promised(s), Promised(s'))
    ensures Flows(env, s')
    ensures Settled(s) ==> Settled(s')
  {
    hide Stream, Runs, Final, Todo, PosOf;
  }

  // Taking requests

  lemma ReqsSplit<R>(q: seq<SeqRequest<R>>, n: nat)
    requires n <= |q|
    ensures Reqs(q) == Reqs(q[..n]) + Reqs(q[n..])
  {
  }

  lemma WritesAsRequests<R>(q: seq<SeqRequest<R>>)
    requires forall i | 0 <= i < |q| :: q[i].req.Write?
    ensures AsRequests<R>(WritesOf(q)) == Reqs(q)
  {
  }

  /** Every write of a run ends on a record boundary, and before the last of them. */
  lemma {:induction false} WritesEnd<R>(c: Codec<R>, hist: seq<ChunkLog<R>>, p: Pos, writes: seq<WriteReq>)
    requires Runs(c, hist, p, AsRequests<R>(writes)) && p.cur < |hist|
    ensures Final(p, AsRequests<R>(writes)).cur == p.cur
    ensures EndsOk(c, hist[p.cur], writes, hist[p.cur].id + |p.have| + |Data(writes)|)
    decreases |writes|
  {
    if writes != [] {
      hide Stream, HasMark, Runs, Final;
      var n := |writes| - 1;
      var front, w := writes[..n], writes[n];
      var last: seq<Request<R>> := [Write(w)];
      assert AsRequests<R>(writes) == AsRequests<R>(front) + last;
      RunsConcat(c, hist, p, AsRequests<R>(front), last);
      OneRuns(c, hist, Final(p, AsRequests<R>(front)), Write(w));
      WritesEnd(c, hist, p, front);
      WritesHave(c, hist, p, front, AsRequests<R>(front));
      EndsOkAdd(c, hist[p.cur], front, w, hist[p.cur].id + |p.have| + |Data(front)|, hist[p.cur].id + |p.have| + |Data(writes)|);
      assert front + [w] == writes;
    } else {
      EmptyFinal(p, AsRequests<R>(writes));
    }
  }

  lemma EmptyFinal<R>(p: Pos, reqs: seq<Request<R>>)
    requires reqs == []
    ensures Final(p, reqs) == p
  {
  }

  lemma EndsOkAdd<R>(c: Codec<R>, ch: ChunkLog<R>, front: seq<WriteReq>, w: WriteReq, limit: nat, limit': nat)
    requires EndsOk(c, ch, front, limit) && limit <= limit' && EndOk(c, ch, w, limit')
    ensures EndsOk(c, ch, front + [w], limit')
  {
    hide HasMark;
    forall i | 0 <= i <= |front| ensures EndOk(c, ch, (front + [w])[i], limit') {
      assert i < |front| ==> EndOk(c, ch, front[i], limit);
    }
  }

  lemma {:induction false} WritesHave<R>(c: Codec<R>, hist: seq<ChunkLog<R>>, p: Pos, writes: seq<WriteReq>, reqs: seq<Request<R>>)
    requires reqs == AsRequests<R>(writes)
    ensures |Final(p, reqs).have| == |p.have| + |Data(writes)|
    decreases |writes|
  {
    if writes != [] {
      var n := |writes| - 1;
      var front: seq<Request<R>>, last: seq<Request<R>> := AsRequests<R>(writes[..n]), [Write(writes[n])];
      assert reqs == front + last && last[1..] == [];
      RunsConcat(c, hist, p, front, last);
      WritesHave(c, hist, p, writes[..n], front);
    }
  }

  lemma OneRuns<R>(c: Codec<R>, hist: seq<ChunkLog<R>>, p: Pos, req: Request<R>)
    ensures Runs(c, hist, p, [req]) <==> Allowed(c, hist, p, req)
    ensures Final(p, [req]) == Advance(p, req)
  {
    hide Allowed, Advance;
    assert [req][1..] == [];
  }

  /** Taking a batch keeps the flow: it stands for the requests it was made of. */
  lemma BatchRuns<R>(c: Codec<R>, hist: seq<ChunkLog<R>>, p: Pos, writes: seq<WriteReq>, after: seq<Request<R>>)
    requires writes != [] && p.dur <= |p.have| && Runs(c, hist, p, AsRequests<R>(writes) + after)
    ensures Runs(c, hist, p, [Write(Merged(writes))] + after)
    ensures AtLeast(Final(p, AsRequests<R>(writes) + after), Final(p, [Write(Merged(writes))] + after))
  {
    hide Allowed, Wrote, Merged, AtLeast, Runs, Final;
    var reqs := AsRequests<R>(writes);
    var one: seq<Request<R>> := [Write(Merged(writes))];
    RunsConcat(c, hist, p, reqs, after);
    MergedRuns(c, hist, p, writes);
    OneRuns(c, hist, p, Write(Merged(writes)));
    RunsAtLeast(c, hist, Final(p, reqs), Final(p, one), after);
    RunsConcat(c, hist, p, one, after);
  }

  lemma TakeTodo<R, S>(s: Sys<R, S>, n: nat, withNext: bool, s': Sys<R, S>)
    requires DoesTakeWrites(s, n, withNext, s')
    ensures var writes, after := s'.worker.phase.batch.writes, Reqs(s.queue[n..]) + BeingSent(s.sending);
            && s'.worker.phase.Writing? && writes == WritesOf(s.queue[..n]) && s'.worker.phase.rest == Data(writes)
            && Todo(s) == AsRequests<R>(writes) + after
            && Todo(s') == [Write(Merged(writes))] + after
  {
    hide Data, NeedsSync, Todo, Reqs, AsRequests, WritesOf, BeingSent, NextReq;
    ReqsSplit(s.queue, n);
    WritesAsRequests(s.queue[..n]);
    NextSplit(s.queue, n, withNext);
    IdleTodo(s, AsRequests<R>(WritesOf(s.queue[..n])), Reqs(s.queue[n..]));
    WritingTodo(s');
  }

  lemma IdleTodo<R, S>(s: Sys<R, S>, a: seq<Request<R>>, b: seq<Request<R>>)
    requires s.worker.phase == Idle && Reqs(s.queue) == a + b
    ensures Todo(s) == a + (b + BeingSent(s.sending))
  {
    hide Reqs, BeingSent;
  }

  lemma WritingTodo<R, S>(s: Sys<R, S>)
    requires s.worker.phase.Writing? && s.worker.phase.batch.writes != []
    requires s.worker.phase.rest == Data(s.worker.phase.batch.writes)
    ensures var b := s.worker.phase.batch;
            Todo(s) == [Write(Merged(b.writes))] + ((NextReq(b.next) + Reqs(s.queue)) + BeingSent(s.sending))
  {
    hide Data, NeedsSync, Reqs, BeingSent, NextReq;
    var b := s.worker.phase.batch;
    FourParts([Write(Merged(b.writes))], NextReq(b.next), Reqs(s.queue), BeingSent(s.sending));
  }

  lemma FourParts<R>(a: seq<Request<R>>, b: seq<Request<R>>, c: seq<Request<R>>, d: seq<Request<R>>)
    ensures (a + b) + (c + d) == a + ((b + c) + d)
    ensures a == [] ==> a + ((b + c) + d) == b + (c + d)
  {
  }

  lemma NextSplit<R>(q: seq<SeqRequest<R>>, n: nat, withNext: bool)
    requires n <= |q| && (withNext ==> n < |q|)
    ensures Reqs(q[n..]) ==
            NextReq(if withNext then Some(q[n]) else None) + Reqs(if withNext then q[n + 1..] else q[n..])
  {
    hide Reqs;
    if withNext {
      HeadRequest(q[n..]);
      assert q[n..][1..] == q[n + 1..];
    }
  }

  lemma HeadRequest<R>(q: seq<SeqRequest<R>>)
    requires q != []
    ensures Reqs(q) == [q[0].req] + Reqs(q[1..])
  {
    assert |Reqs(q)| == 1 + |Reqs(q[1..])|;
  }

  lemma TakeWritesStep<R(!new), S(!new)>(env: Env<R, S>, s: Sys<R, S>, n: nat, withNext: bool, s': Sys<R, S>)
    requires Core(env, s) && s.worker.status == Running && DoesTakeWrites(s, n, withNext, s')
    ensures Core(env, s') && Preserves(env, s, s') && (Settled(s) ==> Settled(s'))
  {
    hide Runs, Final, Stream, RepliesOk, Preserves, FilesOk, OnDisk, IndexOk, EndsAt, AtLeast, Todo, EndsOk, Data, NeedsSync,
    Settled;
    TakeTodo(s, n, withNext, s');
    SameStoreInv(env, s, s');
    IndexSame(env, s, s');
    DurInFile(env, s);
    var c, p, writes, after := env.codec, PosOf(s), s'.worker.phase.batch.writes, Reqs(s.queue[n..]) + BeingSent(s.sending);
    BatchRuns(c, s.hist, p, writes, after);
    FlowsAtLeast(env, s, s');
    RunsConcat(c, s.hist, p, AsRequests<R>(writes), after);
    WritesEnd(c, s.hist, p, writes);
    FilesSame(s, s');
  }

  lemma DurInFile<R(!new), S(!new)>(env: Env<R, S>, s: Sys<R, S>)
    requires OnDisk(env, s)
    ensures Placed(s) && PosOf(s).dur <= |PosOf(s).have|
  {
  }

  lemma FilesSame<R, S>(s: Sys<R, S>, s': Sys<R, S>)
    requires FilesOk(s) && s'.hist == s.hist && s'.disk == s.disk && s'.cur == s.cur && s'.worker.files == s.worker.files && s'.sending == s.sending
    ensures FilesOk(s')
  {
  }

  /** A step that changes only the phase, the queue or the byte count, and leaves the same work to do. */
  lemma SameTodo<R(!new), S(!new)>(env: Env<R, S>, s: Sys<R, S>, s': Sys<R, S>)
    requires Core(env, s) && s.worker.status == Running && SameStore(s, s')
    requires s'.main == s.main && s'.drained == s.drained && s'.purged == s.purged && s'.sending == s.sending
    requires s'.worker.files == s.worker.files && s'.worker.status == Running && Todo(s') == Todo(s)
    ensures Placed(s') && PosOf(s') == PosOf(s)
    ensures OnDisk(env, s') && IndexOk(env, s') && RepliesOk(env, s') && Flows(env, s') && FilesOk(s')
    ensures Preserves(env, s, s') && (Settled(s) ==> Settled(s'))
  {
    hide Runs, Final, Stream, RepliesOk, Preserves, FilesOk, OnDisk, IndexOk, EndsAt, Todo;
    SameStoreInv(env, s, s');
    IndexSame(env, s, s');
    FilesSame(s, s');
    assert Promised(s') == Promised(s);
    EndsSame(env, s, s', Promised(s));
  }

  lemma TakeOtherStep<R(!new), S(!new)>(env: Env<R, S>, s: Sys<R, S>, s': Sys<R, S>)
    requires Core(env, s) && s.worker.status == Running && s.worker.phase == Idle && s.queue != []
    requires s' == InPhase(s, Finishing(Some(s.queue[0]), 0)).(queue := s.queue[1..])
    ensures Core(env, s') && Preserves(env, s, s') && (Settled(s) ==> Settled(s'))
  {
    hide Core, Preserves, Settled, Todo, OnDisk, Flows, FilesOk, IndexOk, RepliesOk;
    InvIs(env, s);
    TakeOtherTodo(s, s');
    SameTodo(env, s, s');
    InvFrom(env, s');
  }

  lemma TakeOtherTodo<R, S>(s: Sys<R, S>, s': Sys<R, S>)
    requires s.worker.phase == Idle && s.queue != []
    requires s' == InPhase(s, Finishing(Some(s.queue[0]), 0)).(queue := s.queue[1..])
    ensures Todo(s') == Todo(s)
  {
    hide Reqs;
    NextSplit(s.queue, 0, true);
    assert s.queue[0..] == s.queue;
    FourParts([], [s.queue[0].req], Reqs(s'.queue), BeingSent(s.sending));
  }

  lemma InvIs<R(!new), S(!new)>(env: Env<R, S>, s: Sys<R, S>)
    requires Core(env, s)
    ensures OnDisk(env, s) && IndexOk(env, s) && RepliesOk(env, s) && Placed(s)
    ensures s.worker.status == Running ==> Flows(env, s) && FilesOk(s) && BatchOk(env, s)
  {
  }

  lemma InvFrom<R(!new), S(!new)>(env: Env<R, S>, s: Sys<R, S>)
    requires OnDisk(env, s) && IndexOk(env, s) && RepliesOk(env, s) && Placed(s)
    requires s.worker.status == Running ==> Flows(env, s) && FilesOk(s) && BatchOk(env, s)
    ensures Core(env, s)
  {
  }

  // Writing

  lemma WriteDoneStep<R(!new), S(!new)>(env: Env<R, S>, s: Sys<R, S>, s': Sys<R, S>)
    requires Core(env, s) && s.worker.status == Running && s.worker.phase.Writing? && s.worker.phase.rest == []
    requires var b := s.worker.phase.batch; s' == InPhase(s, if NeedsSync(b.writes) then Syncing(b) else Replying(b, 0))
    ensures Core(env, s') && Preserves(env, s, s') && (Settled(s) ==> Settled(s'))
  {
    hide Preserves, RepliesOk, IndexOk, OnDisk, FilesOk, Stream, Runs, Final, EndsAt, EndsOk, NeedsSync, HasMark;
    var b := s.worker.phase.batch;
    if NeedsSync(b.writes) {
      assert Todo(s') == Todo(s);
      SameTodo(env, s, s');
    } else {
      SameStoreInv(env, s, s');
      IndexSame(env, s, s');
      FilesSame(s, s');
      var w: Request<R> := Write(WriteReq(BatchEnd(b), [], false, None));
      assert Todo(s) == [w] + Todo(s');
      SkipEmptyWrite(env.codec, s.hist, PosOf(s), w, Todo(s'));
      EndsSame(env, s, s', Promised(s));
    }
  }

  /** A write of nothing without a sync does nothing. */
  lemma SkipEmptyWrite<R>(c: Codec<R>, hist: seq<ChunkLog<R>>, p: Pos, w: Request<R>, after: seq<Request<R>>)
    requires w.Write? && w.write.data == [] && !w.write.sync && Runs(c, hist, p, [w] + after)
    ensures Runs(c, hist, p, after) && Final(p, after) == Final(p, [w] + after)
  {
    hide Stream;
    assert ([w] + after)[1..] == after;
    assert p.have + [] == p.have;
    assert Advance(p, w) == p;
  }

  /** Writing part of a batch is one step along the write that the batch stands for. */
  lemma PartOfWrite<R>(
    c: Codec<R>, hist: seq<ChunkLog<R>>, p: Pos, w: WriteReq, k: nat, noted: bool, after: seq<Request<R>>)
    requires 0 < k <= |w.data| && p.dur <= |p.have| && Runs(c, hist, p, [Write(w)] + after)
    ensures var p' := p.(have := p.have + w.data[..k], noted := noted);
            var rest := [Write(w.(data := w.data[k..]))] + after;
            && Runs(c, hist, p', rest) && AtLeast(Final(p, [Write(w)] + after), Final(p', rest))
            && p'.have <= Stream(c, hist[p.cur].recs)
  {
    hide Stream, HasMark;
    var p' := p.(have := p.have + w.data[..k], noted := noted);
    var w' := w.(data := w.data[k..]);
    var all, rest: seq<Request<R>> := [Write(w)] + after, [Write(w')] + after;
    assert all[1..] == after && rest[1..] == after;
    assert w.data == w.data[..k] + w.data[k..];
    assert p'.have + w'.data == p.have + w.data;
    assert Allowed(c, hist, p', Write(w'));
    assert AtLeast(Wrote(p, w), Wrote(p', w'));
    RunsAtLeast(c, hist, Wrote(p, w), Wrote(p', w'), after);
  }

  /** The current file grew or was synced. */
  lemma OnDiskCurrent<R(!new), S(!new)>(env: Env<R, S>, s: Sys<R, S>, s': Sys<R, S>, f: File)
    requires OnDisk(env, s) && s'.disk == s.disk[s.hist[s.cur].id := f]
    requires s'.hist == s.hist && s'.lo == s.lo && s'.cur == s.cur && s'.sm == s.sm && s'.careful == s.careful
    requires f.os <= Stream(env.codec, s.hist[s.cur].recs) && CurFile(s).dur <= f.dur <= |f.os|
    ensures OnDisk(env, s') && CurFile(s') == f && Preserves(env, s, s')
  {
    hide Stream, ReplayChunks, CheckpointFirst, Chained;
    StoredCurrent(env.codec, s.hist, s.lo, s.cur, s.disk, f);
    ExtendingStep(env, s, s');
  }

  lemma FilesCurrent<R, S>(s: Sys<R, S>, s': Sys<R, S>, f: File)
    requires FilesOk(s) && s'.disk == s.disk[s.hist[s.cur].id := f]
    requires s'.hist == s.hist && s'.cur == s.cur && s'.worker.files == s.worker.files && s'.sending == s.sending
    ensures FilesOk(s')
  {
  }

  lemma WriteSomeStep<R(!new), S(!new)>(env: Env<R, S>, s: Sys<R, S>, k: nat, s': Sys<R, S>)
    requires Core(env, s) && s.worker.status == Running && s.worker.phase.Writing? && 0 < k <= |s.worker.phase.rest|
    requires s' == InPhase(s, Writing(s.worker.phase.batch, s.worker.phase.rest[k..]))
                   .(disk := Grown(s, s.worker.phase.rest[..k]))
    ensures Core(env, s') && Preserves(env, s, s') && (Settled(s) ==> Settled(s'))
  {
    hide Preserves, RepliesOk, IndexOk, OnDisk, FilesOk, Stream, Runs, Final, EndsAt, EndsOk, NeedsSync, AtLeast, Settled;
    var b, rest := s.worker.phase.batch, s.worker.phase.rest;
    var w := WriteReq(BatchEnd(b), rest, NeedsSync(b.writes), None);
    var after := NextReq(b.next) + Waiting(s);
    var f := File(CurFile(s).os + rest[..k], CurFile(s).dur);
    assert Todo(s) == [Write(w)] + after && Todo(s') == [Write(w.(data := rest[k..]))] + after;
    DurInFile(env, s);
    PartOfWrite(env.codec, s.hist, PosOf(s), w, k, IsNoted(s'), after);
    OnDiskCurrent(env, s, s', f);
    RepliesStayOk(env, s, s');
    IndexSame(env, s, s');
    FilesCurrent(s, s', f);
    FlowsAtLeast(env, s, s');
  }

  // Syncing

  /** A file before the current one is durable already, or gone. */
  lemma OlderIsSynced<R(!new), S(!new)>(env: Env<R, S>, s: Sys<R, S>, id: nat)
    requires OnDisk(env, s) && id < s.hist[s.cur].id
    ensures Synced(s.disk, id) == s.disk
  {
    hide Stream, ReplayChunks, Chained, CheckpointFirst, FirstIsDurable;
    if id in s.disk {
      assert IsLive(s.hist, s.lo, s.cur, id);
      var i :| s.lo <= i <= s.cur && s.hist[i].id == id;
      assert IsWhole(env.codec, s.hist[i], s.disk);
      assert s.disk[id := s.disk[id]] == s.disk;
    }
  }

  lemma SyncOlderStep<R(!new), S(!new)>(env: Env<R, S>, s: Sys<R, S>, s': Sys<R, S>)
    requires Core(env, s) && s.worker.status == Running && s.worker.phase.Syncing? && |s.worker.files| > 1
    requires s' == s.(worker := s.worker.(files := s.worker.files[1..]), disk := Synced(s.disk, s.worker.files[0].start))
    ensures Core(env, s') && Preserves(env, s, s') && (Settled(s) ==> Settled(s'))
  {
    hide Preserves, RepliesOk, IndexOk, OnDisk, Stream, Runs, Final, EndsAt, EndsOk, Synced, IsLive;
    OlderIsSynced(env, s, s.worker.files[0].start);
    SameStoreInv(env, s, s');
    IndexSame(env, s, s');
    assert Todo(s') == Todo(s);
    EndsSame(env, s, s', Promised(s));
  }

  /** Syncing the current file is what the batch's write promised. */
  lemma SyncIsWrite<R>(c: Codec<R>, hist: seq<ChunkLog<R>>, p: Pos, w: WriteReq, after: seq<Request<R>>)
    requires w.data == [] && w.sync && Runs(c, hist, p, [Write(w)] + after)
    ensures p.cur < |hist| && w.upto == hist[p.cur].id + |p.have|
    ensures var p' := p.(dur := |p.have|, noted := true);
            Runs(c, hist, p', after) && Final(p', after) == Final(p, [Write(w)] + after)
  {
    hide Stream, HasMark;
    var all: seq<Request<R>> := [Write(w)] + after;
    assert all[1..] == after;
    assert p.have + [] == p.have;
    assert Advance(p, all[0]) == p.(dur := |p.have|, noted := true);
  }

  lemma SyncLastStep<R(!new), S(!new)>(env: Env<R, S>, s: Sys<R, S>, s': Sys<R, S>)
    requires Core(env, s) && s.worker.status == Running && s.worker.phase.Syncing? && |s.worker.files| == 1
    requires s' == InPhase(s, Replying(s.worker.phase.batch, 0))
                   .(disk := Synced(s.disk, s.worker.files[0].start),
                   notes := s.notes + [Note(s.worker.files[0].start, BatchEnd(s.worker.phase.batch), s.worker.files[0].prev)])
    ensures Core(env, s') && Preserves(env, s, s') && (Settled(s) ==> Settled(s'))
    ensures Placed(s') && s'.notes[|s'.notes| - 1].synced == DurableEnd(s')
  {
    hide Preserves, RepliesOk, IndexOk, Stream, Runs, Final, EndsAt, EndsOk, IsLive, Stored, FirstIsDurable, ValidLog,
    EnvOk, StateAfter, NeedsSync;
    var b := s.worker.phase.batch;
    var w := WriteReq(BatchEnd(b), [], true, None);
    var after := NextReq(b.next) + Waiting(s);
    var f := File(CurFile(s).os, |CurFile(s).os|);
    assert Todo(s) == [Write(w)] + after && Todo(s') == after;
    SyncIsWrite(env.codec, s.hist, PosOf(s), w, after);
    OnDiskCurrent(env, s, s', f);
    RepliesStayOk(env, s, s');
    IndexSame(env, s, s');
    FilesCurrent(s, s', f);
    assert PosOf(s') == PosOf(s).(dur := |PosOf(s).have|, noted := true);
    EndsSame(env, s, s', Promised(s));
  }

  // Replying

  lemma ReplyOneStep<R(!new), S(!new)>(env: Env<R, S>, s: Sys<R, S>, s': Sys<R, S>)
    requires Core(env, s) && s.worker.status == Running && s.worker.phase.Replying?
    requires var (b, i) := (s.worker.phase.batch, s.worker.phase.replied);
             i < |b.writes| && s' == InPhase(s, Replying(b, i + 1)).(replies := s.replies + RepliesOf(b.writes[i]))
    ensures Core(env, s') && Preserves(env, s, s') && (Settled(s) ==> Settled(s'))
  {
    hide Preserves, RepliesOk, IndexOk, OnDisk, FilesOk, Stream, Runs, Final, EndsAt, HasMark, IsLive;
    var mid := InPhase(s, s'.worker.phase);
    assert Todo(mid) == Todo(s);
    SameTodo(env, s, mid);
    OnDiskSame(env, mid, s');
    IndexSame(env, mid, s');
    FilesSame(mid, s');
    EndsSame(env, s, s', Promised(s));
    var w := s.worker.phase.batch.writes[s.worker.phase.replied];
    assert EndOk(env.codec, s.hist[s.cur], w, s.hist[s.cur].id + |CurFile(s).os|);
    PreservesSelf(env, s, s');
    RepliesStayOk(env, s, s');
  }

  lemma OnDiskSame<R(!new), S(!new)>(env: Env<R, S>, s: Sys<R, S>, s': Sys<R, S>)
    requires OnDisk(env, s) && s'.hist == s.hist && s'.disk == s.disk && s'.lo == s.lo && s'.cur == s.cur && s'.sm == s.sm
    requires s'.careful == s.careful
    ensures OnDisk(env, s')
  {
    hide Stored, ValidLog, Stream, ReplayChunks;
  }

  lemma PreservesSelf<R, S>(env: Env<R, S>, s: Sys<R, S>, s': Sys<R, S>)
    requires Placed(s) && s'.hist == s.hist && s'.disk == s.disk && s'.cur == s.cur
    ensures Preserves(env, s, s')
  {
    ExtendingStep(env, s, s');
  }

  lemma ReleaseStep<R(!new), S(!new)>(env: Env<R, S>, s: Sys<R, S>, s': Sys<R, S>)
    requires Core(env, s) && s.worker.status == Running && s.worker.phase.Replying?
    requires var b := s.worker.phase.batch; s' == InPhase(s, Finishing(b.next, b.lastSeq)).(used := s'.used)
    ensures Core(env, s') && Preserves(env, s, s') && (Settled(s) ==> Settled(s'))
  {
    hide Core, Preserves, Settled, OnDisk, Flows, FilesOk, IndexOk, RepliesOk;
    assert Todo(s') == Todo(s);
    SameTodo(env, s, s');
    InvFrom(env, s');
  }

  // The request after the batch

  lemma StoredUnlink<R(!new)>(c: Codec<R>, hist: seq<ChunkLog<R>>, lo: nat, cur: nat, disk: Disk)
    requires Lawful(c) && Chained(c, hist) && Stored(c, hist, lo, cur, disk) && lo < cur
    ensures Stored(c, hist, lo + 1, cur, disk - {hist[lo].id})
    ensures hist[lo].id < hist[cur].id
  {
    hide Stream;
    var disk' := disk - {hist[lo].id};
    IdsIncrease(c, hist, lo, cur);
    forall i | lo + 1 <= i < cur ensures IsWhole(c, hist[i], disk') {
      IdsIncrease(c, hist, lo, i);
      assert IsWhole(c, hist[i], disk);
    }
    forall k | k in disk' && k <= hist[cur].id ensures IsLive(hist, lo + 1, cur, k) {
      assert IsLive(hist, lo, cur, k);
      var i :| lo <= i <= cur && hist[i].id == k;
      assert i > lo;
    }
  }

  /** Unlinking the first of the chunks to remove. */
  lemma UnlinkRuns<R>(c: Codec<R>, hist: seq<ChunkLog<R>>, p: Pos, ids: seq<nat>, after: seq<Request<R>>)
    requires ids != [] && Runs(c, hist, p, [RemoveChunks(ids)] + after)
    ensures p.lo < p.cur < |hist| && ids[0] == hist[p.lo].id
    ensures p.careful ==> FirstIsDurable(c, hist, p.cur, p.dur, p.lo + 1)
    ensures var p' := p.(lo := p.lo + 1);
            var rest := [RemoveChunks(ids[1..])] + after;
            Runs(c, hist, p', rest) && Final(p', rest) == Final(p, [RemoveChunks(ids)] + after)
  {
    hide Stream;
    var p' := p.(lo := p.lo + 1);
    var all, rest: seq<Request<R>> := [RemoveChunks(ids)] + after, [RemoveChunks(ids[1..])] + after;
    assert all[1..] == after && rest[1..] == after;
    assert Allowed(c, hist, p', RemoveChunks(ids[1..]));
    assert Advance(p', all[0].(ids := ids[1..])) == Advance(p, all[0]);
  }

  lemma OnDiskUnlink<R(!new), S(!new)>(env: Env<R, S>, s: Sys<R, S>, s': Sys<R, S>)
    requires OnDisk(env, s) && s.lo < s.cur && s'.disk == s.disk - {s.hist[s.lo].id} && s'.lo == s.lo + 1
    requires s'.hist == s.hist && s'.cur == s.cur && s'.sm == s.sm && s'.notes == s.notes && s'.careful == s.careful
    requires s.careful ==> FirstIsDurable(env.codec, s.hist, s.cur, CurFile(s).dur, s.lo + 1)
    ensures OnDisk(env, s') && PosOf(s') == PosOf(s).(lo := s.lo + 1) && Preserves(env, s, s')
  {
    hide Stream, ReplayChunks, CheckpointFirst, Chained, FirstIsDurable;
    StoredUnlink(env.codec, s.hist, s.lo, s.cur, s.disk);
    ExtendingStep(env, s, s');
  }

  lemma FilesUnlink<R, S>(s: Sys<R, S>, s': Sys<R, S>, id: nat)
    requires FilesOk(s) && s'.disk == s.disk - {id} && id < s.hist[s.cur].id
    requires forall i | s.cur < i < |s.hist| :: id < s.hist[i].id
    requires s'.hist == s.hist && s'.cur == s.cur && s'.worker.files == s.worker.files && s'.sending == s.sending
    ensures FilesOk(s')
  {
  }

  lemma UnlinkStep<R(!new), S(!new)>(env: Env<R, S>, s: Sys<R, S>, s': Sys<R, S>)
    requires Core(env, s) && s.worker.status == Running && DoesUnlink(s, s')
    ensures Core(env, s') && Preserves(env, s, s') && (Settled(s) ==> Settled(s'))
  {
    hide Preserves, RepliesOk, IndexOk, Stream, Runs, Final, EndsAt, IsLive, Stored, FirstIsDurable, ReplayChunks, FilesOk,
    Chained, CheckpointFirst;
    var sr := s.worker.phase.next.value;
    var ids, after := sr.req.ids, Waiting(s);
    assert Todo(s) == [RemoveChunks(ids)] + after && Todo(s') == [RemoveChunks(ids[1..])] + after;
    UnlinkRuns(env.codec, s.hist, PosOf(s), ids, after);
    OnDiskUnlink(env, s, s');
    RepliesStayOk(env, s, s');
    IndexSame(env, s, s');
    UnlinkedIsBelow(env, s);
    FilesUnlink(s, s', ids[0]);
    EndsSame(env, s, s', Promised(s));
  }

  lemma UnlinkedIsBelow<R(!new), S(!new)>(env: Env<R, S>, s: Sys<R, S>)
    requires EnvOk(env) && ValidLog(env, s.hist) && s.lo < s.cur < |s.hist|
    ensures forall i | s.cur <= i < |s.hist| :: s.hist[s.lo].id < s.hist[i].id
  {
    hide Stream;
    forall i | s.cur <= i < |s.hist| ensures s.hist[s.lo].id < s.hist[i].id {
      IdsIncrease(env.codec, s.hist, s.lo, i);
    }
  }

  lemma FinishNone<R(!new), S(!new)>(env: Env<R, S>, s: Sys<R, S>, s': Sys<R, S>, n: nat)
    requires Core(env, s) && s.worker.status == Running && s' == Completed(s, n)
    requires s.worker.phase.Finishing? && s.worker.phase.next == None
    ensures Core(env, s') && Preserves(env, s, s') && (Settled(s) ==> Settled(s'))
  {
    hide Core, Preserves, Settled, OnDisk, Flows, FilesOk, IndexOk, RepliesOk;
    assert Todo(s') == Todo(s);
    SameTodo(env, s, s');
    InvFrom(env, s');
  }

  lemma NothingToRemove<R>(c: Codec<R>, hist: seq<ChunkLog<R>>, p: Pos, after: seq<Request<R>>)
    requires Runs(c, hist, p, [RemoveChunks([])] + after)
    ensures Runs(c, hist, p, after) && Final(p, after) == Final(p, [RemoveChunks([])] + after)
  {
    var all: seq<Request<R>> := [RemoveChunks([])] + after;
    assert all[1..] == after;
  }

  lemma FinishRemove<R(!new), S(!new)>(env: Env<R, S>, s: Sys<R, S>, s': Sys<R, S>, n: nat)
    requires Core(env, s) && s.worker.status == Running && s' == Completed(s, n)
    requires s.worker.phase.Finishing? && s.worker.phase.next.Some? && s.worker.phase.next.value.req == RemoveChunks([])
    ensures Core(env, s') && Preserves(env, s, s') && (Settled(s) ==> Settled(s'))
  {
    hide Preserves, RepliesOk, IndexOk, OnDisk, FilesOk, Stream, Runs, Final, EndsAt;
    SameStoreInv(env, s, s');
    IndexSame(env, s, s');
    FilesSame(s, s');
    assert Todo(s) == [RemoveChunks([])] + Todo(s');
    NothingToRemove(env.codec, s.hist, PosOf(s), Todo(s'));
    EndsSame(env, s, s', Promised(s));
  }

  // Attaching the next chunk

  /** A file up to the next chunk is that of a live chunk, or of the next one. */
  lemma AttachLive<R>(hist: seq<ChunkLog<R>>, lo: nat, cur: nat, k: nat)
    requires lo <= cur && cur + 1 < |hist| && k <= hist[cur + 1].id
    requires forall i, j | 0 <= i < j < |hist| :: hist[i].id < hist[j].id
    requires IsLive(hist, lo, cur, k) || IsLive(hist, cur, |hist| - 1, k)
    ensures IsLive(hist, lo, cur + 1, k)
  {
    if IsLive(hist, lo, cur, k) {
      var i :| lo <= i <= cur && hist[i].id == k;
      assert hist[i].id == k;
    } else {
      var i :| cur <= i <= |hist| - 1 && hist[i].id == k;
      assert hist[i].id == k;
    }
  }

  lemma StoredAttach<R(!new), S(!new)>(env: Env<R, S>, s: Sys<R, S>)
    requires OnDisk(env, s) && FilesOk(s) && s.cur + 1 < |s.hist| && IsWhole(env.codec, s.hist[s.cur], s.disk)
    ensures Stored(env.codec, s.hist, s.lo, s.cur + 1, s.disk) && s.disk[s.hist[s.cur + 1].id] == EMPTY_FILE
    ensures s.hist[s.cur].id < s.hist[s.cur + 1].id
  {
    hide Stream, ReplayChunks, CheckpointFirst, FirstIsDurable, Chained, Lawful, IsLive;
    IdsOrdered(env.codec, s.hist);
    forall k | k in s.disk && k <= s.hist[s.cur + 1].id ensures IsLive(s.hist, s.lo, s.cur + 1, k) {
      AttachLive(s.hist, s.lo, s.cur, k);
    }
  }

  lemma AttachRuns<R>(c: Codec<R>, hist: seq<ChunkLog<R>>, p: Pos, e: FileEntry<R>, noted: bool, after: seq<Request<R>>)
    requires Runs(c, hist, p, [AppendFile(e)] + after)
    ensures p.cur + 1 < |hist| && e.start == hist[p.cur + 1].id
    ensures p.have == Stream(c, hist[p.cur].recs) && p.dur == |p.have|
    ensures var p' := Pos(p.cur + 1, [], 0, noted, p.lo, p.careful);
            Runs(c, hist, p', after) && AtLeast(Final(p, [AppendFile(e)] + after), Final(p', after))
  {
    hide Stream;
    var all: seq<Request<R>> := [AppendFile(e)] + after;
    assert all[1..] == after;
    RunsAtLeast(c, hist, Advance(p, all[0]), Pos(p.cur + 1, [], 0, noted, p.lo, p.careful), after);
  }

  lemma OnDiskAttach<R(!new), S(!new)>(env: Env<R, S>, s: Sys<R, S>, s': Sys<R, S>)
    requires OnDisk(env, s) && FilesOk(s) && s.cur + 1 < |s.hist| && IsWhole(env.codec, s.hist[s.cur], s.disk)
    requires s'.hist == s.hist && s'.disk == s.disk && s'.lo == s.lo && s'.cur == s.cur + 1 && s'.sm == s.sm && s'.careful == s.careful
    ensures OnDisk(env, s') && Placed(s') && CurFile(s') == EMPTY_FILE && Preserves(env, s, s')
    ensures s.hist[s.cur].id < s'.hist[s'.cur].id
  {
    hide Stream, ReplayChunks, CheckpointFirst, IsLive;
    StoredAttach(env, s);
    assert Follows(env.codec, s.hist, s.cur + 1);
    ExtendingStep(env, s, s');
  }

  lemma FilesAttach<R(!new), S(!new)>(env: Env<R, S>, s: Sys<R, S>, s': Sys<R, S>, e: FileEntry<R>)
    requires FilesOk(s) && s.cur + 1 < |s.hist| && e.start == s.hist[s.cur + 1].id && s.hist[s.cur].id < e.start
    requires s'.hist == s.hist && s'.disk == s.disk && s'.cur == s.cur + 1 && s'.worker.files == s.worker.files + [e]
    requires s'.sending == s.sending
    ensures FilesOk(s')
  {
    forall k | k in s.disk && k > e.start && k !in Creating(s) ensures IsLive(s.hist, s.cur + 1, |s.hist| - 1, k) {
      var i :| s.cur <= i <= |s.hist| - 1 && s.hist[i].id == k;
      assert i > s.cur;
    }
  }

  lemma FinishAppend<R(!new), S(!new)>(env: Env<R, S>, s: Sys<R, S>, s': Sys<R, S>, e: FileEntry<R>, n: nat)
    requires Core(env, s) && s.worker.status == Running
    requires s.worker.phase.Finishing? && s.worker.phase.next.Some? && s.worker.phase.next.value.req == AppendFile(e)
    requires s' == Completed(s.(worker := s.worker.(files := s.worker.files + [e]), cur := s.cur + 1), n)
    ensures Core(env, s') && Preserves(env, s, s') && (Settled(s) ==> Settled(s'))
  {
    hide Preserves, RepliesOk, IndexOk, OnDisk, FilesOk, Stream, Runs, Final, EndsAt, AtLeast, Settled;
    assert Todo(s) == [AppendFile(e)] + Todo(s');
    AttachRuns(env.codec, s.hist, PosOf(s), e, false, Todo(s'));
    OnDiskAttach(env, s, s');
    AttachRuns(env.codec, s.hist, PosOf(s), e, IsNoted(s'), Todo(s'));
    RepliesStayOk(env, s, s');
    IndexSame(env, s, s');
    FilesAttach(env, s, s', e);
    assert PosOf(s') == Pos(s.cur + 1, [], 0, IsNoted(s'), s.lo, s.careful);
    FlowsAtLeast(env, s, s');
  }

  // Stopping

  lemma StopStep<R(!new), S(!new)>(env: Env<R, S>, s: Sys<R, S>, s': Sys<R, S>, status: Status, errors: seq<Reply>)
    requires Core(env, s) && status != Running && (forall i | 0 <= i < |errors| :: !errors[i].ok)
    requires s' == s.(worker := s.worker.(status := status), replies := s.replies + errors, used := 0)
    ensures Core(env, s') && Preserves(env, s, s')
  {
    hide Preserves, RepliesOk, IndexOk, OnDisk, FilesOk, Flows, BatchOk;
    InvIs(env, s);
    OnDiskSame(env, s, s');
    IndexSame(env, s, s');
    PreservesSelf(env, s, s');
    RepliesStayOk(env, s, s');
  }
}
