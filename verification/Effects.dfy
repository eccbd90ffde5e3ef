/** A request that counts as done has had its effect. */
module Effects {
  import opened Codec
  import opened Log
  import opened Requests
  import opened Backlog
  import opened CrashImages
  import opened System
  import opened Invariant
  import opened MainSteps
  import opened WorkerSteps
  import opened Durability
  import opened Completion
  import opened Notifications

  /** The global offset at which the file being written ends. */
  function WrittenEnd<R, S>(s: Sys<R, S>): nat
    requires Placed(s)
  {
    s.hist[s.cur].id + |CurFile(s).os|
  }

  ghost predicate IsPurged<R>(hist: seq<ChunkLog<R>>, lo: nat, id: nat) {
    exists j: nat | j < lo && j < |hist| :: hist[j].id == id
  }

  /** The file belongs to the chunk being written or to an older one. */
  ghost predicate IsAttached<R>(hist: seq<ChunkLog<R>>, cur: nat, id: nat) {
    exists j: nat | j <= cur && j < |hist| :: hist[j].id == id
  }

  /**
   What a request was sent for: its data is in the files, durable if it asked
   for a sync, and its callback got Ok; its file is attached; its chunks are
   removed.
   */
  ghost predicate Effect<R, S>(env: Env<R, S>, s: Sys<R, S>, req: Request<R>) {
    && Placed(s)
    && match req
       case Write(w) =>
         && w.upto <= WrittenEnd(s) && (w.sync ==> Durable(env, s, w.upto))
         && (w.callback.Some? ==> Reply(w.callback.value, w.upto, w.sync, true) in s.replies)
       case AppendFile(e) => IsAttached(s.hist, s.cur, e.start)
       case RemoveChunks(ids) => forall i | 0 <= i < |ids| :: IsPurged(s.hist, s.lo, ids[i])
  }

  // Where a request is before it is done

  ghost predicate Queued<R>(queue: seq<SeqRequest<R>>, n: nat, req: Request<R>) {
    SeqRequest(n, req) in queue
  }

  ghost predicate At<R>(b: Batch<R>, done: nat, n: nat, w: WriteReq) {
    done < n && n - done - 1 < |b.writes| && b.writes[n - done - 1] == w
  }

  ghost predicate InBatch<R, S>(s: Sys<R, S>, n: nat, w: WriteReq) {
    match s.worker.phase
    case Writing(b, _) => At(b, s.worker.done, n, w)
    case Syncing(b) => At(b, s.worker.done, n, w)
    case Replying(b, i) =>
      && At(b, s.worker.done, n, w)
      && (n - s.worker.done - 1 < i && w.callback.Some? ==> Reply(w.callback.value, w.upto, w.sync, true) in s.replies)
    case _ => false
  }

  function NextSeqRequest<R>(phase: Phase<R>): Option<SeqRequest<R>> {
    match phase
    case Idle => None
    case Writing(b, _) => b.next
    case Syncing(b) => b.next
    case Replying(b, _) => b.next
    case Finishing(next, _) => next
  }

  /** `rest` is what is left of `ids` once a first part of them is purged. */
  ghost predicate RemainsOf<R>(hist: seq<ChunkLog<R>>, lo: nat, ids: seq<nat>, rest: seq<nat>) {
    exists k: nat | k <= |ids| :: ids[k..] == rest && forall i | 0 <= i < k :: IsPurged(hist, lo, ids[i])
  }

  ghost predicate IsNext<R, S>(s: Sys<R, S>, n: nat, req: Request<R>) {
    var next := NextSeqRequest(s.worker.phase);
    && next.Some? && next.value.seqNo == n && !req.Write?
    && (if req.AppendFile? then next.value.req == req
        else next.value.req.RemoveChunks? && RemainsOf(s.hist, s.lo, req.ids, next.value.req.ids))
  }

  ghost predicate InHand<R, S>(env: Env<R, S>, s: Sys<R, S>, n: nat, req: Request<R>) {
    || Queued(s.queue, n, req)
    || (req.Write? && InBatch(s, n, req.write))
    || IsNext(s, n, req)
    || (s.worker.phase.Finishing? && n <= s.worker.phase.lastSeq && Effect(env, s, req))
  }

  /** Either the request is done and has had its effect, or a running worker still has it ahead. */
  ghost predicate Tracks<R, S>(env: Env<R, S>, s: Sys<R, S>, n: nat, req: Request<R>) {
    && (s.worker.done >= n ==> Effect(env, s, req))
    && (s.worker.status == Running && s.worker.done < n ==> InHand(env, s, n, req))
  }

  // Effects last

  ghost predicate MovesOn<R, S>(s: Sys<R, S>, s': Sys<R, S>) {
    && Onward(s, s') && s.replies <= s'.replies
    && Placed(s) && Placed(s') && WrittenEnd(s) <= WrittenEnd(s')
  }

  lemma PurgedStays<R, S>(s: Sys<R, S>, s': Sys<R, S>, id: nat)
    requires Onward(s, s')
    ensures IsPurged(s.hist, s.lo, id) ==> IsPurged(s'.hist, s'.lo, id)
    ensures IsAttached(s.hist, s.cur, id) ==> IsAttached(s'.hist, s'.cur, id)
  {
    if s'.hist != s.hist {
      ExtendsIds(s.hist, s'.hist);
    }
    if IsPurged(s.hist, s.lo, id) {
      var j: nat :| j < s.lo && j < |s.hist| && s.hist[j].id == id;
      assert s'.hist[j].id == id;
    }
    if IsAttached(s.hist, s.cur, id) {
      var j: nat :| j <= s.cur && j < |s.hist| && s.hist[j].id == id;
      assert s'.hist[j].id == id;
    }
  }

  lemma EffectStays<R(!new), S(!new)>(env: Env<R, S>, s: Sys<R, S>, s': Sys<R, S>, req: Request<R>)
    requires Effect(env, s, req) && MovesOn(s, s') && Preserves(env, s, s')
    ensures Effect(env, s', req)
  {
    hide Onward, Keeps, IsPurged, IsAttached, WrittenEnd;
    match req
    case Write(w) =>
      if w.sync {
        PreservedDurable(env, s, s', w.upto);
      }
    case AppendFile(e) => PurgedStays(s, s', e.start);
    case RemoveChunks(ids) =>
      forall i | 0 <= i < |ids| ensures IsPurged(s'.hist, s'.lo, ids[i]) {
        PurgedStays(s, s', ids[i]);
      }
  }

  lemma PreservedDurable<R(!new), S(!new)>(env: Env<R, S>, s: Sys<R, S>, s': Sys<R, S>, u: nat)
    requires Durable(env, s, u) && Preserves(env, s, s')
    ensures Durable(env, s', u)
  {
  }

  lemma RemainsStays<R, S>(s: Sys<R, S>, s': Sys<R, S>, ids: seq<nat>, rest: seq<nat>)
    requires Onward(s, s') && RemainsOf(s.hist, s.lo, ids, rest)
    ensures RemainsOf(s'.hist, s'.lo, ids, rest)
  {
    hide Onward, IsPurged;
    var k: nat :| k <= |ids| && ids[k..] == rest && forall i | 0 <= i < k :: IsPurged(s.hist, s.lo, ids[i]);
    forall i | 0 <= i < k ensures IsPurged(s'.hist, s'.lo, ids[i]) {
      PurgedStays(s, s', ids[i]);
    }
  }

  lemma MainMovesOn<R(!new), S(!new)>(env: Env<R, S>, s: Sys<R, S>, step: Step<R>, s': Sys<R, S>)
    requires Inv(env, s) && Inv(env, s') && Placed(s) && MainStep(env, s, step, s')
    ensures MovesOn(s, s') && s'.worker == s.worker && s.queue <= s'.queue
  {
    hide Inv, MainStep;
    MainOnward(env, s, step, s');
    MainFrame(env, s, step, s');
    InvPlaced(env, s');
    OnwardId(s, s');
    MainQueue(env, s, step, s');
  }

  lemma OnwardId<R, S>(s: Sys<R, S>, s': Sys<R, S>)
    requires Onward(s, s') && Placed(s)
    ensures s.cur < |s'.hist| && s'.hist[s.cur].id == s.hist[s.cur].id
  {
    if s'.hist != s.hist {
      ExtendsIds(s.hist, s'.hist);
    }
  }

  lemma MainQueue<R(!new), S(!new)>(env: Env<R, S>, s: Sys<R, S>, step: Step<R>, s': Sys<R, S>)
    requires Placed(s) && MainStep(env, s, step, s')
    ensures s.queue <= s'.queue
  {
    hide Settled, IsFull, Appended, WithChunk, WithRecord, IdsFrom, Rotated, FirstIsDurable, Promised, PendingWrite;
  }

  lemma AttachMovesOn<R(!new), S(!new)>(env: Env<R, S>, s: Sys<R, S>, s': Sys<R, S>)
    requires Inv(env, s) && Inv(env, s') && Placed(s) && s.worker.status == Running && DoesFinish(s, s')
    ensures MovesOn(s, s')
  {
    hide Inv, IsWhole, IsNoted, Stream, End;
    FinishShape(s, s');
    InvPlaced(env, s');
    if s'.cur != s.cur {
      AttachedAfterNote(env, s, s');
      WholeEnd(env, s);
    }
    FinishFrame(s, s');
  }

  lemma WholeEnd<R(!new), S(!new)>(env: Env<R, S>, s: Sys<R, S>)
    requires Placed(s) && IsWhole(env.codec, s.hist[s.cur], s.disk)
    ensures WrittenEnd(s) == End(env.codec, s.hist[s.cur])
  {
  }

  lemma WorkerMovesOn<R(!new), S(!new)>(env: Env<R, S>, s: Sys<R, S>, step: Step<R>, s': Sys<R, S>)
    requires Inv(env, s) && Inv(env, s') && Placed(s) && WorkerStep(s, step, s')
    ensures MovesOn(s, s')
  {
    hide Inv, Data, NeedsSync, BatchEnd, DoesTakeWrites, DoesFinish, RepliesOf;
    InvPlaced(env, s');
    match step
    case TakeWrites(n, withNext) => TakeQuiet(s, n, withNext, s'); TakeFrame(s, n, withNext, s'); TakeReplies(s, n, withNext, s');
    case Finish => AttachMovesOn(env, s, s');
    case _ =>
  }

  lemma TakeReplies<R, S>(s: Sys<R, S>, n: nat, withNext: bool, s': Sys<R, S>)
    requires DoesTakeWrites(s, n, withNext, s')
    ensures s'.replies == s.replies && s'.hist == s.hist
  {
    hide Data;
  }

  // The steps of the worker

  lemma TakeHand<R(!new), S(!new)>(env: Env<R, S>, s: Sys<R, S>, k: nat, withNext: bool, s': Sys<R, S>, n: nat, req: Request<R>)
    requires SeqsOk(s) && s.worker.status == Running && DoesTakeWrites(s, k, withNext, s')
    requires InHand(env, s, n, req) && s.worker.done < n
    ensures InHand(env, s', n, req)
  {
    hide Data, Effect, IsPurged;
    var q :| 0 <= q < |s.queue| && s.queue[q] == SeqRequest(n, req);
    assert n == s.worker.done + 1 + q;
    if q < k {
      assert At(s'.worker.phase.batch, s.worker.done, n, req.write);
    } else if withNext && q == k {
      NothingRemoved(s, req);
    } else {
      assert s'.queue[q - (if withNext then k + 1 else k)] == SeqRequest(n, req);
    }
  }

  lemma NothingRemoved<R, S>(s: Sys<R, S>, req: Request<R>)
    ensures req.RemoveChunks? ==> RemainsOf(s.hist, s.lo, req.ids, req.ids)
  {
    hide IsPurged;
    if req.RemoveChunks? {
      assert req.ids[0..] == req.ids;
    }
  }

  lemma TakeOtherHand<R(!new), S(!new)>(env: Env<R, S>, s: Sys<R, S>, s': Sys<R, S>, n: nat, req: Request<R>)
    requires SeqsOk(s) && s.worker.status == Running && s.worker.phase == Idle && s.queue != [] && !s.queue[0].req.Write?
    requires s' == InPhase(s, Finishing(Some(s.queue[0]), 0)).(queue := s.queue[1..])
    requires InHand(env, s, n, req) && s.worker.done < n
    ensures InHand(env, s', n, req)
  {
    hide Effect, IsPurged, SeqsOk;
    var q :| 0 <= q < |s.queue| && s.queue[q] == SeqRequest(n, req);
    if q == 0 {
      NothingRemoved(s, req);
    } else {
      assert s'.queue[q - 1] == SeqRequest(n, req);
    }
  }

  /** Writing and syncing a batch keeps its requests in hand. */
  lemma BatchHand<R(!new), S(!new)>(env: Env<R, S>, s: Sys<R, S>, step: Step<R>, s': Sys<R, S>, n: nat, req: Request<R>)
    requires Placed(s) && WorkerStep(s, step, s') && (step.WriteSome? || step.WriteDone? || step.SyncOlder? || step.SyncLast?)
    requires InHand(env, s, n, req)
    ensures InHand(env, s', n, req)
  {
    hide Data, NeedsSync, Grown, Synced, BatchEnd, Effect, At, RemainsOf;
    if s'.worker.phase.Replying? && req.Write? && At(s'.worker.phase.batch, s'.worker.done, n, req.write) {
      FreshReply(s', n, req);
    }
  }

  lemma FreshReply<R, S>(s: Sys<R, S>, n: nat, req: Request<R>)
    requires s.worker.phase.Replying? && s.worker.phase.replied == 0 && req.Write?
    requires At(s.worker.phase.batch, s.worker.done, n, req.write)
    ensures InBatch(s, n, req.write)
  {
  }

  lemma ReplyHand<R, S>(env: Env<R, S>, s: Sys<R, S>, s': Sys<R, S>, n: nat, req: Request<R>)
    requires s.worker.phase.Replying?
    requires var (b, i) := (s.worker.phase.batch, s.worker.phase.replied);
             i < |b.writes| && s' == InPhase(s, Replying(b, i + 1)).(replies := s.replies + RepliesOf(b.writes[i]))
    requires InHand(env, s, n, req)
    ensures InHand(env, s', n, req)
  {
    hide Effect, RemainsOf;
    if req.Write? && InBatch(s, n, req.write) && req.write.callback.Some? {
      var r := Reply(req.write.callback.value, req.write.upto, req.write.sync, true);
      if n - s.worker.done - 1 == s.worker.phase.replied {
        assert RepliesOf(req.write) == [r];
        assert s'.replies[|s.replies|] == r;
      }
    }
  }

  /** Every write of a batch that was written, synced if need be and answered has had its effect. */
  lemma BatchEffect<R(!new), S(!new)>(env: Env<R, S>, s: Sys<R, S>, n: nat, w: WriteReq)
    requires Placed(s) && BatchOk(env, s) && s.worker.phase.Replying? && s.worker.phase.replied == |s.worker.phase.batch.writes|
    requires InBatch(s, n, w)
    ensures Effect(env, s, Write(w))
  {
    hide HasMark;
    var b, k := s.worker.phase.batch, n - s.worker.done - 1;
    assert EndOk(env.codec, s.hist[s.cur], b.writes[k], s.hist[s.cur].id + |CurFile(s).os|);
    if w.sync {
      assert b.writes[k].sync;
      assert NeedsSync(b.writes);
    }
  }

  lemma ReleaseHand<R(!new), S(!new)>(env: Env<R, S>, s: Sys<R, S>, s': Sys<R, S>, n: nat, req: Request<R>)
    requires Placed(s) && BatchOk(env, s) && SeqsOk(s) && s.worker.status == Running && s.worker.phase.Replying?
    requires s.worker.phase.replied == |s.worker.phase.batch.writes|
    requires var b := s.worker.phase.batch; s' == InPhase(s, Finishing(b.next, b.lastSeq)).(used := s'.used)
    requires InHand(env, s, n, req)
    ensures InHand(env, s', n, req)
  {
    hide BatchOk, RemainsOf, IsPurged, IsAttached, NeedsSync, OnMark;
    if req.Write? && InBatch(s, n, req.write) {
      BatchEffect(env, s, n, req.write);
      SameEffect(env, s, s', req);
    }
  }

  lemma SameEffect<R, S>(env: Env<R, S>, s: Sys<R, S>, s': Sys<R, S>, req: Request<R>)
    requires Effect(env, s, req) && s'.hist == s.hist && s'.disk == s.disk && s'.cur == s.cur && s'.lo == s.lo
    requires s'.replies == s.replies
    ensures Effect(env, s', req)
  {
    hide OnMark, IsPurged, IsAttached;
  }

  lemma UnlinkHand<R(!new), S(!new)>(env: Env<R, S>, s: Sys<R, S>, s': Sys<R, S>, n: nat, req: Request<R>)
    requires Inv(env, s) && s.worker.status == Running && DoesUnlink(s, s') && MovesOn(s, s') && Preserves(env, s, s')
    requires InHand(env, s, n, req)
    ensures InHand(env, s', n, req)
  {
    hide Inv, Effect, RemainsOf, MovesOn, Preserves, Onward;
    if Queued(s.queue, n, req) {
    } else if IsNext(s, n, req) {
      var rest := s.worker.phase.next.value.req.ids;
      UnlinkFirst(env, s);
      UnlinkRemains(s, s', req.ids, rest);
    } else {
      EffectStays(env, s, s', req);
    }
  }

  lemma UnlinkFirst<R(!new), S(!new)>(env: Env<R, S>, s: Sys<R, S>)
    requires Inv(env, s) && s.worker.status == Running && s.worker.phase.Finishing? && s.worker.phase.next.Some?
    requires s.worker.phase.next.value.req.RemoveChunks? && s.worker.phase.next.value.req.ids != []
    ensures s.lo < |s.hist| && s.worker.phase.next.value.req.ids[0] == s.hist[s.lo].id
  {
    hide OnDisk, IndexOk, RepliesOk, FilesOk, BatchOk, EndsAt, SendOk, Stream, FirstIsDurable;
    var ids := s.worker.phase.next.value.req.ids;
    assert Todo(s) == [RemoveChunks(ids)] + Waiting(s);
    UnlinkRuns(env.codec, s.hist, PosOf(s), ids, Waiting(s));
  }

  lemma UnlinkRemains<R, S>(s: Sys<R, S>, s': Sys<R, S>, ids: seq<nat>, rest: seq<nat>)
    requires RemainsOf(s.hist, s.lo, ids, rest) && rest != [] && s.lo < |s.hist| && rest[0] == s.hist[s.lo].id
    requires s'.hist == s.hist && s'.lo == s.lo + 1
    ensures RemainsOf(s'.hist, s'.lo, ids, rest[1..])
  {
    var k: nat :| k <= |ids| && ids[k..] == rest && forall i | 0 <= i < k :: IsPurged(s.hist, s.lo, ids[i]);
    assert ids[k] == rest[0] && ids[k + 1..] == rest[1..];
    forall i | 0 <= i < k + 1 ensures IsPurged(s'.hist, s'.lo, ids[i]) {
      if i == k {
        assert s'.hist[s.lo].id == ids[k];
      } else {
        assert IsPurged(s.hist, s.lo, ids[i]);
        PurgedMore(s.hist, s.lo, ids[i]);
      }
    }
  }

  lemma PurgedMore<R>(hist: seq<ChunkLog<R>>, lo: nat, id: nat)
    requires IsPurged(hist, lo, id)
    ensures IsPurged(hist, lo + 1, id)
  {
    var j: nat :| j < lo && j < |hist| && hist[j].id == id;
    assert hist[j].id == id;
  }

  /** With the last of its requests handled, everything taken has had its effect. */
  lemma FinishHand<R(!new), S(!new)>(env: Env<R, S>, s: Sys<R, S>, s': Sys<R, S>, n: nat, req: Request<R>)
    requires Inv(env, s) && SeqsOk(s) && Placed(s) && s.worker.status == Running && DoesFinish(s, s')
    requires MovesOn(s, s') && Preserves(env, s, s') && InHand(env, s, n, req)
    ensures Tracks(env, s', n, req)
  {
    hide Inv, Effect, RemainsOf, MovesOn, Preserves;
    FinishSeqs(s, s');
    FinishFrame(s, s');
    if Queued(s.queue, n, req) {
      QueuedBeyond(s, n, req);
    } else if IsNext(s, n, req) {
      NextHasEffect(env, s, s', n, req);
      NextIsTaken(s, n, req);
    } else {
      EffectStays(env, s, s', req);
      LastIsTaken(s);
    }
  }

  lemma LastIsTaken<R, S>(s: Sys<R, S>)
    requires SeqsOk(s) && s.worker.status == Running && s.worker.phase.Finishing?
    ensures s.worker.phase.lastSeq <= Taken(s)
  {
  }

  lemma NextIsTaken<R, S>(s: Sys<R, S>, n: nat, req: Request<R>)
    requires SeqsOk(s) && s.worker.status == Running && IsNext(s, n, req)
    ensures n == Taken(s)
  {
  }

  lemma QueuedBeyond<R, S>(s: Sys<R, S>, n: nat, req: Request<R>)
    requires SeqsOk(s) && s.worker.status == Running && Queued(s.queue, n, req)
    ensures n > Taken(s)
  {
    hide PhaseSeqs;
    var q :| 0 <= q < |s.queue| && s.queue[q] == SeqRequest(n, req);
  }

  lemma NextHasEffect<R(!new), S(!new)>(env: Env<R, S>, s: Sys<R, S>, s': Sys<R, S>, n: nat, req: Request<R>)
    requires Inv(env, s) && Placed(s) && s.worker.status == Running && DoesFinish(s, s') && IsNext(s, n, req)
    requires MovesOn(s, s')
    ensures Effect(env, s', req)
  {
    hide Inv, Onward, IsPurged;
    if req.AppendFile? {
      FinishAttached(env, s, s', req.entry);
    } else {
      var k: nat :| k <= |req.ids| && req.ids[k..] == [] && forall i | 0 <= i < k :: IsPurged(s.hist, s.lo, req.ids[i]);
      assert k == |req.ids|;
      forall i | 0 <= i < |req.ids| ensures IsPurged(s'.hist, s'.lo, req.ids[i]) {
        PurgedStays(s, s', req.ids[i]);
      }
    }
  }

  lemma FinishAttached<R(!new), S(!new)>(env: Env<R, S>, s: Sys<R, S>, s': Sys<R, S>, e: FileEntry<R>)
    requires Inv(env, s) && Placed(s) && s.worker.status == Running && DoesFinish(s, s')
    requires s.worker.phase.next.Some? && s.worker.phase.next.value.req == AppendFile(e)
    ensures IsAttached(s'.hist, s'.cur, e.start)
  {
    hide OnDisk, IndexOk, RepliesOk, FilesOk, BatchOk, EndsAt, SendOk, Stream;
    assert Todo(s) == [AppendFile(e)] + Waiting(s);
    AttachRuns(env.codec, s.hist, PosOf(s), e, false, Waiting(s));
    assert s'.hist[s'.cur].id == e.start;
  }

  // Tracking a request along a run

  lemma WorkerTracks<R(!new), S(!new)>(
    env: Env<R, S>, s: Sys<R, S>, step: Step<R>, s': Sys<R, S>, n: nat, req: Request<R>)
    requires Inv(env, s) && Inv(env, s') && SeqsOk(s) && Placed(s) && WorkerStep(s, step, s') && Preserves(env, s, s')
    requires Tracks(env, s, n, req)
    ensures Tracks(env, s', n, req)
  {
    hide Inv, SeqsOk, Preserves, MovesOn, Effect, InHand, WorkerStep;
    WorkerMovesOn(env, s, step, s');
    WorkerFrame(s, step, s');
    if s.worker.done >= n {
      EffectStays(env, s, s', req);
      WorkerSeqs(s, step, s');
    } else if s.worker.status == Running {
      HandStep(env, s, step, s', n, req);
    } else {
      StoppedDone(s, step, s');
    }
  }

  lemma StoppedDone<R, S>(s: Sys<R, S>, step: Step<R>, s': Sys<R, S>)
    requires Placed(s) && s.worker.status != Running && WorkerStep(s, step, s')
    ensures s'.worker.done == s.worker.done && s'.worker.status == s.worker.status
  {
  }

  lemma HandStep<R(!new), S(!new)>(
    env: Env<R, S>, s: Sys<R, S>, step: Step<R>, s': Sys<R, S>, n: nat, req: Request<R>)
    requires Inv(env, s) && SeqsOk(s) && Placed(s) && WorkerStep(s, step, s') && Preserves(env, s, s') && MovesOn(s, s')
    requires s.worker.status == Running && s.worker.done < n && InHand(env, s, n, req)
    ensures Tracks(env, s', n, req)
  {
    hide Inv, SeqsOk, Preserves, MovesOn, Effect, InHand, DoesTakeWrites, DoesFinish, DoesUnlink, Data, NeedsSync, Grown,
    Synced, BatchEnd, RepliesOf, BatchOk;
    match step
    case TakeWrites(k, withNext) => TakeHand(env, s, k, withNext, s', n, req); TakeKeepsDone(s, k, withNext, s');
    case TakeOther => TakeOtherHand(env, s, s', n, req);
    case WriteSome(_) => BatchHand(env, s, step, s', n, req);
    case WriteDone => BatchHand(env, s, step, s', n, req);
    case SyncOlder => BatchHand(env, s, step, s', n, req);
    case SyncLast => BatchHand(env, s, step, s', n, req);
    case ReplyOne => ReplyHand(env, s, s', n, req);
    case Release => InvBatch(env, s); ReleaseHand(env, s, s', n, req);
    case Unlink => UnlinkHand(env, s, s', n, req); UnlinkSeqs(s, s');
    case Finish => FinishHand(env, s, s', n, req);
    case _ =>
  }

  lemma InvBatch<R(!new), S(!new)>(env: Env<R, S>, s: Sys<R, S>)
    requires Inv(env, s) && s.worker.status == Running
    ensures Placed(s) && BatchOk(env, s)
  {
  }

  lemma MainTracks<R(!new), S(!new)>(
    env: Env<R, S>, s: Sys<R, S>, step: Step<R>, s': Sys<R, S>, n: nat, req: Request<R>)
    requires Inv(env, s) && Inv(env, s') && Placed(s) && MainStep(env, s, step, s') && Preserves(env, s, s')
    requires Tracks(env, s, n, req)
    ensures Tracks(env, s', n, req)
  {
    hide Inv, Preserves, MovesOn, Effect, MainStep, InBatch, RemainsOf;
    MainMovesOn(env, s, step, s');
    MovedOnward(s, s');
    if Effect(env, s, req) {
      EffectStays(env, s, s', req);
    }
    if s.worker.status == Running && s.worker.done < n {
      if Queued(s.queue, n, req) {
        QueueGrew(s.queue, s'.queue, n, req);
      } else if IsNext(s, n, req) && req.RemoveChunks? {
        RemainsStays(s, s', req.ids, NextSeqRequest(s.worker.phase).value.req.ids);
      } else if req.Write? && InBatch(s, n, req.write) {
        BatchStays(s, s', n, req.write);
      }
    }
  }

  lemma MovedOnward<R, S>(s: Sys<R, S>, s': Sys<R, S>)
    requires MovesOn(s, s')
    ensures Onward(s, s') && s.replies <= s'.replies
  {
  }

  lemma QueueGrew<R>(queue: seq<SeqRequest<R>>, queue': seq<SeqRequest<R>>, n: nat, req: Request<R>)
    requires queue <= queue' && Queued(queue, n, req)
    ensures Queued(queue', n, req)
  {
    var q :| 0 <= q < |queue| && queue[q] == SeqRequest(n, req);
    assert queue'[q] == SeqRequest(n, req);
  }

  lemma BatchStays<R, S>(s: Sys<R, S>, s': Sys<R, S>, n: nat, w: WriteReq)
    requires InBatch(s, n, w) && s'.worker == s.worker && s.replies <= s'.replies
    ensures InBatch(s', n, w)
  {
  }

  lemma {:induction false} TracksAlong<R(!new), S(!new)>(
    env: Env<R, S>, run: seq<Sys<R, S>>, i: nat, j: nat, n: nat, req: Request<R>)
    requires EnvOk(env) && IsRun(env, run) && i <= j < |run|
    requires SeqRequest(n, req) in run[i].queue
    requires forall m | i <= m < j :: NoCrash(env, run[m], run[m + 1])
    ensures Tracks(env, run[j], n, req)
    decreases j
  {
    hide EnvOk, Init, Next, Inv, SeqsOk, Tracks, NoCrash;
    if i == j {
      SeqsAlways(env, run, i);
      QueuedIsTracked(env, run[i], n, req);
    } else {
      TracksAlong(env, run, i, j - 1, n, req);
      assert NoCrash(env, run[j - 1], run[j - 1 + 1]);
      EveryStateIsOk(env, run, j - 1);
      SeqsAlways(env, run, j - 1);
      TracksStep(env, run[j - 1], run[j], n, req);
    }
  }

  lemma TracksStep<R(!new), S(!new)>(env: Env<R, S>, s: Sys<R, S>, s': Sys<R, S>, n: nat, req: Request<R>)
    requires Inv(env, s) && SeqsOk(s) && NoCrash(env, s, s') && Tracks(env, s, n, req)
    ensures Tracks(env, s', n, req)
  {
    hide Inv, SeqsOk, Preserves, Tracks, MainStep, WorkerStep;
    var step :| Next(env, s, step, s') && !step.Restart?;
    NextKeeps(env, s, step, s');
    if MainStep(env, s, step, s') {
      MainTracks(env, s, step, s', n, req);
    } else {
      WorkerTracks(env, s, step, s', n, req);
    }
  }

  lemma QueuedIsTracked<R, S>(env: Env<R, S>, s: Sys<R, S>, n: nat, req: Request<R>)
    requires SeqsOk(s) && SeqRequest(n, req) in s.queue
    ensures Tracks(env, s, n, req)
  {
    hide PhaseSeqs, Effect;
  }

  /** A purged chunk has no file. */
  lemma PurgedIsGone<R(!new), S(!new)>(env: Env<R, S>, s: Sys<R, S>, id: nat)
    requires OnDisk(env, s) && IsPurged(s.hist, s.lo, id)
    ensures id !in s.disk
  {
    hide Stream, ReplayChunks, CheckpointFirst, Chained;
    OnDiskValid(env, s);
    IdsOrdered(env.codec, s.hist);
    var j: nat :| j < s.lo && j < |s.hist| && s.hist[j].id == id;
    forall i | s.lo <= i <= s.cur < |s.hist| ensures s.hist[i].id > id {
      assert s.hist[j].id < s.hist[i].id;
    }
  }

  /**
   Done means succeeded: once the worker reports number `n` as done, the
   request with that number has had its effect, and keeps it until a crash.
   Its data is in the files, durable if it asked for a sync, its callback got
   Ok, its file is attached, its chunks are gone.
   */
  lemma DoneMeansSucceeded<R(!new), S(!new)>(
    env: Env<R, S>, run: seq<Sys<R, S>>, i: nat, j: nat, n: nat, req: Request<R>)
    requires EnvOk(env) && IsRun(env, run) && i <= j < |run|
    requires SeqRequest(n, req) in run[i].queue
    requires forall m | i <= m < j :: NoCrash(env, run[m], run[m + 1])
    requires run[j].worker.done >= n
    ensures Effect(env, run[j], req)
    ensures req.RemoveChunks? ==> forall k | 0 <= k < |req.ids| :: req.ids[k] !in run[j].disk
  {
    hide EnvOk, Init, Next, OnDisk, IndexOk, RepliesOk, Flows, FilesOk, BatchOk, IsPurged, InHand, NoCrash;
    TracksAlong(env, run, i, j, n, req);
    EveryStateIsOk(env, run, j);
    if req.RemoveChunks? {
      forall k | 0 <= k < |req.ids| ensures req.ids[k] !in run[j].disk {
        PurgedIsGone(env, run[j], req.ids[k]);
      }
    }
  }
}
