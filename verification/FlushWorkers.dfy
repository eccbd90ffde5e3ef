/** The worker's loop: collecting batches, writing and syncing them, and handling what ends them. */
module FlushWorkers {
  import opened Bytes
  import opened Log
  import opened Requests
  import opened CrashImages
  import opened System
  import opened GroupCommit
  import opened VectoredWrites

  // Batches

  /** The number of one of the first `k` requests, if it is a number at all. */
  ghost predicate IsNumberIn<R>(queue: seq<SeqRequest<R>>, k: nat, n: nat) {
    n == 0 || exists i | 0 <= i < k && i < |queue| :: queue[i].seqNo == n
  }

  /** `done` is the highest of the first `at` numbers, or it is still `was`. */
  ghost predicate IsDoneUpto<R>(queue: seq<SeqRequest<R>>, at: nat, was: nat, done: nat) {
    && done >= was && (done == was || IsNumberIn(queue, at, done))
    && forall i | 0 <= i < at && i < |queue| :: queue[i].seqNo <= done
  }

  /** The writes collected so far, and the request of another kind that ended the collection. */
  class WriteBatch<R> {
    var writes: seq<WriteReq>
    var maxSeq: nat
    var lastNonFlush: Option<SeqRequest<R>>
    const maxSize: nat

    constructor (maxSize: nat)
      ensures this.maxSize == maxSize && writes == [] && maxSeq == 0 && lastNonFlush == None
    {
      this.maxSize := maxSize;
      writes := [];
      maxSeq := 0;
      lastNonFlush := None;
    }

    method Reset()
      modifies this
      ensures writes == [] && maxSeq == 0 && lastNonFlush == None
    {
      writes := [];
      maxSeq := 0;
      lastNonFlush := None;
    }

    /** Adds a write, or keeps another request as the end of the batch. */
    method PushSeqRequest(sr: SeqRequest<R>) returns (more: bool)
      modifies this
      ensures more <==> sr.req.Write?
      ensures more ==> writes == old(writes) + [sr.req.write] && maxSeq == Max(old(maxSeq), sr.seqNo)
                       && lastNonFlush == old(lastNonFlush)
      ensures !more ==> writes == old(writes) && maxSeq == old(maxSeq) && lastNonFlush == Some(sr)
    {
      if sr.req.Write? {
        maxSeq := Max(maxSeq, sr.seqNo);
        writes := writes + [sr.req.write];
        return true;
      }
      lastNonFlush := Some(sr);
      return false;
    }

    ghost function AsGroup(): Group<R>
      reads this
    {
      Group(writes, if lastNonFlush.Some? then Some(lastNonFlush.value.req) else None)
    }

    /** The requests of the batch are the first `k` of `queue`, and their numbers were seen. */
    ghost predicate TookFrom(queue: seq<SeqRequest<R>>, k: nat)
      reads this
    {
      && k <= |queue| && LegalGroup(AsGroup())
      && GroupRequests(AsGroup()) == Reqs(queue[..k])
      && (forall i | 0 <= i < k :: queue[i].seqNo <= LastSeq())
      && IsNumberIn(queue, k, LastSeq())
    }

    /** The number of the last request of the batch. */
    function LastSeq(): nat
      reads this
    {
      if lastNonFlush.Some? then Max(maxSeq, lastNonFlush.value.seqNo) else maxSeq
    }
  }

  lemma TookWrite<R>(writes: seq<WriteReq>, queue: seq<SeqRequest<R>>, k: nat)
    requires k < |queue| && AsRequests<R>(writes) == Reqs(queue[..k]) && queue[k].req.Write?
    ensures AsRequests<R>(writes + [queue[k].req.write]) == Reqs(queue[..k + 1])
  {
    assert queue[..k + 1] == queue[..k] + [queue[k]];
    assert |writes| == k;
  }

  lemma TookOther<R>(writes: seq<WriteReq>, queue: seq<SeqRequest<R>>, k: nat)
    requires k < |queue| && AsRequests<R>(writes) == Reqs(queue[..k])
    ensures AsRequests<R>(writes) + [queue[k].req] == Reqs(queue[..k + 1])
  {
    assert queue[..k + 1] == queue[..k] + [queue[k]];
  }

  /**
   Collects a batch from the front of the queue. `ready` is how many requests
   arrive before the deadline. A batch is never empty, holds at most
   `maxSize` writes, and stops at the first request of another kind; it stops
   earlier only when it is full or nothing more has arrived.
   */
  method CollectBatch<R>(batch: WriteBatch<R>, queue: seq<SeqRequest<R>>, ready: nat) returns (k: nat)
    requires queue != []
    modifies batch
    ensures 0 < k <= |queue| && batch.TookFrom(queue, k)
    ensures |batch.writes| <= 1 || |batch.writes| <= batch.maxSize
    ensures k <= 1 + ready
    ensures batch.lastNonFlush.Some? || |batch.writes| >= batch.maxSize || k == |queue| || k == 1 + ready
  {
    batch.Reset();
    var more := batch.PushSeqRequest(queue[0]);
    k := 1;
    assert queue[..0] == [] && AsRequests<R>([]) == Reqs(queue[..0]);
    if !more {
      TookOther([], queue, 0);
      return;
    }
    TookWrite([], queue, 0);
    assert [] + [queue[0].req.write] == [queue[0].req.write];
    while batch.lastNonFlush == None && |batch.writes| < batch.maxSize && k < |queue| && k <= ready
      invariant 0 < k <= |queue| && k <= 1 + ready
      invariant batch.lastNonFlush == None && AsRequests<R>(batch.writes) == Reqs(queue[..k])
      invariant (forall i | 0 <= i < k :: queue[i].seqNo <= batch.maxSeq) && IsNumberIn(queue, k, batch.maxSeq)
      invariant |batch.writes| <= 1 || |batch.writes| <= batch.maxSize
      decreases |queue| - k
    {
      if queue[k].req.Write? {
        TookWrite(batch.writes, queue, k);
      } else {
        TookOther(batch.writes, queue, k);
      }
      more := batch.PushSeqRequest(queue[k]);
      k := k + 1;
      if !more {
        return;
      }
    }
  }

  // Handling

  lemma ErrorsAdd(a: seq<Reply>, b: seq<Reply>)
    ensures AsErrors(a + b) == AsErrors(a) + AsErrors(b)
  {
  }

  /** What a step that failed may have done to the files: `last` grew by at most `data`, and nothing durable is lost. */
  ghost predicate Partly(disk: Disk, last: Option<nat>, data: seq<Byte>, disk': Disk) {
    && disk'.Keys == disk.Keys
    && forall k | k in disk ::
         && disk[k].os <= disk'[k].os <= disk[k].os + (if last == Some(k) then data else [])
         && disk[k].dur <= disk'[k].dur
  }

  /** The first `n` syncs succeed. */
  predicate SyncsGoWell(outcomes: seq<bool>, n: nat) {
    forall i | 0 <= i < n && i < |outcomes| :: outcomes[i]
  }

  /** Writing and, if asked for, syncing succeed. */
  predicate WritesGoWell(writes: seq<WriteReq>, plan: seq<Outcome>, syncs: seq<bool>, n: nat) {
    AfterGroups(plan, writes).Some? && (NeedsSync(writes) ==> SyncsGoWell(syncs, n))
  }

  /** A turn whose writes are synced. */
  predicate TurnSyncs<R>(g: Group<R>, plan: seq<Outcome>, syncs: seq<bool>, n: nat) {
    g.writes != [] && NeedsSync(g.writes) && WritesGoWell(g.writes, plan, syncs, n)
  }

  /** Nothing in a turn fails: the writes, the syncs, or a removal. */
  ghost predicate TurnGoesWell<R>(st: Store<R>, g: Group<R>, plan: seq<Outcome>, syncs: seq<bool>, dirSynced: bool) {
    && (g.writes != [] ==> WritesGoWell(g.writes, plan, syncs, |st.files|))
    && (g.next.Some? && g.next.value.RemoveChunks? ==>
          var mid := if g.writes == [] then st else HandleWrites(st, g.writes);
          CanRemove(mid.disk, g.next.value.ids) && (g.next.value.ids == [] || dirSynced))
  }

  /** The bytes of all the writes among some requests. */
  function BytesOf<R>(reqs: seq<Request<R>>): nat {
    if reqs == [] then 0 else BytesOf(reqs[..|reqs| - 1]) + SizeOf(reqs[|reqs| - 1])
  }

  /**
   A healthy system: no write fails and the schedules are long enough, no sync
   fails, and each file to be removed is there when its turn comes.
   */
  ghost predicate AllGoesWell<R>(
    st: Store<R>, reqs: seq<Request<R>>, plans: nat -> seq<Outcome>, syncs: nat -> seq<bool>, dirs: nat -> bool)
  {
    && (forall at: nat :: !CanFail(plans(at)) && Moves(plans(at)) >= BytesOf(reqs))
    && (forall at: nat, i: nat | i < |syncs(at)| :: syncs(at)[i])
    && (forall at: nat :: dirs(at))
    && (forall i | 0 <= i < |reqs| && reqs[i].RemoveChunks? :: CanRemove(RunOnes(st, reqs[..i]).disk, reqs[i].ids))
  }

  function AsErrors(replies: seq<Reply>): (errors: seq<Reply>)
    ensures |errors| == |replies| && forall i | 0 <= i < |replies| :: errors[i] == replies[i].(ok := false)
  {
    seq(|replies|, i requires 0 <= i < |replies| => replies[i].(ok := false))
  }

  /** The first `j` of the chunks are gone, and the next has no file. */
  ghost predicate RemovedSome(disk: Disk, ids: seq<nat>, j: nat, disk': Disk) {
    && j <= |ids| && CanRemove(disk, ids[..j]) && disk' == Without(disk, ids[..j])
    && (j < |ids| ==> ids[j] !in disk')
  }

  /** A removal that failed, at a chunk without a file or when the directory was synced. */
  ghost predicate RemovalFailed<R>(disk: Disk, req: Request<R>, disk': Disk) {
    req.RemoveChunks? && exists j: nat :: RemovedSome(disk, req.ids, j, disk')
  }

  /** A batch that failed: some of its data is in the last file, and all its callbacks got an error. */
  ghost predicate WritesFailed<R>(st: Store<R>, writes: seq<WriteReq>, st': Store<R>) {
    && Partly(st.disk, LastStart(st.files), Data(writes), st'.disk)
    && st'.replies == st.replies + AsErrors(AllReplies(writes))
  }

  /** A turn that failed, in its writes or after them. */
  ghost predicate TurnFailed<R>(st: Store<R>, g: Group<R>, st': Store<R>) {
    || (g.writes != [] && WritesFailed(st, g.writes, st'))
    || (var mid := if g.writes == [] then st else HandleWrites(st, g.writes);
        && g.next.Some? && RemovalFailed(mid.disk, g.next.value, st'.disk)
        && st'.files == mid.files && st'.replies == mid.replies)
  }

  class FlushWorker<R> {
    var disk: Disk
    var files: seq<FileEntry<R>>
    var replies: seq<Reply>
    var notes: seq<Note<R>>
    var done: nat

    constructor (disk: Disk, entry: FileEntry<R>)
      ensures this.disk == disk && files == [entry] && replies == [] && notes == [] && done == 0
    {
      this.disk := disk;
      files := [entry];
      replies := [];
      notes := [];
      done := 0;
    }

    ghost function AsStore(): Store<R>
      reads this
    {
      Store(disk, files, replies)
    }

    /**
     Syncs every file that may have unsynced data and announces the last.
     `outcomes` says which syncs succeed.
     */
    method SyncDataFiles(offset: nat, outcomes: seq<bool>) returns (ok: bool)
      modifies this`disk, this`files, this`notes
      ensures ok ==> AsStore() == SyncAll(old(AsStore()))
      ensures ok ==> notes == old(notes) + (if files == [] then [] else [Note(files[0].start, offset, files[0].prev)])
      ensures !ok ==> notes == old(notes)
      ensures ok <==> SyncsGoWell(outcomes, |old(files)|)
      ensures Sane(old(disk)) ==> Partly(old(disk), None, [], disk) && Sane(disk)
    {
      if files == [] {
        SelfPartly(disk);
        return true;
      }
      hide SyncAll, Synced, Partly, Sane;
      ghost var st := AsStore();
      SelfPartly(disk);
      SyncKeeps(st);
      var i := 0;
      while |files| > 1
        invariant files != [] && files[|files| - 1] == st.files[|st.files| - 1]
        invariant SyncAll(AsStore()) == SyncAll(st)
        invariant Sane(st.disk) ==> Partly(st.disk, None, [], disk) && Sane(disk)
        invariant notes == old(notes) && replies == st.replies && i >= 0 && i + |files| == |st.files|
        invariant SyncsGoWell(outcomes, i)
        decreases |files|
      {
        var f := files[0];
        ghost var before := files;
        files := files[1..];
        if i < |outcomes| && !outcomes[i] {
          return false;
        }
        SyncFirst(disk, before, replies);
        if Sane(st.disk) {
          SyncedPartly(st.disk, disk, f.start);
        }
        disk := Synced(disk, f.start);
        i := i + 1;
      }
      if i < |outcomes| && !outcomes[i] {
        return false;
      }
      SyncOnly(disk, files, replies);
      if Sane(st.disk) {
        SyncedPartly(st.disk, disk, files[0].start);
      }
      disk := Synced(disk, files[0].start);
      notes := notes + [Note(files[0].start, offset, files[0].prev)];
      return true;
    }

    /**
     Attaches a file or removes chunks. Removal fails at the first id that has
     no file, with the ids before it already removed, or when the directory
     cannot be synced after all of them are.
     */
    method HandleNonFlushRequest(req: Request<R>, dirSynced: bool) returns (ok: bool)
      requires !req.Write?
      modifies this`disk, this`files
      ensures ok ==> AsStore() == HandleOther(old(AsStore()), req)
      ensures req.AppendFile? ==> ok
      ensures !ok ==> files == old(files) && RemovalFailed(old(disk), req, disk)
      ensures req.RemoveChunks? ==> (ok <==> CanRemove(old(disk), req.ids) && (req.ids == [] || dirSynced))
      ensures req.RemoveChunks? && CanRemove(old(disk), req.ids) ==> AsStore() == HandleOther(old(AsStore()), req)
    {
      match req
      case AppendFile(e) =>
        files := files + [e];
        return true;
      case RemoveChunks(ids) =>
        var i: nat := 0;
        assert ids[..0] == [];
        assert Without(disk, []) == disk;
        while i < |ids|
          invariant i <= |ids| && disk == Without(old(disk), ids[..i]) && files == old(files)
          invariant CanRemove(old(disk), ids[..i])
        {
          if ids[i] !in disk {
            RemovalFails(old(disk), ids, i);
            assert RemovedSome(old(disk), ids, i, disk);
            return false;
          }
          RemoveNext(old(disk), ids, i);
          disk := disk - {ids[i]};
          i := i + 1;
        }
        assert ids[..i] == ids;
        assert RemovedSome(old(disk), ids, i, disk);
        return ids == [] || dirSynced;
    }

    /** Writes data to the last file, as far as the schedule lets it. */
    method WriteBatchData(writes: seq<WriteReq>, plan: seq<Outcome>) returns (ok: bool)
      requires files != []
      modifies this`disk
      ensures ok ==> AsStore() == WriteTo(old(AsStore()), Data(writes))
      ensures ok <==> AfterGroups(plan, writes).Some?
      ensures Sane(old(disk)) ==> Partly(old(disk), LastStart(old(files)), Data(writes), disk) && Sane(disk)
    {
      hide Data, AfterGroups;
      var id := files[|files| - 1].start;
      var file := new AppendFile(plan);
      if id in disk {
        file.data := disk[id].os;
      }
      var res := WriteBatchVectored(file, writes);
      if id in disk {
        disk := disk[id := File(file.data, disk[id].dur)];
      }
      ok := res == Complete;
    }

    /** Answers the callbacks of a batch, in order. */
    method SendReplies(writes: seq<WriteReq>, ok: bool)
      modifies this`replies
      ensures replies == old(replies) + if ok then AllReplies(writes) else AsErrors(AllReplies(writes))
    {
      hide AllReplies;
      ghost var before := replies;
      var i: nat := 0;
      assert writes[..0] == [];
      NoWrites();
      while i < |writes|
        invariant i <= |writes|
        invariant replies == before + if ok then AllReplies(writes[..i]) else AsErrors(AllReplies(writes[..i]))
      {
        var w := writes[i];
        ghost var was := replies;
        if w.callback.Some? {
          replies := replies + [Reply(w.callback.value, w.upto, w.sync, ok)];
        }
        assert writes[..i + 1] == writes[..i] + [w];
        SyncsAdd(writes[..i], w);
        assert replies == was + if ok then RepliesOf(w) else AsErrors(RepliesOf(w));
        ErrorsAdd(AllReplies(writes[..i]), RepliesOf(w));
        i := i + 1;
      }
      assert writes[..i] == writes;
    }

    /**
     Handles the writes of a batch: write, sync if any asks for it, answer the
     callbacks. Success means exactly the batch step; after a failure every
     new answer is an error, and the files hold at most more of the batch. It
     fails only if a write or a needed sync does.
     */
    method HandleBatch(writes: seq<WriteReq>, plan: seq<Outcome>, syncs: seq<bool>) returns (ok: bool)
      requires writes != [] && files != [] && Sane(disk)
      modifies this`disk, this`files, this`replies, this`notes
      ensures ok ==> AsStore() == HandleWrites(old(AsStore()), writes) && files != []
      ensures ok <==> WritesGoWell(writes, plan, syncs, |old(files)|)
      ensures Partly(old(disk), LastStart(old(files)), Data(writes), disk) && Sane(disk)
      ensures !ok ==> WritesFailed(old(AsStore()), writes, AsStore())
      ensures notes == old(notes) + if ok && NeedsSync(writes) then [NoteOf(old(files), writes)] else []
    {
      hide Data, AllReplies, SyncAll, WriteTo, AfterGroups, SyncsGoWell;
      ghost var st := AsStore();
      ok := WriteBatchData(writes, plan);
      ghost var wrote := disk;
      WriteKeeps(st, Data(writes));
      var sync := AnySync(writes);
      if ok && sync {
        ok := SyncDataFiles(writes[|writes| - 1].upto, syncs);
        PartlyThen(st.disk, LastStart(st.files), Data(writes), wrote, disk);
        SyncKeeps(WriteTo(st, Data(writes)));
      }
      SendReplies(writes, ok);
    }

    /** Takes one batch from the queue and handles it, with the request that ended it. */
    method HandleOneBatch(batch: WriteBatch<R>, queue: seq<SeqRequest<R>>, ready: nat, plan: seq<Outcome>, syncs: seq<bool>,
                          dirSynced: bool)
      returns (ok: bool, k: nat)
      requires queue != [] && files != [] && Sane(disk)
      modifies this, batch
      ensures 0 < k <= |queue| && batch.TookFrom(queue, k)
      ensures ok ==> AsStore() == HandleGroup(old(AsStore()), batch.AsGroup()) && files != [] && Sane(disk)
      ensures !ok ==> TurnFailed(old(AsStore()), batch.AsGroup(), AsStore())
      ensures ok <==> TurnGoesWell(old(AsStore()), batch.AsGroup(), plan, syncs, dirSynced)
      ensures notes == old(notes) + if TurnSyncs(batch.AsGroup(), plan, syncs, |old(files)|) then [NoteOf(old(files), batch.writes)] else []
      ensures done == if ok then Max(old(done), batch.LastSeq()) else old(done)
    {
      hide HandleWrites, GroupRequests, Partly, WritesFailed, RemovalFailed, WritesGoWell, CanRemove;
      ghost var st := AsStore();
      k := CollectBatch(batch, queue, ready);
      ok := true;
      if batch.writes != [] {
        ok := HandleBatch(batch.writes, plan, syncs);
      }
      if ok && batch.lastNonFlush.Some? {
        ok := HandleNonFlushRequest(batch.lastNonFlush.value.req, dirSynced);
      }
      if ok {
        done := Max(done, batch.LastSeq());
      }
    }

    /**
     The worker's loop until the queue is closed and drained. Requests keep
     arriving while it runs: `feed` are those that arrive before each turn.
     `ready`, `plans`, `syncs` and `dirs` decide where each batch ends and how
     its writes and syncs go. When it returns true it has handled every request,
     and its files and replies refine those of a worker that takes one request
     at a time. When it returns false it has handled some batches like this, and
     the next failed; requests behind that one are not touched. In a healthy
     system it returns true.
     */
    method RunInner(
      start: seq<SeqRequest<R>>, feed: seq<seq<SeqRequest<R>>>, maxSize: nat,
      ready: nat -> nat, plans: nat -> seq<Outcome>, syncs: nat -> seq<bool>, dirs: nat -> bool)
      returns (ok: bool, ghost groups: seq<Group<R>>, ghost failed: Group<R>)
      requires files != [] && Sane(disk)
      modifies this
      ensures forall i | 0 <= i < |groups| :: LegalGroup(groups[i])
      ensures ok ==> AsStore() == RunGroups(old(AsStore()), groups) && Flatten(groups) == Reqs(start + Arrivals(feed))
      ensures ok ==> Refines(RunOnes(old(AsStore()), Reqs(start + Arrivals(feed))), AsStore())
      ensures !ok ==> Flatten(groups) + GroupRequests(failed) <= Reqs(start + Arrivals(feed))
      ensures !ok ==> LegalGroup(failed) && TurnFailed(RunGroups(old(AsStore()), groups), failed, AsStore())
      ensures !ok ==>
                var at := |Flatten(groups)|;
                !TurnGoesWell(RunGroups(old(AsStore()), groups), failed, plans(at), syncs(at), dirs(at))
      ensures AllGoesWell(old(AsStore()), Reqs(start + Arrivals(feed)), plans, syncs, dirs) ==> ok
      ensures ok ==> notes == old(notes) + RunNotes(old(AsStore()), groups)
      ensures !ok ==>
                var mid, at := RunGroups(old(AsStore()), groups), |Flatten(groups)|;
                notes == old(notes) + RunNotes(old(AsStore()), groups) +
                         if mid.files != [] && TurnSyncs(failed, plans(at), syncs(at), |mid.files|) then [NoteOf(mid.files, failed.writes)] else []
      ensures done >= old(done)
      ensures done == old(done) || IsNumberIn(start + Arrivals(feed), |Flatten(groups)|, done)
      ensures ok ==> forall i | 0 <= i < |start + Arrivals(feed)| :: (start + Arrivals(feed))[i].seqNo <= done
    {
      hide Refines, RunOnes, HandleGroup, GroupRequests, RunGroups, Flatten, LegalGroup, Arrivals, TurnFailed, TurnGoesWell,
      AllGoesWell, HandledUpto, IsNumberIn, TurnSyncs, RunNotes, CanRemove;
      groups, failed := [], Group([], None);
      ghost var st, notes0, done0 := AsStore(), notes, done;
      var batch := new WriteBatch<R>(maxSize);
      var queue := start;
      var at: nat, turn: nat := 0, 0;
      NoArrivals(start, feed);
      NothingHandled(st, notes0, done0, queue);
      while at < |queue| || turn < |feed|
        invariant at <= |queue| && turn <= |feed| && queue == start + Arrivals(feed[..turn])
        invariant fresh(batch) && files != [] && Sane(disk)
        invariant HandledUpto(st, notes0, done0, queue, at, groups, AsStore(), notes, done)
        decreases |feed| - turn, |queue| - at
      {
        if turn < |feed| {
          MoreArrivals(start, feed, turn, queue, at);
          StillHandled(st, notes0, done0, queue, queue + feed[turn], at, groups, AsStore(), notes, done);
          queue := queue + feed[turn];
          turn := turn + 1;
        }
        if at < |queue| {
          var k: nat;
          ghost var mid, notes1, done1 := AsStore(), notes, done;
          ok, k := HandleOneBatch(batch, queue[at..], ready(at), plans(at), syncs(at), dirs(at));
          if !ok {
            failed := batch.AsGroup();
            ThenFailed(st, notes0, done0, queue, at, groups, mid, notes1, done, start, feed, turn, failed, k);
            if AllGoesWell(st, Reqs(start + Arrivals(feed)), plans, syncs, dirs) {
              HealthyTurn(st, groups, failed, Reqs(start + Arrivals(feed)), plans, syncs, dirs);
            }
            return false, groups, failed;
          }
          TurnHandled(st, notes0, done0, queue, at, groups, mid, notes1, done1, batch.AsGroup(), k, batch.LastSeq(), plans(at), syncs(at), dirs(at));
          groups := groups + [batch.AsGroup()];
          at := at + k;
        }
      }
      assert feed[..turn] == feed;
      AllHandled(st, notes0, done0, queue, groups, AsStore(), notes, done);
      return true, groups, failed;
    }
  }

  // A run of turns

  /** The notifications of a turn, and of several. */
  function TurnNotes<R>(files: seq<FileEntry<R>>, g: Group<R>): seq<Note<R>> {
    if files != [] && g.writes != [] && NeedsSync(g.writes) then [NoteOf(files, g.writes)] else []
  }

  function RunNotes<R>(st: Store<R>, groups: seq<Group<R>>): seq<Note<R>> {
    if groups == [] then []
    else
      var front := groups[..|groups| - 1];
      RunNotes(st, front) + TurnNotes(RunGroups(st, front).files, groups[|groups| - 1])
  }

  /** The first `at` requests were handled in these groups, from store `st0` and what was announced and done then. */
  ghost predicate HandledUpto<R>(
    st0: Store<R>, notes0: seq<Note<R>>, done0: nat, queue: seq<SeqRequest<R>>, at: nat, groups: seq<Group<R>>,
    st: Store<R>, notes: seq<Note<R>>, done: nat)
  {
    && at <= |queue| && (forall i | 0 <= i < |groups| :: LegalGroup(groups[i]))
    && st == RunGroups(st0, groups) && Flatten(groups) == Reqs(queue[..at])
    && notes == notes0 + RunNotes(st0, groups) && IsDoneUpto(queue, at, done0, done)
  }

  lemma NothingHandled<R>(st: Store<R>, notes: seq<Note<R>>, done: nat, queue: seq<SeqRequest<R>>)
    ensures HandledUpto(st, notes, done, queue, 0, [], st, notes, done)
  {
    NoGroups(st, queue);
    NoneDone(queue, done);
    assert notes + [] == notes;
  }

  lemma StillHandled<R>(
    st0: Store<R>, notes0: seq<Note<R>>, done0: nat, queue: seq<SeqRequest<R>>, all: seq<SeqRequest<R>>, at: nat,
    groups: seq<Group<R>>, st: Store<R>, notes: seq<Note<R>>, done: nat)
    requires HandledUpto(st0, notes0, done0, queue, at, groups, st, notes, done) && queue <= all
    ensures HandledUpto(st0, notes0, done0, all, at, groups, st, notes, done)
  {
    hide RunGroups, Flatten, RunNotes, IsDoneUpto;
    assert all[..at] == queue[..at];
    DoneInMore(queue, all, at, done0, done);
  }

  lemma TurnHandled<R>(
    st0: Store<R>, notes0: seq<Note<R>>, done0: nat, queue: seq<SeqRequest<R>>, at: nat, groups: seq<Group<R>>,
    mid: Store<R>, notes: seq<Note<R>>, done: nat, g: Group<R>, k: nat, last: nat,
    plan: seq<Outcome>, syncs: seq<bool>, dirSynced: bool)
    requires HandledUpto(st0, notes0, done0, queue, at, groups, mid, notes, done) && mid.files != []
    requires at + k <= |queue| && LegalGroup(g) && GroupRequests(g) == Reqs(queue[at..][..k])
    requires IsNumberIn(queue[at..], k, last) && forall i | 0 <= i < k :: queue[at..][i].seqNo <= last
    requires TurnGoesWell(mid, g, plan, syncs, dirSynced)
    ensures HandledUpto(st0, notes0, done0, queue, at + k, groups + [g], HandleGroup(mid, g),
                        notes + (if TurnSyncs(g, plan, syncs, |mid.files|) then [NoteOf(mid.files, g.writes)] else []), Max(done, last))
  {
    hide RunGroups, Flatten, RunNotes, IsDoneUpto, HandleGroup, IsNumberIn, GroupRequests, LegalGroup, AfterGroups, SyncsGoWell,
    HandleWrites, CanRemove;
    GroupsGrow(st0, groups, g, queue, at, k);
    DoneGrows(queue, at, k, done0, done, last);
    NotesGrow(st0, groups, g);
    assert notes0 + (RunNotes(st0, groups) + TurnNotes(mid.files, g)) == notes + TurnNotes(mid.files, g);
  }

  lemma NotesGrow<R>(st: Store<R>, groups: seq<Group<R>>, g: Group<R>)
    ensures RunNotes(st, groups + [g]) == RunNotes(st, groups) + TurnNotes(RunGroups(st, groups).files, g)
  {
    assert (groups + [g])[..|groups|] == groups;
  }

  /** Where the run stands when the next turn fails. */
  lemma ThenFailed<R>(
    st0: Store<R>, notes0: seq<Note<R>>, done0: nat, queue: seq<SeqRequest<R>>, at: nat, groups: seq<Group<R>>,
    mid: Store<R>, notes: seq<Note<R>>, done: nat, start: seq<SeqRequest<R>>, feed: seq<seq<SeqRequest<R>>>, turn: nat,
    failed: Group<R>, k: nat)
    requires HandledUpto(st0, notes0, done0, queue, at, groups, mid, notes, done)
    requires turn <= |feed| && queue == start + Arrivals(feed[..turn])
    requires at + k <= |queue| && GroupRequests(failed) == Reqs(queue[at..][..k])
    ensures mid == RunGroups(st0, groups) && |Flatten(groups)| == at
    ensures forall i | 0 <= i < |groups| :: LegalGroup(groups[i])
    ensures Flatten(groups) + GroupRequests(failed) <= Reqs(start + Arrivals(feed))
    ensures notes == notes0 + RunNotes(st0, groups)
    ensures done >= done0 && (done == done0 || IsNumberIn(start + Arrivals(feed), at, done))
  {
    hide RunGroups, Flatten, RunNotes, IsDoneUpto, GroupRequests, LegalGroup, IsNumberIn, Arrivals;
    NextTurn(groups, failed, queue, at, k);
    MoreRequests(start, feed, turn, queue);
    ArrivedSoFar(start, feed, turn, queue, at, done0, done);
  }

  lemma AllHandled<R>(
    st0: Store<R>, notes0: seq<Note<R>>, done0: nat, queue: seq<SeqRequest<R>>, groups: seq<Group<R>>,
    st: Store<R>, notes: seq<Note<R>>, done: nat)
    requires HandledUpto(st0, notes0, done0, queue, |queue|, groups, st, notes, done) && st0.files != [] && Sane(st0.disk)
    ensures st == RunGroups(st0, groups) && Flatten(groups) == Reqs(queue)
    ensures forall i | 0 <= i < |groups| :: LegalGroup(groups[i])
    ensures Refines(RunOnes(st0, Reqs(queue)), st) && notes == notes0 + RunNotes(st0, groups)
    ensures done >= done0 && (done == done0 || IsNumberIn(queue, |Flatten(groups)|, done))
    ensures forall i | 0 <= i < |queue| :: queue[i].seqNo <= done
  {
    hide RunGroups, Flatten, RunNotes, IsDoneUpto, LegalGroup, IsNumberIn, RunOnes, Refines;
    assert queue[..|queue|] == queue;
    GroupCommitRefines(st0, groups);
    DoneMeans(queue, |queue|, done0, done);
  }

  // A healthy system

  lemma {:induction false} BytesConcat<R>(a: seq<Request<R>>, b: seq<Request<R>>)
    ensures BytesOf(a + b) == BytesOf(a) + BytesOf(b)
    decreases |b|
  {
    if b == [] {
      assert a + b == a;
    } else {
      assert (a + b)[..|a + b| - 1] == a + b[..|b| - 1];
      BytesConcat(a, b[..|b| - 1]);
    }
  }

  lemma {:induction false} BytesOfWrites<R>(writes: seq<WriteReq>)
    ensures BytesOf(AsRequests<R>(writes)) == |Data(writes)|
    decreases |writes|
  {
    if writes != [] {
      var front := writes[..|writes| - 1];
      BytesOfWrites<R>(front);
      assert AsRequests<R>(writes)[..|writes| - 1] == AsRequests<R>(front);
    }
  }

  lemma SameFilesToRemove(disk: Disk, disk': Disk, ids: seq<nat>)
    requires disk.Keys == disk'.Keys && CanRemove(disk, ids)
    ensures CanRemove(disk', ids)
  {
    forall i | 0 <= i < |ids| ensures ids[i] in disk' {
      assert ids[i] in disk.Keys;
    }
  }

  /** A batch has the files that the writes before its end leave one by one. */
  lemma FilesBeforeEnd<R>(st: Store<R>, groups: seq<Group<R>>, writes: seq<WriteReq>)
    requires st.files != [] && Sane(st.disk) && forall i | 0 <= i < |groups| :: LegalGroup(groups[i])
    ensures var mid := RunGroups(st, groups);
            RunOnes(st, Flatten(groups) + AsRequests<R>(writes)).disk.Keys
            == (if writes == [] then mid else HandleWrites(mid, writes)).disk.Keys
  {
    hide RunOnes, HandleWrites, AsRequests, Sane;
    var g: Group<R> := Group(writes, None);
    var more := groups + [g];
    assert more[..|groups|] == groups;
    assert GroupRequests(g) == AsRequests<R>(writes);
    GroupCommitRefines(st, more);
  }

  lemma HealthyTurn<R>(
    st: Store<R>, groups: seq<Group<R>>, g: Group<R>, all: seq<Request<R>>,
    plans: nat -> seq<Outcome>, syncs: nat -> seq<bool>, dirs: nat -> bool)
    requires st.files != [] && Sane(st.disk) && forall i | 0 <= i < |groups| :: LegalGroup(groups[i])
    requires AllGoesWell(st, all, plans, syncs, dirs) && Flatten(groups) + GroupRequests(g) <= all
    ensures var at := |Flatten(groups)|; TurnGoesWell(RunGroups(st, groups), g, plans(at), syncs(at), dirs(at))
  {
    hide RunOnes, HandleWrites, Sane, RunGroups, Flatten, LegalGroup, Moves, CanFail, Data, AfterGroups, BytesOf, CanRemove;
    var front, own, at := Flatten(groups), AsRequests<R>(g.writes), |Flatten(groups)|;
    var before := front + own;
    assert all == before + all[|before|..];
    BytesConcat(before, all[|before|..]);
    BytesConcat(front, own);
    BytesOfWrites<R>(g.writes);
    EnoughForGroups(plans(at), g.writes);
    if g.next.Some? && g.next.value.RemoveChunks? {
      assert all[|before|] == g.next.value && all[..|before|] == before;
      FilesBeforeEnd(st, groups, g.writes);
      var mid := RunGroups(st, groups);
      SameFilesToRemove(RunOnes(st, before).disk, (if g.writes == [] then mid else HandleWrites(mid, g.writes)).disk, g.next.value.ids);
    }
  }

  /** All requests that arrive, in order. */
  function Arrivals<R>(feed: seq<seq<SeqRequest<R>>>): seq<SeqRequest<R>> {
    if feed == [] then [] else Arrivals(feed[..|feed| - 1]) + feed[|feed| - 1]
  }

  lemma NoArrivals<R>(start: seq<SeqRequest<R>>, feed: seq<seq<SeqRequest<R>>>)
    ensures start + Arrivals(feed[..0]) == start
  {
    assert feed[..0] == [];
  }

  lemma MoreArrivals<R>(start: seq<SeqRequest<R>>, feed: seq<seq<SeqRequest<R>>>, turn: nat, queue: seq<SeqRequest<R>>, at: nat)
    requires turn < |feed| && queue == start + Arrivals(feed[..turn]) && at <= |queue|
    ensures queue + feed[turn] == start + Arrivals(feed[..turn + 1])
    ensures (queue + feed[turn])[..at] == queue[..at]
  {
    assert feed[..turn + 1][..turn] == feed[..turn];
  }

  /** What has arrived so far is the first part of all that arrives. */
  lemma {:induction false} ArrivalsPrefix<R>(feed: seq<seq<SeqRequest<R>>>, turn: nat)
    requires turn <= |feed|
    ensures Arrivals(feed[..turn]) <= Arrivals(feed)
    decreases |feed|
  {
    if turn < |feed| {
      ArrivalsPrefix(feed[..|feed| - 1], turn);
      assert feed[..|feed| - 1][..turn] == feed[..turn];
    } else {
      assert feed[..turn] == feed;
    }
  }

  lemma MoreRequests<R>(start: seq<SeqRequest<R>>, feed: seq<seq<SeqRequest<R>>>, turn: nat, queue: seq<SeqRequest<R>>)
    requires turn <= |feed| && queue == start + Arrivals(feed[..turn])
    ensures Reqs(queue) <= Reqs(start + Arrivals(feed))
  {
    ArrivalsPrefix(feed, turn);
    var all := start + Arrivals(feed);
    assert queue == all[..|queue|];
  }

  lemma NextTurn<R>(groups: seq<Group<R>>, g: Group<R>, queue: seq<SeqRequest<R>>, at: nat, k: nat)
    requires at + k <= |queue| && Flatten(groups) == Reqs(queue[..at]) && GroupRequests(g) == Reqs(queue[at..][..k])
    ensures Flatten(groups) + GroupRequests(g) <= Reqs(queue)
  {
    hide Flatten, GroupRequests;
    assert queue == queue[..at] + queue[at..][..k] + queue[at + k..];
  }

  // Facts about the parts

  function NoteOf<R>(files: seq<FileEntry<R>>, writes: seq<WriteReq>): Note<R>
    requires files != [] && writes != []
  {
    Note(files[|files| - 1].start, writes[|writes| - 1].upto, files[|files| - 1].prev)
  }

  method AnySync(writes: seq<WriteReq>) returns (sync: bool)
    ensures sync == NeedsSync(writes)
  {
    for i := 0 to |writes|
      invariant forall j | 0 <= j < i :: !writes[j].sync
    {
      if writes[i].sync {
        return true;
      }
    }
    return false;
  }

  predicate CanRemove(disk: Disk, ids: seq<nat>) {
    && (forall i | 0 <= i < |ids| :: ids[i] in disk)
    && (forall i, j | 0 <= i < j < |ids| :: ids[i] != ids[j])
  }

  lemma RemoveNext(disk: Disk, ids: seq<nat>, i: nat)
    requires i < |ids| && CanRemove(disk, ids[..i]) && ids[i] in Without(disk, ids[..i])
    ensures Without(disk, ids[..i]) - {ids[i]} == Without(disk, ids[..i + 1])
    ensures CanRemove(disk, ids[..i + 1])
  {
    var more := ids[..i + 1];
    assert more == ids[..i] + [ids[i]];
    forall a, b | 0 <= a < b < |more| ensures more[a] != more[b] {
      assert ids[..i][a] == more[a];
    }
  }

  lemma RemovalFails(disk: Disk, ids: seq<nat>, i: nat)
    requires i < |ids| && ids[i] !in Without(disk, ids[..i])
    ensures !CanRemove(disk, ids)
  {
    if ids[i] in disk {
      var j :| 0 <= j < i && ids[..i][j] == ids[i];
      assert ids[j] == ids[i];
    }
  }

  lemma SyncedPartly(disk: Disk, mid: Disk, id: nat)
    requires Sane(disk) && Partly(disk, None, [], mid) && Sane(mid)
    ensures Partly(disk, None, [], Synced(mid, id)) && Sane(Synced(mid, id))
  {
  }

  lemma SelfPartly(disk: Disk)
    ensures Partly(disk, None, [], disk)
  {
  }

  lemma WriteKeeps<R>(st: Store<R>, data: seq<Byte>)
    ensures WriteTo(st, data).files == st.files && WriteTo(st, data).replies == st.replies
  {
  }

  lemma SyncKeeps<R>(st: Store<R>)
    ensures st.files != [] ==> SyncAll(st).files == [st.files[|st.files| - 1]]
    ensures SyncAll(st).replies == st.replies
  {
  }

  lemma PartlyThen(disk: Disk, last: Option<nat>, data: seq<Byte>, mid: Disk, disk': Disk)
    requires Partly(disk, last, data, mid) && Partly(mid, None, [], disk')
    ensures Partly(disk, last, data, disk')
  {
    forall k | k in disk ensures disk[k].os <= disk'[k].os <= disk[k].os + (if last == Some(k) then data else []) {
      assert mid[k].os + [] == mid[k].os;
    }
  }

  lemma NoGroups<R>(st: Store<R>, queue: seq<SeqRequest<R>>)
    ensures RunGroups(st, []) == st && Flatten<R>([]) == Reqs(queue[..0])
  {
    assert queue[..0] == [];
  }

  lemma GroupsGrow<R>(st: Store<R>, groups: seq<Group<R>>, g: Group<R>, queue: seq<SeqRequest<R>>, at: nat, k: nat)
    requires at + k <= |queue| && Flatten(groups) == Reqs(queue[..at]) && GroupRequests(g) == Reqs(queue[at..][..k])
    ensures RunGroups(st, groups + [g]) == HandleGroup(RunGroups(st, groups), g)
    ensures Flatten(groups + [g]) == Reqs(queue[..at + k])
  {
    assert (groups + [g])[..|groups|] == groups;
    assert queue[..at + k] == queue[..at] + queue[at..][..k];
    assert Reqs(queue[..at + k]) == Reqs(queue[..at]) + Reqs(queue[at..][..k]);
  }

  lemma NoneDone<R>(queue: seq<SeqRequest<R>>, was: nat)
    ensures IsDoneUpto(queue, 0, was, was)
  {
  }

  lemma DoneMeans<R>(queue: seq<SeqRequest<R>>, at: nat, was: nat, done: nat)
    requires IsDoneUpto(queue, at, was, done)
    ensures done >= was && (done == was || IsNumberIn(queue, at, done))
    ensures forall i | 0 <= i < at && i < |queue| :: queue[i].seqNo <= done
  {
  }

  lemma DoneInMore<R>(queue: seq<SeqRequest<R>>, all: seq<SeqRequest<R>>, at: nat, was: nat, done: nat)
    requires queue <= all && at <= |queue| && IsDoneUpto(queue, at, was, done)
    ensures IsDoneUpto(all, at, was, done)
  {
    if IsNumberIn(queue, at, done) && done != 0 {
      var i :| 0 <= i < at && i < |queue| && queue[i].seqNo == done;
      assert all[i].seqNo == done;
    }
  }

  /** Handling the next `k` requests leaves the highest number so far. */
  lemma DoneGrows<R>(queue: seq<SeqRequest<R>>, at: nat, k: nat, was: nat, done: nat, last: nat)
    requires at + k <= |queue| && IsDoneUpto(queue, at, was, done) && IsNumberIn(queue[at..], k, last)
    requires forall i | 0 <= i < k :: queue[at..][i].seqNo <= last
    ensures IsDoneUpto(queue, at + k, was, Max(done, last))
  {
    SeqsGrow(queue, at, k, last);
    if last != 0 {
      var i :| 0 <= i < k && i < |queue[at..]| && queue[at..][i].seqNo == last;
      assert queue[at + i].seqNo == last;
    }
  }

  lemma ArrivedSoFar<R>(
    start: seq<SeqRequest<R>>, feed: seq<seq<SeqRequest<R>>>, turn: nat, queue: seq<SeqRequest<R>>, at: nat, was: nat, done: nat)
    requires turn <= |feed| && queue == start + Arrivals(feed[..turn]) && at <= |queue| && IsDoneUpto(queue, at, was, done)
    ensures IsDoneUpto(start + Arrivals(feed), at, was, done)
    ensures done >= was && (done == was || IsNumberIn(start + Arrivals(feed), at, done))
  {
    ArrivalsPrefix(feed, turn);
    var all := start + Arrivals(feed);
    assert queue <= all;
    DoneInMore(queue, all, at, was, done);
  }

  lemma SeqsGrow<R>(queue: seq<SeqRequest<R>>, at: nat, k: nat, last: nat)
    requires at + k <= |queue| && forall i | 0 <= i < k :: queue[at..][i].seqNo <= last
    ensures forall i | at <= i < at + k :: queue[i].seqNo <= last
  {
    forall i | at <= i < at + k ensures queue[i].seqNo <= last {
      assert queue[at..][i - at] == queue[i];
    }
  }
}
