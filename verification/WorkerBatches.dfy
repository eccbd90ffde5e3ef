/** The steps of the worker, taken together, are group commit. */
module WorkerBatches {
  import opened Bytes
  import opened Codec
  import opened Log
  import opened Requests
  import opened Backlog
  import opened CrashImages
  import opened System
  import opened Invariant
  import opened MainSteps
  import opened WorkerSteps
  import opened Durability
  import opened Completion
  import opened Progress
  import opened GroupCommit

  function StoreOf<R, S>(s: Sys<R, S>): Store<R> {
    Store(s.disk, s.worker.files, s.replies)
  }

  function RequestOf<R>(next: Option<SeqRequest<R>>): Option<Request<R>> {
    match next
    case None => None
    case Some(sr) => Some(sr.req)
  }

  predicate PhaseOk<R>(phase: Phase<R>) {
    phase.Replying? ==> phase.replied <= |phase.batch.writes|
  }

  /** Where the worker will be when it has finished what it has in hand. */
  function Ahead<R, S>(s: Sys<R, S>): Store<R>
    requires PhaseOk(s.worker.phase)
  {
    var st := StoreOf(s);
    match s.worker.phase
    case Idle => st
    case Writing(b, rest) =>
      HandleNext(Replied(SyncIf(WriteTo(st, rest), NeedsSync(b.writes)), b.writes), RequestOf(b.next))
    case Syncing(b) => HandleNext(Replied(SyncAll(st), b.writes), RequestOf(b.next))
    case Replying(b, i) => HandleNext(Replied(st, b.writes[i..]), RequestOf(b.next))
    case Finishing(next, _) => HandleNext(st, RequestOf(next))
  }

  /** The batch that a step takes from the queue. */
  function Takes<R, S>(s: Sys<R, S>, step: Step<R>): Option<Group<R>>
    requires step.TakeWrites? ==> step.count <= |s.queue| && (forall i | 0 <= i < step.count :: s.queue[i].req.Write?)
    requires step.TakeWrites? && step.withNext ==> step.count < |s.queue|
    requires step.TakeOther? ==> s.queue != []
  {
    match step
    case TakeWrites(n, withNext) =>
      Some(Group(WritesOf(s.queue[..n]), if withNext then Some(s.queue[n].req) else None))
    case TakeOther => Some(Group([], Some(s.queue[0].req)))
    case _ => None
  }

  /** The worker's last file is the one it writes. */
  ghost predicate WritesLast<R, S>(s: Sys<R, S>) {
    && Placed(s) && s.worker.files != []
    && s.worker.files[|s.worker.files| - 1].start == s.hist[s.cur].id
  }

  lemma {:induction false} RepliesSplit(writes: seq<WriteReq>, i: nat)
    requires i < |writes|
    ensures AllReplies(writes[i..]) == RepliesOf(writes[i]) + AllReplies(writes[i + 1..])
    decreases |writes| - i
  {
    hide RepliesOf;
    if i + 1 == |writes| {
      assert writes[i..] == [writes[i]] && writes[i + 1..] == [];
      OneWrite(writes[i]);
      NoWrites();
    } else {
      var front, n := writes[..|writes| - 1], |writes| - 1;
      RepliesSplit(front, i);
      assert writes[i..][..n - i] == front[i..];
      assert writes[i + 1..][..n - i - 1] == front[i + 1..];
    }
  }

  // The steps

  lemma WriteParts<R, S>(s: Sys<R, S>, rest: seq<Byte>, k: nat)
    requires WritesLast(s) && k <= |rest|
    ensures WriteTo(StoreOf(s.(disk := Grown(s, rest[..k]))), rest[k..]) == WriteTo(StoreOf(s), rest)
  {
    assert CurFile(s).os + rest[..k] + rest[k..] == CurFile(s).os + rest by {
      assert rest[..k] + rest[k..] == rest;
    }
  }

  lemma WriteNothing<R, S>(s: Sys<R, S>)
    requires WritesLast(s)
    ensures WriteTo(StoreOf(s), []) == StoreOf(s)
  {
    assert CurFile(s).os + [] == CurFile(s).os;
    assert s.disk[s.hist[s.cur].id := CurFile(s)] == s.disk;
  }

  lemma RemoveFirst(disk: Disk, ids: seq<nat>)
    requires ids != []
    ensures Without(disk - {ids[0]}, ids[1..]) == Without(disk, ids)
    ensures Without(disk, []) == disk
  {
    assert ids == [ids[0]] + ids[1..];
  }

  /** A step that takes nothing leaves the outcome as it was. */
  lemma KeepsAhead<R, S>(s: Sys<R, S>, step: Step<R>, s': Sys<R, S>)
    requires WritesLast(s) && WorkerStep(s, step, s') && PhaseOk(s.worker.phase)
    requires !step.TakeWrites? && !step.TakeOther? && !step.Fail? && !step.Stop? && !step.DropReceiver?
    ensures PhaseOk(s'.worker.phase) && Ahead(s') == Ahead(s)
  {
    hide WriteTo, SyncAll, Synced, Data, NeedsSync, AllReplies, RepliesOf, Grown, BatchEnd, Without;
    match step
    case WriteSome(k) => WriteParts(s, s.worker.phase.rest, k);
    case WriteDone =>
      WriteNothing(s);
      assert s.worker.phase.batch.writes[0..] == s.worker.phase.batch.writes;
    case SyncOlder => SyncFirst(s.disk, s.worker.files, s.replies);
    case SyncLast =>
      SyncOnly(s.disk, s.worker.files, s.replies);
      assert s.worker.phase.batch.writes[0..] == s.worker.phase.batch.writes;
    case ReplyOne => ReplyAhead(s, s');
    case Release => ReleaseAhead(s, s');
    case Unlink => RemoveFirst(s.disk, s.worker.phase.next.value.req.ids);
    case Finish => FinishAhead(s, s');
  }

  lemma ReplyAhead<R, S>(s: Sys<R, S>, s': Sys<R, S>)
    requires s.worker.phase.Replying?
    requires var (b, i) := (s.worker.phase.batch, s.worker.phase.replied);
             i < |b.writes| && s' == InPhase(s, Replying(b, i + 1)).(replies := s.replies + RepliesOf(b.writes[i]))
    ensures Ahead(s') == Ahead(s)
  {
    hide AllReplies, RepliesOf;
    var (b, i) := (s.worker.phase.batch, s.worker.phase.replied);
    RepliesSplit(b.writes, i);
    assert s.replies + (RepliesOf(b.writes[i]) + AllReplies(b.writes[i + 1..]))
        == (s.replies + RepliesOf(b.writes[i])) + AllReplies(b.writes[i + 1..]);
  }

  lemma ReleaseAhead<R, S>(s: Sys<R, S>, s': Sys<R, S>)
    requires s.worker.phase.Replying? && s.worker.phase.replied == |s.worker.phase.batch.writes|
    requires var b := s.worker.phase.batch; s' == InPhase(s, Finishing(b.next, b.lastSeq)).(used := s'.used)
    ensures Ahead(s') == Ahead(s)
  {
    hide AllReplies;
    var writes := s.worker.phase.batch.writes;
    assert writes[|writes|..] == [];
    NoWrites();
    assert s.replies + [] == s.replies;
  }

  lemma FinishAhead<R, S>(s: Sys<R, S>, s': Sys<R, S>)
    requires DoesFinish(s, s')
    ensures PhaseOk(s'.worker.phase) && Ahead(s') == Ahead(s)
  {
    assert Without(s.disk, []) == s.disk;
  }

  lemma TakeWritesAhead<R, S>(s: Sys<R, S>, n: nat, withNext: bool, s': Sys<R, S>)
    requires DoesTakeWrites(s, n, withNext, s')
    ensures var g := Takes(s, TakeWrites(n, withNext)).value;
            && PhaseOk(s'.worker.phase) && LegalGroup(g) && Ahead(s') == HandleGroup(StoreOf(s), g)
  {
    hide WriteTo, SyncAll, Data, NeedsSync, AllReplies, HandleOther, SyncIf, Replied;
  }

  lemma TakeWritesQueue<R, S>(s: Sys<R, S>, n: nat, withNext: bool, s': Sys<R, S>)
    requires DoesTakeWrites(s, n, withNext, s')
    ensures Reqs(s.queue) == GroupRequests(Takes(s, TakeWrites(n, withNext)).value) + Reqs(s'.queue)
  {
    hide Data, Reqs, NextReq, GroupRequests, AsRequests, WritesOf;
    var writes := WritesOf(s.queue[..n]);
    var next := if withNext then Some(s.queue[n]) else None;
    WritesAsRequests(s.queue[..n]);
    ReqsSplit(s.queue, n);
    NextSplit(s.queue, n, withNext);
    WriteRequests(writes, next);
    Regroup(AsRequests<R>(writes), NextReq(next), Reqs(s'.queue));
  }

  lemma TakeOtherAhead<R, S>(s: Sys<R, S>, s': Sys<R, S>)
    requires s.worker.phase == Idle && s.queue != [] && !s.queue[0].req.Write?
    requires s' == InPhase(s, Finishing(Some(s.queue[0]), 0)).(queue := s.queue[1..])
    ensures var g := Takes(s, TakeOther).value;
            && LegalGroup(g) && Ahead(s') == HandleGroup(StoreOf(s), g)
            && Reqs(s.queue) == GroupRequests(g) + Reqs(s'.queue)
  {
    hide HandleOther, Reqs, GroupRequests;
    HeadRequest(s.queue);
    OtherRequests(s.queue[0].req);
  }

  lemma OtherRequests<R>(req: Request<R>)
    ensures GroupRequests(Group([], Some(req))) == [req]
  {
    assert |AsRequests<R>([])| == 0;
  }

  lemma WriteRequests<R>(writes: seq<WriteReq>, next: Option<SeqRequest<R>>)
    ensures GroupRequests(Group(writes, RequestOf(next))) == AsRequests<R>(writes) + NextReq(next)
  {
  }

  lemma Regroup<T>(a: seq<T>, b: seq<T>, c: seq<T>)
    ensures a + (b + c) == (a + b) + c
  {
  }

  /** Taking a batch puts its outcome ahead. */
  lemma TakesAhead<R, S>(s: Sys<R, S>, step: Step<R>, s': Sys<R, S>)
    requires Placed(s) && WorkerStep(s, step, s') && (step.TakeWrites? || step.TakeOther?)
    ensures s.worker.phase == Idle && PhaseOk(s'.worker.phase)
    ensures Takes(s, step).Some? && LegalGroup(Takes(s, step).value)
    ensures Ahead(s') == HandleGroup(StoreOf(s), Takes(s, step).value)
    ensures Reqs(s.queue) == GroupRequests(Takes(s, step).value) + Reqs(s'.queue)
  {
    hide Ahead, LegalGroup, HandleGroup, GroupRequests, Data, WritesOf, Reqs;
    match step
    case TakeWrites(n, withNext) =>
      TakeWritesAhead(s, n, withNext, s');
      TakeWritesQueue(s, n, withNext, s');
    case TakeOther => TakeOtherAhead(s, s');
  }

  lemma StepFacts<R(!new), S(!new)>(env: Env<R, S>, run: seq<Sys<R, S>>, i: nat)
    requires EnvOk(env) && IsRun(env, run) && i < |run| && run[i].worker.status == Running
    ensures Inv(env, run[i]) && WritesLast(run[i]) && PhaseOk(run[i].worker.phase) && Sane(run[i].disk)
  {
    hide EnvOk, Init, Next, IndexOk, Flows, BatchOk, RepliesOk, ValidLog, Stream, FirstIsDurable, StateAfter, IsLive, SendOk;
    EveryStateIsOk(env, run, i);
    SeqsAlways(env, run, i);
    forall k | k in run[i].disk ensures run[i].disk[k].dur <= |run[i].disk[k].os| {
      SaneFile(env, run[i], k);
    }
  }

  lemma SaneFile<R(!new), S(!new)>(env: Env<R, S>, s: Sys<R, S>, k: nat)
    requires OnDisk(env, s) && k in s.disk
    ensures s.disk[k].dur <= |s.disk[k].os|
  {
    hide Stream, ReplayChunks, ValidLog, FirstIsDurable;
    if k <= s.hist[s.cur].id {
      assert IsLive(s.hist, s.lo, s.cur, k);
      var i :| s.lo <= i <= s.cur && s.hist[i].id == k;
      assert i < s.cur ==> IsWhole(env.codec, s.hist[i], s.disk);
    }
  }

  lemma StepQueue<R, S>(s: Sys<R, S>, step: Step<R>, s': Sys<R, S>)
    requires Placed(s) && s.worker.status == Running && WorkerStep(s, step, s') && !step.Fail? && !step.Stop?
    ensures s'.worker.status == Running && s'.main == s.main && s'.sending == s.sending
    ensures !step.TakeWrites? && !step.TakeOther? ==> s'.queue == s.queue
    ensures step.TakeWrites? ==> step.count <= |s.queue| && (forall i | 0 <= i < step.count :: s.queue[i].req.Write?)
                                 && (step.withNext ==> step.count < |s.queue|)
    ensures step.TakeOther? ==> s.queue != []
    ensures s'.disk.Keys <= s.disk.Keys
  {
    hide Data, NeedsSync, BatchEnd, RepliesOf, DoesFinish, DoesTakeWrites;
    match step
    case TakeWrites(n, withNext) => TakeShape(s, n, withNext, s');
    case Finish => FinishFrame(s, s');
    case _ =>
  }

  lemma TakeShape<R, S>(s: Sys<R, S>, n: nat, withNext: bool, s': Sys<R, S>)
    requires DoesTakeWrites(s, n, withNext, s')
    ensures s'.worker.status == s.worker.status && s'.main == s.main && s'.sending == s.sending && s'.disk == s.disk
    ensures n <= |s.queue| && (forall i | 0 <= i < n :: s.queue[i].req.Write?) && (withNext ==> n < |s.queue|)
  {
    hide Data;
  }

  // Files that the main thread creates meanwhile

  /** The store with empty files added. */
  function Adding<R>(st: Store<R>, ids: set<nat>): Store<R> {
    st.(disk := WithFiles(st.disk, ids))
  }

  predicate Below<R>(req: Request<R>, bound: nat) {
    match req
    case Write(_) => true
    case AppendFile(e) => e.start < bound
    case RemoveChunks(ids) => forall i | 0 <= i < |ids| :: ids[i] < bound
  }

  predicate AllBelow<R>(q: seq<Request<R>>, bound: nat) {
    forall i | 0 <= i < |q| :: Below(q[i], bound)
  }

  predicate FilesBelow<R>(files: seq<FileEntry<R>>, bound: nat) {
    forall i | 0 <= i < |files| :: files[i].start < bound
  }

  predicate GroupBelow<R>(g: Group<R>, bound: nat) {
    g.next.Some? ==> Below(g.next.value, bound)
  }

  lemma NotHeld<R>(files: seq<FileEntry<R>>, bound: nat, id: nat)
    requires FilesBelow(files, bound) && bound <= id
    ensures !Lists(files, id) && LastStart(files) != Some(id)
  {
  }

  lemma WriteAdds<R>(st: Store<R>, data: seq<Byte>, id: nat)
    requires id !in st.disk && LastStart(st.files) != Some(id)
    ensures WriteTo(Adding(st, {id}), data) == Adding(WriteTo(st, data), {id})
    ensures WriteTo(st, data).disk.Keys == st.disk.Keys && WriteTo(st, data).files == st.files
  {
  }

  lemma SyncAdds<R>(st: Store<R>, sync: bool, id: nat)
    requires id !in st.disk && !Lists(st.files, id)
    ensures SyncIf(Adding(st, {id}), sync) == Adding(SyncIf(st, sync), {id})
    ensures SyncIf(st, sync).disk.Keys == st.disk.Keys
    ensures forall b | FilesBelow(st.files, b) :: FilesBelow(SyncIf(st, sync).files, b)
  {
    if sync && st.files != [] {
      assert SyncedFiles(WithFiles(st.disk, {id}), st.files) == WithFiles(SyncedFiles(st.disk, st.files), {id});
    }
  }

  lemma OtherAdds<R>(st: Store<R>, req: Request<R>, bound: nat, id: nat)
    requires id !in st.disk && FilesBelow(st.files, bound) && bound <= id && Below(req, bound)
    ensures HandleOther(Adding(st, {id}), req) == Adding(HandleOther(st, req), {id})
    ensures id !in HandleOther(st, req).disk && FilesBelow(HandleOther(st, req).files, bound)
  {
    if req.RemoveChunks? {
      assert Without(WithFiles(st.disk, {id}), req.ids) == WithFiles(Without(st.disk, req.ids), {id});
    }
  }

  lemma BatchAdds<R>(st: Store<R>, writes: seq<WriteReq>, bound: nat, id: nat)
    requires id !in st.disk && FilesBelow(st.files, bound) && bound <= id
    ensures HandleWrites(Adding(st, {id}), writes) == Adding(HandleWrites(st, writes), {id})
    ensures id !in HandleWrites(st, writes).disk && FilesBelow(HandleWrites(st, writes).files, bound)
  {
    hide WriteTo, SyncIf, Data, NeedsSync, AllReplies, FilesBelow, Lists;
    NotHeld(st.files, bound, id);
    WriteAdds(st, Data(writes), id);
    SyncAdds(WriteTo(st, Data(writes)), NeedsSync(writes), id);
  }

  /** A file that a batch does not name may be created before it or after it. */
  lemma GroupAdds<R>(st: Store<R>, g: Group<R>, bound: nat, id: nat)
    requires id !in st.disk && FilesBelow(st.files, bound) && bound <= id && GroupBelow(g, bound)
    ensures HandleGroup(Adding(st, {id}), g) == Adding(HandleGroup(st, g), {id})
    ensures id !in HandleGroup(st, g).disk && FilesBelow(HandleGroup(st, g).files, bound)
  {
    hide HandleWrites, HandleOther, FilesBelow, Below, WithFiles;
    var mid := if g.writes == [] then st else HandleWrites(st, g.writes);
    if g.writes != [] {
      BatchAdds(st, g.writes, bound, id);
    }
    if g.next.Some? {
      OtherAdds(mid, g.next.value, bound, id);
    }
  }

  ghost predicate AllLegal<R>(groups: seq<Group<R>>) {
    forall i | 0 <= i < |groups| :: LegalGroup(groups[i])
  }

  ghost predicate GroupsBelow<R>(groups: seq<Group<R>>, bound: nat) {
    forall i | 0 <= i < |groups| :: GroupBelow(groups[i], bound)
  }

  lemma {:induction false} RunAdds<R>(st: Store<R>, groups: seq<Group<R>>, bound: nat, id: nat)
    requires id !in st.disk && FilesBelow(st.files, bound) && bound <= id && GroupsBelow(groups, bound)
    ensures RunGroups(Adding(st, {id}), groups) == Adding(RunGroups(st, groups), {id})
    ensures id !in RunGroups(st, groups).disk && FilesBelow(RunGroups(st, groups).files, bound)
    decreases |groups|
  {
    hide HandleGroup, FilesBelow, GroupBelow, Adding;
    if groups != [] {
      var n := |groups| - 1;
      RunAdds(st, groups[..n], bound, id);
      GroupAdds(RunGroups(st, groups[..n]), groups[n], bound, id);
    }
  }

  lemma AddingTwice<R>(st: Store<R>, ids: set<nat>, id: nat)
    ensures Adding(Adding(st, ids), {id}) == Adding(st, ids + {id})
    ensures Adding(st, {}) == st
  {
    assert WithFiles(WithFiles(st.disk, ids), {id}) == WithFiles(st.disk, ids + {id});
    assert WithFiles(st.disk, {}) == st.disk;
  }

  // What is in order mentions only chunks of the log

  lemma {:induction false} RunsBelow<R>(c: Codec<R>, hist: seq<ChunkLog<R>>, p: Pos, q: seq<Request<R>>, bound: nat)
    requires Runs(c, hist, p, q) && forall i | 0 <= i < |hist| :: hist[i].id < bound
    ensures AllBelow(q, bound)
    decreases |q|
  {
    hide Stream, FirstIsDurable, HasMark;
    if q != [] {
      RunsBelow(c, hist, Advance(p, q[0]), q[1..], bound);
      forall i | 0 <= i < |q| ensures Below(q[i], bound) {
        assert i > 0 ==> q[i] == q[1..][i - 1];
      }
    }
  }

  /** The end of the log is beyond every chunk, every request in order, and every file but one being created. */
  lemma EndIsBound<R(!new), S(!new)>(env: Env<R, S>, s: Sys<R, S>)
    requires Inv(env, s) && s.worker.status == Running
    ensures AllBelow(Todo(s), Last(s.main.offsets))
    ensures FilesBelow(s.worker.files, Last(s.main.offsets))
    ensures forall k | k in s.disk :: k < Last(s.main.offsets) || k in Creating(s)
  {
    hide Stream, ReplayChunks, FirstIsDurable, RepliesOk, BatchOk, EndsAt, ClosedOk, CheckpointFirst, Todo, Runs, IsWhole,
    SendOk, Settled;
    OffsetsAppend(env.codec, s.hist[|s.hist| - 1], env.checkpoint(s.sm));
    var bound := Last(s.main.offsets);
    forall i | 0 <= i < |s.hist| ensures s.hist[i].id < bound {
      EndIsBeyond(env, s.hist, i);
    }
    RunsBelow(env.codec, s.hist, PosOf(s), Todo(s), bound);
    forall k | k in s.disk ensures k < bound || k in Creating(s) {
      if k > s.hist[s.cur].id && k !in Creating(s) {
        assert IsLive(s.hist, s.cur, |s.hist| - 1, k);
      }
    }
  }

  // Segments of a run

  /** A step of either thread, not a failure of the worker and not a crash. */
  ghost predicate Proceeds<R(!new), S>(env: Env<R, S>, s: Sys<R, S>, s': Sys<R, S>) {
    exists step :: Next(env, s, step, s') && !step.Restart? && !step.Fail? && !step.Stop? && !step.DropReceiver?
  }

  /** The request that a step added to the queue. */
  function Queued1<R, S>(s: Sys<R, S>, s': Sys<R, S>): seq<Request<R>> {
    if s'.main.sent > s.main.sent && s'.queue != [] then [s'.queue[|s'.queue| - 1].req] else []
  }

  /** All requests queued between two states, in order. */
  function SentBetween<R, S>(run: seq<Sys<R, S>>, i: nat, j: nat): seq<Request<R>>
    requires i <= j < |run|
    decreases j
  {
    if i == j then [] else SentBetween(run, i, j - 1) + Queued1(run[j - 1], run[j])
  }

  /** All files created between two states. */
  function CreatedBetween<R, S>(run: seq<Sys<R, S>>, i: nat, j: nat): set<nat>
    requires i <= j < |run|
    decreases j
  {
    if i == j then {} else CreatedBetween(run, i, j - 1) + (run[j].disk.Keys - run[j - 1].disk.Keys)
  }

  /** What holds of the batches between states `s0` and `s`, with `created` and `sent` in between. */
  ghost predicate Segment<R, S>(
    s0: Sys<R, S>, s: Sys<R, S>, created: set<nat>, sent: seq<Request<R>>, groups: seq<Group<R>>)
  {
    var bound := Last(s.main.offsets);
    && s.worker.status == Running && PhaseOk(s0.worker.phase) && PhaseOk(s.worker.phase)
    && AllLegal(groups) && GroupsBelow(groups, bound) && FilesBelow(Ahead(s0).files, bound)
    && (forall k | k in Ahead(s0).disk.Keys + created :: k < bound || k in Creating(s))
    && Ahead(s) == RunGroups(Adding(Ahead(s0), created), groups)
    && Reqs(s0.queue) + sent == Flatten(groups) + Reqs(s.queue)
  }

  lemma AheadBelow<R, S>(s: Sys<R, S>, bound: nat)
    requires PhaseOk(s.worker.phase) && FilesBelow(s.worker.files, bound) && AllBelow(Todo(s), bound)
    ensures FilesBelow(Ahead(s).files, bound) && Ahead(s).disk.Keys <= s.disk.Keys
  {
    hide Data, NeedsSync, AllReplies, Lists, Below, Reqs;
    if NextOf(s.worker.phase).Some? {
      NextIsTodo(s);
      OneBelow(NextOf(s.worker.phase).value, bound);
    }
  }

  lemma OneBelow<R>(req: Request<R>, bound: nat)
    requires Below(req, bound)
    ensures req.AppendFile? ==> req.entry.start < bound
  {
  }

  /** The request that ended the batch in hand. */
  function NextOf<R>(phase: Phase<R>): Option<Request<R>> {
    match phase
    case Idle => None
    case Writing(b, _) => RequestOf(b.next)
    case Syncing(b) => RequestOf(b.next)
    case Replying(b, _) => RequestOf(b.next)
    case Finishing(next, _) => RequestOf(next)
  }

  lemma NextIsTodo<R, S>(s: Sys<R, S>)
    requires NextOf(s.worker.phase).Some?
    ensures NextOf(s.worker.phase).value in Todo(s)
  {
    var k := if s.worker.phase.Writing? || s.worker.phase.Syncing? then 1 else 0;
    assert Inflight(s.worker.phase)[k] == NextOf(s.worker.phase).value;
    assert Todo(s)[k] == Inflight(s.worker.phase)[k];
  }

  lemma SegmentStarts<R(!new), S(!new)>(env: Env<R, S>, s: Sys<R, S>)
    requires Inv(env, s) && s.worker.status == Running && PhaseOk(s.worker.phase)
    ensures Segment(s, s, {}, [], [])
  {
    hide Inv, Ahead, Adding, FilesBelow, AllBelow, Reqs, Todo;
    EndIsBound(env, s);
    AheadBelow(s, Last(s.main.offsets));
    AddingTwice(Ahead(s), {}, 0);
    assert Reqs(s.queue) + [] == [] + Reqs(s.queue);
  }

  /** A step of the worker on what it has in hand. */
  lemma SegmentWorks<R(!new), S(!new)>(
    env: Env<R, S>, s0: Sys<R, S>, s: Sys<R, S>, step: Step<R>, s': Sys<R, S>,
    created: set<nat>, sent: seq<Request<R>>, groups: seq<Group<R>>)
    requires Segment(s0, s, created, sent, groups) && WritesLast(s) && Inv(env, s)
    requires WorkerStep(s, step, s') && !step.Fail? && !step.Stop? && !step.DropReceiver?
    requires !step.TakeWrites? && !step.TakeOther?
    ensures Segment(s0, s', created, sent, groups)
  {
    hide Inv, WorkerStep, WritesLast, Ahead, AllLegal, GroupsBelow, FilesBelow, Adding, RunGroups, Flatten;
    WritesLastPlaced(s);
    StepQueue(s, step, s');
    KeepsAhead(s, step, s');
  }

  /** The worker takes a batch. */
  lemma SegmentTakes<R(!new), S(!new)>(
    env: Env<R, S>, s0: Sys<R, S>, s: Sys<R, S>, step: Step<R>, s': Sys<R, S>,
    created: set<nat>, sent: seq<Request<R>>, groups: seq<Group<R>>) returns (groups': seq<Group<R>>)
    requires Segment(s0, s, created, sent, groups) && Placed(s) && Inv(env, s)
    requires WorkerStep(s, step, s') && (step.TakeWrites? || step.TakeOther?)
    ensures Segment(s0, s', created, sent, groups')
  {
    hide Inv, WorkerStep, FilesBelow, Adding, HandleGroup, GroupRequests, LegalGroup, GroupBelow, Reqs, Takes, AllBelow;
    StepQueue(s, step, s');
    TakesAhead(s, step, s');
    var g := Takes(s, step).value;
    groups' := groups + [g];
    assert groups'[..|groups|] == groups;
    EndIsBound(env, s);
    TakenBelow(s, g, Reqs(s'.queue), Last(s.main.offsets));
    Regroup(Flatten(groups), GroupRequests(g), Reqs(s'.queue));
  }

  lemma TakenBelow<R, S>(s: Sys<R, S>, g: Group<R>, rest: seq<Request<R>>, bound: nat)
    requires s.worker.phase == Idle && AllBelow(Todo(s), bound) && Reqs(s.queue) == GroupRequests(g) + rest
    ensures GroupBelow(g, bound)
  {
    hide Below, Reqs;
    if g.next.Some? {
      var k := |g.writes|;
      assert GroupRequests(g)[k] == g.next.value;
      assert Reqs(s.queue)[k] == g.next.value;
      assert Todo(s)[k] == Reqs(s.queue)[k];
    }
  }

  /** A step of the main thread that creates no file. */
  lemma SegmentWaits<R(!new), S(!new)>(
    env: Env<R, S>, s0: Sys<R, S>, s: Sys<R, S>, step: Step<R>, s': Sys<R, S>,
    created: set<nat>, sent: seq<Request<R>>, groups: seq<Group<R>>)
    requires Segment(s0, s, created, sent, groups) && Placed(s) && Inv(env, s) && EnvOk(env)
    requires MainStep(env, s, step, s') && !step.Rotate?
    ensures Segment(s0, s', created, sent + Queued1(s, s'), groups)
  {
    hide Inv, MainStep, Ahead, Adding, RunGroups, Flatten, Reqs;
    MainFrame(env, s, step, s');
    SameAhead(s, s');
    MainQueues(env, s, step, s');
    MainBound(env, s, step, s');
    Grows(groups, Ahead(s0).files, Last(s.main.offsets), Last(s'.main.offsets));
    Regroup(Reqs(s0.queue), sent, Queued1(s, s'));
    Regroup(Flatten(groups), Reqs(s.queue), Queued1(s, s'));
  }

  lemma SameAhead<R, S>(s: Sys<R, S>, s': Sys<R, S>)
    requires s'.worker == s.worker && s'.disk == s.disk && s'.replies == s.replies && PhaseOk(s.worker.phase)
    ensures Ahead(s') == Ahead(s)
  {
  }

  lemma Grows<R>(groups: seq<Group<R>>, files: seq<FileEntry<R>>, bound: nat, bound': nat)
    requires GroupsBelow(groups, bound) && FilesBelow(files, bound) && bound <= bound'
    ensures GroupsBelow(groups, bound') && FilesBelow(files, bound')
  {
  }

  lemma MainQueues<R(!new), S(!new)>(env: Env<R, S>, s: Sys<R, S>, step: Step<R>, s': Sys<R, S>)
    requires Inv(env, s) && s.worker.status == Running && Placed(s) && MainStep(env, s, step, s')
    ensures Reqs(s'.queue) == Reqs(s.queue) + Queued1(s, s')
  {
    assert Reqs(s.queue) + [] == Reqs(s.queue);
    if step.Enqueue? {
      RotatedSent(env.codec, s.main, env.checkpoint(s.sm));
      EnqueueQueues(env, s, s');
    } else {
      QueueStays(env, s, step, s');
    }
  }

  lemma EnqueueQueues<R(!new), S(!new)>(env: Env<R, S>, s: Sys<R, S>, s': Sys<R, S>)
    requires DoesEnqueue(env, s, s') && Rotated(env.codec, s.main, env.checkpoint(s.sm)).sent == s.main.sent
    ensures Reqs(s'.queue) == Reqs(s.queue) + Queued1(s, s')
  {
    hide Rotated, WithChunk;
    assert Reqs(s'.queue) == Reqs(s.queue) + [s.sending.value];
  }

  lemma QueueStays<R(!new), S(!new)>(env: Env<R, S>, s: Sys<R, S>, step: Step<R>, s': Sys<R, S>)
    requires Inv(env, s) && s.worker.status == Running && Placed(s) && MainStep(env, s, step, s') && !step.Enqueue?
    ensures s'.queue == s.queue && s'.main.sent == s.main.sent
  {
    hide Core, Settled, IsFull, WithChunk, WithRecord, IdsFrom, FirstIsDurable, Promised, PendingWrite, Rotated, Appended;
    if step.Append? {
      AppendedSent(env.codec, s.main, step.rec);
    }
  }

  /** The end of the log never moves back, and moves past a file once that file is announced. */
  lemma MainBound<R(!new), S(!new)>(env: Env<R, S>, s: Sys<R, S>, step: Step<R>, s': Sys<R, S>)
    requires Inv(env, s) && s.worker.status == Running && EnvOk(env) && Placed(s)
    requires MainStep(env, s, step, s') && !step.Rotate?
    ensures Last(s.main.offsets) <= Last(s'.main.offsets)
    ensures forall k | k in Creating(s) :: k < Last(s'.main.offsets) || k in Creating(s')
  {
    hide Core, Settled, IsFull, WithChunk, WithRecord, IdsFrom, FirstIsDurable, Promised, PendingWrite, Lawful;
    if step.Enqueue? {
      var ck := env.checkpoint(s.sm);
      assert Encodable(env.codec, ck);
      HonestSize(env.codec, ck);
    }
  }

  lemma HonestSize<R(!new)>(c: Codec<R>, r: R)
    requires Lawful(c) && Encodable(c, r)
    ensures c.encode(r).size > 0
  {
    assert SizeIsHonest(c, r);
  }

  /** A rotation creates its file: it may as well have existed from the start of the segment. */
  lemma SegmentRotates<R(!new), S(!new)>(
    env: Env<R, S>, s0: Sys<R, S>, s: Sys<R, S>, s': Sys<R, S>,
    created: set<nat>, sent: seq<Request<R>>, groups: seq<Group<R>>)
    requires Segment(s0, s, created, sent, groups) && WritesLast(s) && Inv(env, s)
    requires MainStep(env, s, Rotate, s')
    ensures Segment(s0, s', created + {Last(s.main.offsets)}, sent, groups)
    ensures s'.disk.Keys - s.disk.Keys == {Last(s.main.offsets)} && Queued1(s, s') == []
  {
    hide Inv, Ahead, RunGroups, Flatten, Reqs, Adding, IsFull, Settled, GroupsBelow, FilesBelow;
    var id, st := Last(s.main.offsets), Adding(Ahead(s0), created);
    AddingFiles(Ahead(s0), created);
    RunAdds(st, groups, id, id);
    AddingTwice(Ahead(s0), created, id);
    RotateAhead(env, s, s');
  }

  lemma AddingFiles<R>(st: Store<R>, ids: set<nat>)
    ensures Adding(st, ids).files == st.files && Adding(st, ids).disk.Keys == st.disk.Keys + ids
  {
  }

  lemma RotateAhead<R(!new), S(!new)>(env: Env<R, S>, s: Sys<R, S>, s': Sys<R, S>)
    requires WritesLast(s) && Inv(env, s) && s.worker.status == Running && PhaseOk(s.worker.phase)
    requires MainStep(env, s, Rotate, s')
    ensures s'.worker == s.worker && Ahead(s') == Adding(Ahead(s), {Last(s.main.offsets)})
  {
    hide Inv, IsFull, Settled, Data, NeedsSync, AllReplies, Todo, WriteTo, SyncIf, HandleOther, FilesBelow, Lists, SyncAll, AllBelow;
    var id, st := Last(s.main.offsets), StoreOf(s);
    EndIsBound(env, s);
    assert StoreOf(s') == Adding(st, {id}) by {
      assert WithFiles(s.disk, {id}) == s'.disk;
    }
    NotHeld(st.files, id, id);
    match s.worker.phase
    case Idle =>
    case Writing(b, rest) =>
      WriteAdds(st, rest, id);
      SyncAdds(WriteTo(st, rest), NeedsSync(b.writes), id);
      NextAdds(s, Replied(SyncIf(WriteTo(st, rest), NeedsSync(b.writes)), b.writes), id);
    case Syncing(b) =>
      SyncAdds(st, true, id);
      SyncIfTrue(st);
      SyncIfTrue(Adding(st, {id}));
      NextAdds(s, Replied(SyncAll(st), b.writes), id);
    case Replying(b, i) => NextAdds(s, Replied(st, b.writes[i..]), id);
    case Finishing(next, _) => NextAdds(s, st, id);
  }

  lemma SyncIfTrue<R>(st: Store<R>)
    ensures SyncIf(st, true) == SyncAll(st)
  {
  }

  lemma NextAdds<R, S>(s: Sys<R, S>, st: Store<R>, id: nat)
    requires id !in st.disk && FilesBelow(st.files, id) && AllBelow(Todo(s), id)
    ensures HandleNext(Adding(st, {id}), NextOf(s.worker.phase)) == Adding(HandleNext(st, NextOf(s.worker.phase)), {id})
  {
    hide Todo, HandleOther, Below, FilesBelow;
    if NextOf(s.worker.phase).Some? {
      NextIsTodo(s);
      OtherAdds(st, NextOf(s.worker.phase).value, id, id);
    }
  }

  lemma SegmentStep<R(!new), S(!new)>(
    env: Env<R, S>, s0: Sys<R, S>, s: Sys<R, S>, s': Sys<R, S>, created: set<nat>, sent: seq<Request<R>>, groups: seq<Group<R>>)
    returns (groups': seq<Group<R>>)
    requires Segment(s0, s, created, sent, groups) && WritesLast(s) && Inv(env, s) && EnvOk(env) && Proceeds(env, s, s')
    ensures Segment(s0, s', created + (s'.disk.Keys - s.disk.Keys), sent + Queued1(s, s'), groups')
  {
    hide Inv, WorkerStep, MainStep, Segment, WritesLast, EnvOk, Queued1;
    groups' := groups;
    RunningOf(s0, s, created, sent, groups);
    WritesLastPlaced(s);
    var step :| Next(env, s, step, s') && !step.Restart? && !step.Fail? && !step.Stop? && !step.DropReceiver?;
    if MainStep(env, s, step, s') {
      MainFrame(env, s, step, s');
      if step.Rotate? {
        SegmentRotates(env, s0, s, s', created, sent, groups);
        assert sent + [] == sent;
      } else {
        SegmentWaits(env, s0, s, step, s', created, sent, groups);
        assert created + (s'.disk.Keys - s.disk.Keys) == created;
      }
    } else {
      StepQueue(s, step, s');
      NothingQueued(s, s');
      assert created + (s'.disk.Keys - s.disk.Keys) == created && sent + Queued1(s, s') == sent;
      if step.TakeWrites? || step.TakeOther? {
        groups' := SegmentTakes(env, s0, s, step, s', created, sent, groups);
      } else {
        SegmentWorks(env, s0, s, step, s', created, sent, groups);
      }
    }
  }

  lemma NothingQueued<R, S>(s: Sys<R, S>, s': Sys<R, S>)
    requires s'.main == s.main
    ensures Queued1(s, s') == []
  {
  }

  lemma RunningOf<R, S>(s0: Sys<R, S>, s: Sys<R, S>, created: set<nat>, sent: seq<Request<R>>, groups: seq<Group<R>>)
    requires Segment(s0, s, created, sent, groups)
    ensures s.worker.status == Running
  {
  }

  lemma WritesLastPlaced<R, S>(s: Sys<R, S>)
    requires WritesLast(s)
    ensures Placed(s)
  {
  }

  /**
   What the worker does between two states is to handle the requests it took,
   in batches, whatever the main thread sends and creates meanwhile.
   */
  lemma {:induction false} SegmentIsGroups<R(!new), S(!new)>(env: Env<R, S>, run: seq<Sys<R, S>>, i: nat, j: nat)
    returns (groups: seq<Group<R>>)
    requires EnvOk(env) && IsRun(env, run) && i <= j < |run| && run[i].worker.status == Running
    requires forall n | i <= n < j :: Proceeds(env, run[n], run[n + 1])
    ensures Segment(run[i], run[j], CreatedBetween(run, i, j), SentBetween(run, i, j), groups)
    decreases j
  {
    hide EnvOk, Init, Next, Inv, WritesLast, Sane, Segment, Proceeds, Queued1;
    if i == j {
      StepFacts(env, run, i);
      SegmentStarts(env, run[i]);
      groups := [];
    } else {
      groups := SegmentIsGroups(env, run, i, j - 1);
      RunningOf(run[i], run[j - 1], CreatedBetween(run, i, j - 1), SentBetween(run, i, j - 1), groups);
      StepFacts(env, run, j - 1);
      assert Proceeds(env, run[j - 1], run[j - 1 + 1]);
      groups := SegmentStep(
        env, run[i], run[j - 1], run[j], CreatedBetween(run, i, j - 1), SentBetween(run, i, j - 1), groups);
    }
  }

  /**
   From idle to idle, whatever batches the worker formed and whatever the main
   thread appended, sent and rotated meanwhile, the files and replies are those
   of a worker that handled the same requests one at a time, and at least as
   much is durable.
   */
  lemma WorkerIsGroupCommit<R(!new), S(!new)>(env: Env<R, S>, run: seq<Sys<R, S>>, i: nat, j: nat)
    requires EnvOk(env) && IsRun(env, run) && i <= j < |run| && run[i].worker.status == Running
    requires forall n | i <= n < j :: Proceeds(env, run[n], run[n + 1])
    requires run[i].worker.phase == Idle && run[j].worker.phase == Idle
    ensures run[j].worker.status == Running
    ensures var asked := Reqs(run[i].queue) + SentBetween(run, i, j);
            && |run[j].queue| <= |asked|
            && var n := |asked| - |run[j].queue|;
            && Reqs(run[j].queue) == asked[n..]
            && Refines(RunOnes(Adding(StoreOf(run[i]), CreatedBetween(run, i, j)), asked[..n]), StoreOf(run[j]))
  {
    hide EnvOk, Init, Next, Proceeds, RunGroups, RunOnes, Refines, LegalGroup, Inv, WritesLast, Adding, WithFiles;
    var groups := SegmentIsGroups(env, run, i, j);
    StepFacts(env, run, i);
    var created := CreatedBetween(run, i, j);
    AddingSane(StoreOf(run[i]), created);
    GroupCommitRefines(Adding(StoreOf(run[i]), created), groups);
    var asked := Reqs(run[i].queue) + SentBetween(run, i, j);
    assert asked[..|asked| - |run[j].queue|] == Flatten(groups);
  }

  lemma AddingSane<R>(st: Store<R>, ids: set<nat>)
    requires Sane(st.disk)
    ensures Sane(Adding(st, ids).disk)
  {
  }

  /** With worker steps only, nothing is sent or created. */
  lemma {:induction false} WorkerAlone<R(!new), S(!new)>(env: Env<R, S>, run: seq<Sys<R, S>>, i: nat, j: nat)
    requires i <= j < |run| && forall n | i <= n < j :: WorksOn(run[n], run[n + 1])
    ensures SentBetween(run, i, j) == [] && CreatedBetween(run, i, j) == {}
    ensures forall n | i <= n < j :: Proceeds(env, run[n], run[n + 1])
    decreases j
  {
    hide WorksOn, Proceeds, Queued1;
    if i < j {
      WorkerAlone(env, run, i, j - 1);
      assert WorksOn(run[j - 1], run[j - 1 + 1]);
      AloneStep(env, run[j - 1], run[j]);
    }
  }

  lemma AloneStep<R(!new), S(!new)>(env: Env<R, S>, s: Sys<R, S>, s': Sys<R, S>)
    requires WorksOn(s, s')
    ensures Proceeds(env, s, s') && Queued1(s, s') == [] && s'.disk.Keys - s.disk.Keys == {}
  {
    hide WorkerStep, MainStep;
    var step :| WorkerStep(s, step, s') && !step.Fail? && !step.Stop?;
    StepQueue(s, step, s');
    NotDropped(s, step, s');
    assert Next(env, s, step, s');
  }

  lemma NotDropped<R, S>(s: Sys<R, S>, step: Step<R>, s': Sys<R, S>)
    requires Placed(s) && s.worker.status == Running && WorkerStep(s, step, s')
    ensures !step.DropReceiver? && !step.Restart?
  {
  }

  /** The same for a worker that is left alone. */
  lemma AloneIsGroupCommit<R(!new), S(!new)>(env: Env<R, S>, run: seq<Sys<R, S>>, i: nat, j: nat)
    requires EnvOk(env) && IsRun(env, run) && i <= j < |run| && run[i].worker.status == Running
    requires forall n | i <= n < j :: WorksOn(run[n], run[n + 1])
    requires run[i].worker.phase == Idle && run[j].worker.phase == Idle && run[j].queue == []
    ensures Refines(RunOnes(StoreOf(run[i]), Reqs(run[i].queue)), StoreOf(run[j]))
  {
    hide EnvOk, IsRun, WorksOn, Proceeds, Refines, RunOnes, Adding, SentBetween, CreatedBetween;
    WorkerAlone(env, run, i, j);
    WorkerIsGroupCommit(env, run, i, j);
    AddingTwice(StoreOf(run[i]), {}, 0);
    var asked := Reqs(run[i].queue);
    assert asked + [] == asked && asked[..|asked|] == asked;
  }
}
