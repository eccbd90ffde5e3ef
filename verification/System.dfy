/**
 The running log as a step system: the thread that appends and rotates, the
 flush worker with its current batch, the queue between them, the files, and
 crashes followed by recovery.
 */
module System {
  import opened Bytes
  import opened Codec
  import opened Log
  import opened Requests
  import opened Backlog
  import opened Recovery
  import opened CrashImages
  import opened RecoveredLog

  // The main thread

  datatype ClosedChunk<+R> = ClosedChunk(offsets: seq<nat>, state: R)

  /** The open chunk's offsets and pending bytes, the closed chunks in order, and the send side of the queue. */
  datatype Main<+R> = Main(
    offsets: seq<nat>, pending: seq<Byte>, closed: seq<ClosedChunk<R>>, sent: nat, open: bool)

  function Appended<R>(c: Codec<R>, m: Main<R>, r: R): Main<R> {
    match c.encode(r)
    case Encoded(bytes, size) => m.(offsets := m.offsets + [Last(m.offsets) + size], pending := m.pending + bytes)
    case Rejected(_) => m
  }

  function PendingWrite<R>(m: Main<R>, sync: bool, callback: Option<nat>): WriteReq {
    WriteReq(Last(m.offsets), m.pending, sync, callback)
  }

  predicate IsFull<R, S>(env: Env<R, S>, m: Main<R>) {
    m.offsets != [] && (|m.offsets| - 1 >= env.maxRecords || Last(m.offsets) - m.offsets[0] >= env.maxSize)
  }

  /** The open chunk is closed and a chunk that starts with checkpoint `ck` takes its place. */
  function Rotated<R>(c: Codec<R>, m: Main<R>, ck: R): Main<R> {
    var started := Main([Last(m.offsets)], [], m.closed + [ClosedChunk(m.offsets, ck)], m.sent, m.open);
    Appended(c, started, ck)
  }

  // The worker

  datatype Batch<+R> = Batch(writes: seq<WriteReq>, lastSeq: nat, next: Option<SeqRequest<R>>)

  datatype Phase<+R> =
    | Idle
    | Writing(batch: Batch<R>, rest: seq<Byte>)  // `rest` is not yet written
    | Syncing(batch: Batch<R>)
    | Replying(batch: Batch<R>, replied: nat)
    | Finishing(next: Option<SeqRequest<R>>, lastSeq: nat)

  datatype Status = Running | Stopped | Failed

  /** `rx` is the receiving end of the queue, which outlives the loop that read from it. */
  datatype Worker<+R> = Worker(files: seq<FileEntry<R>>, phase: Phase<R>, done: nat, status: Status, rx: bool)

  /** A chunk-persisted notification. */
  datatype Note<+R> = Note(start: nat, synced: nat, prev: Option<R>)

  /** A result delivered to the callback of a write. */
  datatype Reply = Reply(callback: nat, upto: nat, sync: bool, ok: bool)

  // The system

  /**
   `hist` is the log as appended, purged chunks included; `lo` the first chunk
   on disk, `cur` the chunk the worker writes, `drained` the first chunk in
   `main.closed`, and `purged` the first chunk no removal was requested for.
   `sending` is a request whose bytes are reserved and which is not yet in the
   queue. `used` is what was reserved less what was given back, which is
   negative when bytes were given back twice; the program keeps it in an
   unsigned counter. With `careful`, removals are requested only when the queue makes the
   first record of the oldest remaining chunk durable before their turn.
   */
  datatype Sys<+R, +S> = Sys(
    main: Main<R>,
    sending: Option<Request<R>>,
    queue: seq<SeqRequest<R>>,
    used: int,
    worker: Worker<R>,
    disk: Disk,
    sm: S,
    replies: seq<Reply>,
    notes: seq<Note<R>>,
    hist: seq<ChunkLog<R>>,
    lo: nat,
    cur: nat,
    drained: nat,
    purged: nat,
    careful: bool)

  /** The requests the worker has taken and not finished, a batch counting as one write. */
  function Inflight<R>(phase: Phase<R>): seq<Request<R>> {
    match phase
    case Idle => []
    case Writing(b, rest) => [Write(WriteReq(BatchEnd(b), rest, NeedsSync(b.writes), None))] + NextReq(b.next)
    case Syncing(b) => [Write(WriteReq(BatchEnd(b), [], true, None))] + NextReq(b.next)
    case Replying(b, _) => NextReq(b.next)
    case Finishing(next, _) => NextReq(next)
  }

  function BatchEnd<R>(b: Batch<R>): nat {
    if b.writes == [] then 0 else b.writes[|b.writes| - 1].upto
  }

  function NextReq<R>(next: Option<SeqRequest<R>>): seq<Request<R>> {
    match next
    case None => []
    case Some(sr) => [sr.req]
  }

  /** A reserved request that only has to be queued; a new file is announced together with its chunk. */
  function BeingSent<R>(sending: Option<Request<R>>): seq<Request<R>> {
    if sending.Some? && !sending.value.AppendFile? then [sending.value] else []
  }

  /** The requests the worker has not taken. */
  function Waiting<R, S>(s: Sys<R, S>): seq<Request<R>> {
    Reqs(s.queue) + BeingSent(s.sending)
  }

  function Todo<R, S>(s: Sys<R, S>): seq<Request<R>> {
    Inflight(s.worker.phase) + Waiting(s)
  }

  /** The file of a rotation that is under way. */
  function Creating<R, S>(s: Sys<R, S>): set<nat> {
    if s.sending.Some? && s.sending.value.AppendFile? then {s.sending.value.entry.start} else {}
  }

  predicate Placed<R, S>(s: Sys<R, S>) {
    s.cur < |s.hist| && s.hist[s.cur].id in s.disk
  }

  function CurFile<R, S>(s: Sys<R, S>): File
    requires Placed(s)
  {
    s.disk[s.hist[s.cur].id]
  }

  /** The end of the current file has been announced. */
  predicate IsNoted<R, S>(s: Sys<R, S>)
    requires Placed(s)
  {
    && s.notes != []
    && s.notes[|s.notes| - 1].start == s.hist[s.cur].id
    && s.notes[|s.notes| - 1].synced == s.hist[s.cur].id + |CurFile(s).os|
  }

  function PosOf<R, S>(s: Sys<R, S>): Pos
    requires Placed(s)
  {
    Pos(s.cur, CurFile(s).os, CurFile(s).dur, IsNoted(s), s.lo, s.careful)
  }

  /** Where the worker will be when everything queued is done. */
  function Promised<R, S>(s: Sys<R, S>): Pos
    requires Placed(s)
  {
    Final(PosOf(s), Todo(s))
  }

  /** Everything appended is queued, and the last of it with a sync. */
  predicate Settled<R, S>(s: Sys<R, S>)
    requires Placed(s)
  {
    var p := Promised(s);
    s.main.pending == [] && p.noted && p.dur == |p.have|
  }

  /** The global offset below which every byte of the log is durable. */
  function DurableEnd<R, S>(s: Sys<R, S>): nat
    requires Placed(s)
  {
    s.hist[s.cur].id + CurFile(s).dur
  }

  function Synced(disk: Disk, id: nat): Disk {
    if id in disk then disk[id := File(disk[id].os, |disk[id].os|)] else disk
  }

  /** The condition under which a power loss cannot take the last of a purged log. */
  ghost predicate OldestDurable<R, S>(c: Codec<R>, s: Sys<R, S>) {
    s.lo > 0 ==> Placed(s) && FirstIsDurable(c, s.hist, s.cur, CurFile(s).dur, s.lo)
  }

  // Crashes

  /** `p` bytes of the file survive, then perhaps zeros up to its old length. */
  ghost predicate Survives<R>(c: Codec<R>, recs: seq<R>, f: File, f': File, p: nat) {
    && f.dur <= p <= |f.os|
    && p <= |f'.os| <= |f.os|
    && f'.os[..p] == f.os[..p] && AllZero(f'.os[p..])
    && (p < |f'.os| ==> exists k: nat :: k <= |recs| && p == |Stream(c, recs[..k])|)
    && f.dur <= f'.dur <= |f'.os|
  }

  /** What a crash can leave: of each file at least its durable part and at most its bytes. */
  ghost predicate CrashImage<R, S>(c: Codec<R>, s: Sys<R, S>, disk': Disk) {
    && disk'.Keys == s.disk.Keys
    && (forall i | 0 <= i < |s.hist| && s.hist[i].id in s.disk ::
          exists p: nat :: Survives(c, s.hist[i].recs, s.disk[s.hist[i].id], disk'[s.hist[i].id], p))
    && (forall k | k in s.disk && s.disk[k] == EMPTY_FILE :: disk'[k] == EMPTY_FILE)
  }

  function ClosedOf<R>(chunks: seq<LoadedChunk<R>>): (closed: seq<ClosedChunk<R>>)
    ensures |closed| == |chunks|
    ensures forall i | 0 <= i < |chunks| :: closed[i] == ClosedChunk(chunks[i].offsets, chunks[i].state)
  {
    seq(|chunks|, i requires 0 <= i < |chunks| => ClosedChunk(chunks[i].offsets, chunks[i].state))
  }

  /** The system as `open` leaves it; replies are what earlier clients have seen. */
  function Booted<R, S>(r: Recovered<R, S>, hist: seq<ChunkLog<R>>, lo: nat, replies: seq<Reply>, careful: bool): Sys<R, S>
    requires hist != []
  {
    var prev := if r.closed == [] then None else Some(r.closed[|r.closed| - 1].state);
    var start := if r.open == [] then 0 else r.open[0];
    Sys(Main(r.open, [], ClosedOf(r.closed), 0, true), None, [], 0,
        Worker([FileEntry(start, prev)], Idle, 0, Running, true),
        r.disk, r.sm, replies, [], hist, lo, |hist| - 1, lo, lo, careful)
  }

  // Steps

  datatype Step<+R> =
    | Append(rec: R)
    | SendPending(sync: bool, callback: Option<nat>)
    | Rotate
    | Drain(count: nat)
    | SendRemove(count: nat)
    | Enqueue
    | SendFails
    | Close
    | TakeWrites(count: nat, withNext: bool)
    | TakeOther
    | WriteSome(bytes: nat)
    | WriteDone
    | SyncOlder
    | SyncLast
    | ReplyOne
    | Release
    | Unlink
    | Finish
    | Fail(errors: seq<Reply>)
    | Stop
    | DropReceiver
    | Restart(image: Disk, ids: seq<nat>, whole: nat)

  /** The main thread is neither inside a send nor waiting in `shutdown`. */
  predicate MainFree<R, S>(s: Sys<R, S>) {
    s.sending == None && (s.main.open || s.worker.status != Running)
  }

  const USIZE: nat := 0x1_0000_0000_0000_0000

  /** The 64-bit counter that stands for a balance: below zero it wraps around, and no balance reaches its upper end. */
  function Counter(balance: int): nat {
    if balance >= 0 then balance else balance % USIZE
  }

  /** `acquire` lets a request of `size` bytes through. */
  predicate Fits<R, S>(env: Env<R, S>, s: Sys<R, S>, size: nat) {
    Counter(s.used) == 0 || Counter(s.used + size) <= env.queueLimit
  }

  function SizeOf<R>(req: Request<R>): nat {
    match req
    case Write(w) => |w.data|
    case _ => 0
  }

  /** The bytes of a request are reserved. */
  function Reserving<R, S>(s: Sys<R, S>, req: Request<R>): Sys<R, S> {
    s.(sending := Some(req), used := s.used + SizeOf(req))
  }

  /** The reserved request gets its number and joins the queue. */
  function Enqueued<R, S>(s: Sys<R, S>, req: Request<R>): Sys<R, S> {
    s.(sending := None,
    main := s.main.(sent := s.main.sent + 1),
    queue := s.queue + [SeqRequest(s.main.sent + 1, req)])
  }

  /** The first half of a send; a log that was shut down refuses it. */
  ghost predicate Reserves<R, S>(env: Env<R, S>, s: Sys<R, S>, req: Request<R>, s': Sys<R, S>) {
    if s.main.open then Fits(env, s, SizeOf(req)) && s' == Reserving(s, req) else s' == s
  }

  /** A rotation creates the file of the next chunk and starts to announce it. */
  ghost predicate DoesRotate<R, S>(env: Env<R, S>, s: Sys<R, S>, s': Sys<R, S>)
    requires Placed(s)
  {
    var id, ck := Last(s.main.offsets), env.checkpoint(s.sm);
    && IsFull(env, s.main) && id !in s.disk && s.main.open && Fits(env, s, 0)
    && (s.worker.status == Running ==> Settled(s))
    && s' == Reserving(s.(disk := s.disk[id := EMPTY_FILE]), AppendFile(FileEntry(id, Some(ck))))
  }

  /** Once its file is announced, the new chunk takes the place of the open one. */
  function Swapped<R, S>(env: Env<R, S>, s: Sys<R, S>): Sys<R, S>
    requires s.hist != []
  {
    s.(main := Rotated(env.codec, s.main, env.checkpoint(s.sm)), hist := WithChunk(env, s.hist))
  }

  ghost predicate DoesEnqueue<R, S>(env: Env<R, S>, s: Sys<R, S>, s': Sys<R, S>) {
    && s.sending.Some? && s.worker.rx && s.hist != []
    && s' == Enqueued(if s.sending.value.AppendFile? then Swapped(env, s) else s, s.sending.value)
  }

  /** The queue has no receiver any more: the number is spent and the bytes are given back. */
  ghost predicate DoesSendFail<R, S>(s: Sys<R, S>, s': Sys<R, S>) {
    && s.sending.Some? && !s.worker.rx
    && s' == s.(sending := None, main := s.main.(sent := s.main.sent + 1), used := s.used - SizeOf(s.sending.value))
  }

  /** Ids of `n` chunks from chunk `from`. */
  function IdsFrom<R>(hist: seq<ChunkLog<R>>, from: nat, n: nat): (ids: seq<nat>)
    requires from + n <= |hist|
    ensures |ids| == n && forall j | 0 <= j < n :: ids[j] == hist[from + j].id
    decreases n
  {
    if n == 0 then [] else IdsFrom(hist, from, n - 1) + [hist[from + n - 1].id]
  }

  ghost predicate DoesSendRemove<R, S>(env: Env<R, S>, s: Sys<R, S>, n: nat, s': Sys<R, S>)
    requires Placed(s)
  {
    && s.purged + n <= s.drained < |s.hist|
    && (s.worker.status == Running && s.careful && n > 0 ==>
          FirstIsDurable(env.codec, s.hist, Promised(s).cur, Promised(s).dur, s.purged + n))
    && Reserves(env, s.(purged := s.purged + n), RemoveChunks(IdsFrom(s.hist, s.purged, n)), s')
  }

  function WritesOf<R>(queue: seq<SeqRequest<R>>): (writes: seq<WriteReq>)
    requires forall i | 0 <= i < |queue| :: queue[i].req.Write?
    ensures |writes| == |queue| && forall i | 0 <= i < |queue| :: writes[i] == queue[i].req.write
  {
    seq(|queue|, i requires 0 <= i < |queue| => queue[i].req.write)
  }

  ghost predicate DoesTakeWrites<R, S>(s: Sys<R, S>, n: nat, withNext: bool, s': Sys<R, S>) {
    && s.worker.phase == Idle && 0 < n <= |s.queue|
    && (forall i | 0 <= i < n :: s.queue[i].req.Write?)
    && (withNext ==> n < |s.queue| && !s.queue[n].req.Write?)
    && var writes := WritesOf(s.queue[..n]);
       var next := if withNext then Some(s.queue[n]) else None;
       s' == s.(queue := if withNext then s.queue[n + 1..] else s.queue[n..],
             worker := s.worker.(phase := Writing(Batch(writes, s.queue[n - 1].seqNo, next), Data(writes))))
  }

  /** Bytes appended to the file the worker writes. */
  function Grown<R, S>(s: Sys<R, S>, data: seq<Byte>): Disk
    requires Placed(s)
  {
    s.disk[s.hist[s.cur].id := File(CurFile(s).os + data, CurFile(s).dur)]
  }

  function Max(a: nat, b: nat): nat {
    if a < b then b else a
  }

  function InPhase<R, S>(s: Sys<R, S>, phase: Phase<R>): Sys<R, S> {
    s.(worker := s.worker.(phase := phase))
  }

  function Completed<R, S>(s: Sys<R, S>, seqNo: nat): Sys<R, S> {
    s.(worker := s.worker.(phase := Idle, done := Max(s.worker.done, seqNo)))
  }

  ghost predicate DoesFinish<R, S>(s: Sys<R, S>, s': Sys<R, S>) {
    && s.worker.phase.Finishing?
    && var n := s.worker.phase.lastSeq;
       match s.worker.phase.next
       case None => s' == Completed(s, n)
       case Some(sr) =>
         match sr.req
         case Write(_) => false
         case AppendFile(e) =>
           s' == Completed(s.(worker := s.worker.(files := s.worker.files + [e]), cur := s.cur + 1), Max(n, sr.seqNo))
         case RemoveChunks(ids) => ids == [] && s' == Completed(s, Max(n, sr.seqNo))
  }

  ghost predicate DoesUnlink<R, S>(s: Sys<R, S>, s': Sys<R, S>) {
    && s.worker.phase.Finishing? && s.worker.phase.next.Some?
    && var sr := s.worker.phase.next.value;
       && sr.req.RemoveChunks? && sr.req.ids != [] && sr.req.ids[0] in s.disk
       && s' == InPhase(s, Finishing(Some(SeqRequest(sr.seqNo, RemoveChunks(sr.req.ids[1..]))), s.worker.phase.lastSeq))
                .(disk := s.disk - {sr.req.ids[0]}, lo := s.lo + 1)
  }

  function RepliesOf(w: WriteReq): seq<Reply> {
    if w.callback.Some? then [Reply(w.callback.value, w.upto, w.sync, true)] else []
  }

  ghost predicate DoesRestart<R, S>(
    env: Env<R, S>, s: Sys<R, S>, image: Disk, ids: seq<nat>, m: nat, s': Sys<R, S>)
  {
    && Bounded(env.codec) && OldestDurable(env.codec, s)
    && CrashImage(env.codec, s, image) && IsListing(ids, image.Keys)
    && Image(env.codec, s.hist, s.lo, s.cur, m, image)
    && var res := Open(env, image, ids, env.initial, true);
       && res.Ok?
       && var hist' := LogAfter(env, s.hist, s.lo, s.cur, m, IsClean(env.codec, s.hist, s.cur, m, image));
          hist' != [] && s' == Booted(res.value, hist', s.lo, s.replies, s.careful)
  }

  ghost predicate MainStep<R, S>(env: Env<R, S>, s: Sys<R, S>, step: Step<R>, s': Sys<R, S>)
    requires Placed(s)
  {
    match step
    case Append(r) =>
      && MainFree(s)
      && if Encodable(env.codec, r) && s.hist != []
         then s' == s.(main := Appended(env.codec, s.main, r), hist := WithRecord(s.hist, r), sm := env.apply(s.sm, r))
         else s' == s
    case SendPending(sync, cb) =>
      MainFree(s) && Reserves(env, s.(main := s.main.(pending := [])), Write(PendingWrite(s.main, sync, cb)), s')
    case Rotate => MainFree(s) && DoesRotate(env, s, s')
    case Drain(n) =>
      && MainFree(s) && n <= |s.main.closed|
      && s' == s.(main := s.main.(closed := s.main.closed[n..]), drained := s.drained + n)
    case SendRemove(n) => MainFree(s) && DoesSendRemove(env, s, n, s')
    case Enqueue => DoesEnqueue(env, s, s')
    case SendFails => DoesSendFail(s, s')
    case Close => MainFree(s) && s' == s.(main := s.main.(open := false))
    case _ => false
  }

  ghost predicate WorkerStep<R, S>(s: Sys<R, S>, step: Step<R>, s': Sys<R, S>)
    requires Placed(s)
  {
    var files := s.worker.files;
    if step.DropReceiver? then
      s.worker.status != Running && s.worker.rx && s' == s.(worker := s.worker.(rx := false), queue := [])
    else s.worker.status == Running && match step
    case TakeWrites(n, withNext) => DoesTakeWrites(s, n, withNext, s')
    case TakeOther =>
      && s.worker.phase == Idle && s.queue != [] && !s.queue[0].req.Write?
      && s' == InPhase(s, Finishing(Some(s.queue[0]), 0)).(queue := s.queue[1..])
    case WriteSome(k) =>
      && s.worker.phase.Writing? && 0 < k <= |s.worker.phase.rest|
      && s' == InPhase(s, Writing(s.worker.phase.batch, s.worker.phase.rest[k..]))
               .(disk := Grown(s, s.worker.phase.rest[..k]))
    case WriteDone =>
      && s.worker.phase.Writing? && s.worker.phase.rest == []
      && var b := s.worker.phase.batch;
         s' == InPhase(s, if NeedsSync(b.writes) then Syncing(b) else Replying(b, 0))
    case SyncOlder =>
      && s.worker.phase.Syncing? && |files| > 1
      && s' == s.(worker := s.worker.(files := files[1..]), disk := Synced(s.disk, files[0].start))
    case SyncLast =>
      && s.worker.phase.Syncing? && |files| == 1
      && s' == InPhase(s, Replying(s.worker.phase.batch, 0))
               .(disk := Synced(s.disk, files[0].start),
               notes := s.notes + [Note(files[0].start, BatchEnd(s.worker.phase.batch), files[0].prev)])
    case ReplyOne =>
      && s.worker.phase.Replying?
      && var (b, i) := (s.worker.phase.batch, s.worker.phase.replied);
         i < |b.writes| && s' == InPhase(s, Replying(b, i + 1)).(replies := s.replies + RepliesOf(b.writes[i]))
    case Release =>
      && s.worker.phase.Replying?
      && var b := s.worker.phase.batch;
         && s.worker.phase.replied == |b.writes| && |Data(b.writes)| <= s.used
         && s' == InPhase(s, Finishing(b.next, b.lastSeq)).(used := s.used - |Data(b.writes)|)
    case Unlink => DoesUnlink(s, s')
    case Finish => DoesFinish(s, s')
    case Fail(errors) =>
      && (forall i | 0 <= i < |errors| :: !errors[i].ok)
      && s' == s.(worker := s.worker.(status := Failed), replies := s.replies + errors, used := 0)
    case Stop =>
      && s.worker.phase == Idle && s.queue == [] && !s.main.open
      && s' == s.(worker := s.worker.(status := Stopped), used := 0)
    case _ => false
  }

  ghost predicate Next<R, S>(env: Env<R, S>, s: Sys<R, S>, step: Step<R>, s': Sys<R, S>) {
    && Placed(s)
    && match step
       case Restart(image, ids, m) => DoesRestart(env, s, image, ids, m, s')
       case _ => MainStep(env, s, step, s') || WorkerStep(s, step, s')
  }

  /** An empty directory, opened. */
  ghost predicate Init<R, S>(env: Env<R, S>, s: Sys<R, S>) {
    && Bounded(env.codec)
    && var res := Open(env, map[], [], env.initial, true);
       res.Ok? && s == Booted(res.value, [ChunkLog(0, [env.checkpoint(env.initial)])], 0, [], s.careful)
  }

  ghost predicate Steps<R(!new), S>(env: Env<R, S>, s: Sys<R, S>, s': Sys<R, S>) {
    exists step :: Next(env, s, step, s')
  }

  /** A step of either thread. */
  ghost predicate NoCrash<R(!new), S>(env: Env<R, S>, s: Sys<R, S>, s': Sys<R, S>) {
    exists step :: Next(env, s, step, s') && !step.Restart?
  }

  /** A run of the system. */
  ghost predicate IsRun<R(!new), S>(env: Env<R, S>, run: seq<Sys<R, S>>) {
    && run != [] && Init(env, run[0])
    && forall i | 0 <= i < |run| - 1 :: Steps(env, run[i], run[i + 1])
  }
}
