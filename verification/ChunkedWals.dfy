/** The main thread's objects: the open chunk with its pending bytes, and the log around it. */
module ChunkedWals {
  import opened Bytes
  import opened Codec
  import opened RecordStream
  import opened Log
  import opened Requests
  import opened System
  import opened Invariant
  import opened MainSteps
  import opened Durability
  import opened CrashImages
  import opened Reading

  // The open chunk

  /** Buffer and index of a chunk that holds `ch`, of which the first `sent` bytes have left the buffer. */
  ghost predicate Buffers<R>(c: Codec<R>, ch: ChunkLog<R>, sent: nat, pending: seq<Byte>, offsets: seq<nat>) {
    && offsets == Offsets(c, ch)
    && sent <= |Stream(c, ch.recs)| && pending == Stream(c, ch.recs)[sent..]
  }

  class OpenChunk<R> {
    var pending: seq<Byte>
    var offsets: seq<nat>

    /** An open chunk with the given index and nothing pending. */
    constructor (offsets: seq<nat>)
      ensures pending == [] && this.offsets == offsets
    {
      pending := [];
      this.offsets := offsets;
    }

    /**
     Appends a record. A rejected record may have written part of itself; the
     buffer is cut back, so nothing of it remains in buffer or index.
     */
    method AppendRecord(c: Codec<R>, rec: R) returns (seg: Option<Segment>)
      requires offsets != []
      modifies this
      ensures seg.Some? <==> Encodable(c, rec)
      ensures seg.None? ==> pending == old(pending) && offsets == old(offsets)
      ensures seg.Some? ==>
                && seg.value.offset == Last(old(offsets)) && seg.value.size == c.encode(rec).size
                && pending == old(pending) + Bytes1(c, rec) && offsets == old(offsets) + [seg.value.End()]
    {
      var pendingLen := |pending|;
      match c.encode(rec)
      case Rejected(partial) =>
        pending := pending + partial;
        pending := pending[..pendingLen];
        return None;
      case Encoded(bytes, size) =>
        pending := pending + bytes;
        var last := offsets[|offsets| - 1];
        offsets := offsets + [last + size];
        return Some(Segment(last, size));
    }

    /** Hands over the pending bytes and starts an empty buffer. */
    method TakePendingData() returns (data: seq<Byte>)
      modifies this
      ensures data == old(pending) && pending == [] && offsets == old(offsets)
    {
      data := pending;
      pending := [];
    }
  }

  /** An appended record extends the chunk that buffer and index stand for. */
  lemma AppendBuffers<R>(c: Codec<R>, ch: ChunkLog<R>, sent: nat, pending: seq<Byte>, offsets: seq<nat>, r: R)
    requires Buffers(c, ch, sent, pending, offsets) && Encodable(c, r) && SizeIsHonest(c, r)
    ensures Buffers(c, ChunkLog(ch.id, ch.recs + [r]), sent, pending + Bytes1(c, r), offsets + [Last(offsets) + c.encode(r).size])
  {
    hide Stream, Offsets;
    StreamAppend(c, ch.recs, r);
    OffsetsAppend(c, ch, r);
  }

  /** Taking the pending bytes hands over exactly the part of the chunk not handed over before. */
  lemma TakeBuffers<R>(c: Codec<R>, ch: ChunkLog<R>, sent: nat, pending: seq<Byte>, offsets: seq<nat>)
    requires Buffers(c, ch, sent, pending, offsets)
    ensures Buffers(c, ch, |Stream(c, ch.recs)|, [], offsets)
    ensures Stream(c, ch.recs)[..sent] + pending == Stream(c, ch.recs)
  {
    hide Stream, Offsets;
  }

  // The log

  datatype CloseResult = NotFull | Closed | CloseFailed(swapped: bool)

  /** Creating a file may fail before or after the file is there: its directory is synced last. */
  datatype Creation = Made | NotMade | MadeAndFailed

  /** Which of the three sends of a rotation are accepted, and how the creation of the new file goes. */
  datatype Faults = Faults(syncSent: bool, creation: Creation, attachSent: bool, checkpointSent: bool)

  /** How far a rotation gets, in the order of its steps. */
  datatype Reached = AtSync | AtCreation | AtAttach | AtCheckpoint | AtSend | AtEnd

  function Reach<R>(c: Codec<R>, m: Main<R>, ck: R, files: set<nat>, faults: Faults): Reached {
    if !m.open || !faults.syncSent then AtSync
    else if Last(m.offsets) in files || faults.creation != Made then AtCreation
    else StartReach(c, ck, faults)
  }

  function StartReach<R>(c: Codec<R>, ck: R, faults: Faults): Reached {
    if !faults.attachSent then AtAttach
    else if !Encodable(c, ck) then AtCheckpoint
    else if !faults.checkpointSent then AtSend
    else AtEnd
  }

  /** The requests that have joined the queue. */
  function Joined(at: Reached): nat {
    match at
    case AtSync => 0
    case AtCreation => 1
    case AtAttach => 1
    case AtCheckpoint => 2
    case AtSend => 2
    case AtEnd => 3
  }

  /** The sequence numbers that are spent; a send that fails spends one too. */
  function Spent(at: Reached): nat {
    match at
    case AtSync => 1
    case AtCreation => 1
    case AtAttach => 2
    case AtCheckpoint => 2
    case AtSend => 3
    case AtEnd => 3
  }

  /**
   The main thread's side of the log: the open chunk, the closed chunks in id
   order, the requests it has sent, and the names in its directory.
   */
  class ChunkedWal<R> {
    var open: OpenChunk<R>
    var closed: seq<ClosedChunk<R>>
    var sentSeq: nat
    var tx: bool
    var joinable: bool
    var outbox: seq<SeqRequest<R>>
    var files: set<nat>

    constructor (offsets: seq<nat>, closed: seq<ClosedChunk<R>>, files: set<nat>)
      ensures fresh(open) && AsMain() == Main(offsets, [], closed, 0, true) && outbox == [] && this.files == files && joinable
    {
      open := new OpenChunk<R>(offsets);
      this.closed := closed;
      sentSeq := 0;
      tx := true;
      joinable := true;
      outbox := [];
      this.files := files;
    }

    ghost function AsMain(): Main<R>
      reads this, open
    {
      Main(open.offsets, open.pending, closed, sentSeq, tx)
    }

    /** Sends one request; `accepted` is false when the worker is gone. */
    method SendRequest(req: Request<R>, accepted: bool) returns (ok: bool)
      modifies this`sentSeq, this`outbox
      ensures ok == (tx && accepted)
      ensures sentSeq == if tx then old(sentSeq) + 1 else old(sentSeq)
      ensures outbox == old(outbox) + if ok then [SeqRequest(sentSeq, req)] else []
    {
      if !tx {
        return false;
      }
      sentSeq := sentSeq + 1;
      if !accepted {
        return false;
      }
      outbox := outbox + [SeqRequest(sentSeq, req)];
      return true;
    }

    method Append(c: Codec<R>, rec: R) returns (ok: bool)
      requires open.offsets != []
      modifies open
      ensures ok <==> Encodable(c, rec)
      ensures AsMain() == Appended(c, old(AsMain()), rec)
    {
      var seg := open.AppendRecord(c, rec);
      ok := seg.Some?;
    }

    method SendPending(sync: bool, callback: Option<nat>, accepted: bool) returns (ok: bool)
      requires open.offsets != []
      modifies open, this`sentSeq, this`outbox
      ensures ok == (tx && accepted)
      ensures AsMain() == old(AsMain()).(pending := [], sent := if tx then old(sentSeq) + 1 else old(sentSeq))
      ensures outbox == old(outbox) +
                        if ok then [SeqRequest(sentSeq, Write(PendingWrite(old(AsMain()), sync, callback)))] else []
    {
      var data := open.TakePendingData();
      ok := SendRequest(Write(WriteReq(open.offsets[|open.offsets| - 1], data, sync, callback)), accepted);
    }

    method IsOpenChunkFull<S>(env: Env<R, S>) returns (full: bool)
      requires open.offsets != []
      ensures full == IsFull(env, AsMain())
    {
      var offsets := open.offsets;
      full := |offsets| - 1 >= env.maxRecords || offsets[|offsets| - 1] - offsets[0] >= env.maxSize;
    }

    /** Creates the file of a new chunk; no existing file is taken for it. */
    method CreateFile(id: nat, creation: Creation) returns (ok: bool)
      modifies this`files
      ensures ok <==> id !in old(files) && creation == Made
      ensures forall k :: k in files <==> k in old(files) || (k == id && creation != NotMade)
    {
      if id in files || creation == NotMade {
        return false;
      }
      files := files + {id};
      return creation == Made;
    }

    /**
     Rotates a full chunk. On success the queue has gained, in this order, a
     sync of all that was pending, the new file, and the checkpoint that opens
     it. After a failure it has gained those before the step that failed; the
     pending bytes are lost only if the sync itself could not be sent. A failure
     after the swap leaves the old chunk out of `closed`.
     */
    method TryCloseFullChunk<S>(env: Env<R, S>, sm: S, faults: Faults) returns (res: CloseResult)
      requires open.offsets != []
      modifies this, open
      ensures res == NotFull <==> !IsFull(env, old(AsMain()))
      ensures res == NotFull ==> AsMain() == old(AsMain()) && outbox == old(outbox) && files == old(files)
      ensures res == Closed ==>
                && AsMain() == Closing(env.codec, old(AsMain()), env.checkpoint(sm))
                && outbox == old(outbox) + ClosingRequests(env.codec, old(AsMain()), env.checkpoint(sm))
                && Last(old(open.offsets)) !in old(files)
      ensures IsFull(env, old(AsMain())) ==>
                (res == Closed <==>
                 && old(tx) && faults.syncSent && faults.creation == Made && Last(old(open.offsets)) !in old(files)
                 && faults.attachSent && Encodable(env.codec, env.checkpoint(sm)) && faults.checkpointSent)
      // The queue
      ensures res != NotFull ==>
                var at := Reach(env.codec, old(AsMain()), env.checkpoint(sm), old(files), faults);
                && outbox == old(outbox) + ClosingRequests(env.codec, old(AsMain()), env.checkpoint(sm))[..Joined(at)]
                && sentSeq == old(sentSeq) + (if old(tx) then Spent(at) else 0)
      ensures res.CloseFailed? && old(tx) && faults.syncSent ==>
                old(outbox) + [SeqRequest(old(sentSeq) + 1, Write(PendingWrite(old(AsMain()), true, None)))] <= outbox
      ensures res.CloseFailed? && !(old(tx) && faults.syncSent) ==> outbox == old(outbox)
      // The directory
      ensures Last(old(open.offsets)) in files <==>
                || Last(old(open.offsets)) in old(files)
                || (res != NotFull && old(tx) && faults.syncSent && faults.creation != NotMade)
      ensures forall id | id != Last(old(open.offsets)) :: id in files <==> id in old(files)
      // The log
      ensures tx == old(tx) && joinable == old(joinable)
      ensures res.CloseFailed? ==> closed == old(closed) && open.pending == []
      ensures res == CloseFailed(false) ==> open == old(open) && open.offsets == old(open.offsets)
      ensures res == CloseFailed(true) ==> fresh(open) && open.offsets == OffsetsFrom(env.codec, Last(old(open.offsets)), env.checkpoint(sm))
      ensures IsFull(env, old(AsMain())) ==>
                (res == CloseFailed(false) <==>
                 || !old(tx) || !faults.syncSent || faults.creation != Made || Last(old(open.offsets)) in old(files)
                 || !faults.attachSent)
    {
      hide Closing, ClosingRequests, StartRequests, StartReach, Joined, Spent, OffsetsFrom, PendingWrite, Rotated, Appended, IsFull;
      ghost var before := AsMain();
      FirstRequest(env.codec, before, env.checkpoint(sm));
      var full := IsOpenChunkFull(env);
      if !full {
        return NotFull;
      }
      var sent := SendPending(true, None, faults.syncSent);
      if !sent {
        return CloseFailed(false);
      }
      var id, ck := open.offsets[|open.offsets| - 1], env.checkpoint(sm);
      var created := CreateFile(id, faults.creation);
      if !created {
        return CloseFailed(false);
      }
      res := StartChunk(env.codec, id, ck, faults);
      ClosingMain(env.codec, before, ck);
      TwoThenOne(env.codec, before, ck);
      OneThenSome(env.codec, before, ck, faults);
    }

    /** Attaches the file of a new chunk, makes it the open one, and sends the checkpoint that opens it. */
    method StartChunk(c: Codec<R>, id: nat, ck: R, faults: Faults) returns (res: CloseResult)
      requires tx && open.pending == [] && open.offsets != [] && id == Last(open.offsets)
      modifies this`open, this`closed, this`sentSeq, this`outbox
      ensures res != NotFull && open.pending == []
      ensures res == Closed <==> faults.attachSent && Encodable(c, ck) && faults.checkpointSent
      ensures res == CloseFailed(false) <==> !faults.attachSent
      ensures res == Closed ==>
                && AsMain() == Rotated(c, old(AsMain()), ck).(pending := [], sent := old(sentSeq) + 2)
                && outbox == old(outbox) + StartRequests(c, old(AsMain()), ck)
      ensures res.CloseFailed? ==> closed == old(closed)
      ensures var at := StartReach(c, ck, faults);
              && outbox == old(outbox) + StartRequests(c, old(AsMain()), ck)[..Joined(at) - 1]
              && sentSeq == old(sentSeq) + Spent(at) - 1
      ensures faults.attachSent ==>
                old(outbox) + [SeqRequest(old(sentSeq) + 1, AppendFile(FileEntry(id, Some(ck))))] <= outbox
      ensures res == CloseFailed(false) ==> open == old(open) && outbox == old(outbox)
      ensures res == CloseFailed(true) ==> fresh(open) && open.offsets == OffsetsFrom(c, id, ck)
    {
      hide Rotated, PendingWrite;
      ghost var before := AsMain();
      RotatedParts(c, before, ck);
      var newOpen := new OpenChunk<R>([id]);
      var sent := SendRequest(AppendFile(FileEntry(id, Some(ck))), faults.attachSent);
      if !sent {
        return CloseFailed(false);
      }
      var oldOpen := open;
      open := newOpen;
      var appended := Append(c, ck);
      if !appended {
        return CloseFailed(true);
      }
      PendingIgnores(AsMain(), Rotated(c, before, ck));
      sent := SendPending(false, None, faults.checkpointSent);
      if !sent {
        return CloseFailed(true);
      }
      closed := closed + [ClosedChunk(oldOpen.offsets, ck)];
      return Closed;
    }

    /** Drops closed chunks from the oldest on while `shouldDrain` holds of their checkpoint. */
    method DrainClosedChunksWhile(shouldDrain: R -> bool) returns (ids: seq<nat>)
      requires forall j | 0 <= j < |closed| :: closed[j].offsets != []
      modifies this`closed
      ensures |ids| <= |old(closed)| && closed == old(closed)[|ids|..]
      ensures forall j | 0 <= j < |ids| :: ids[j] == old(closed)[j].offsets[0] && shouldDrain(old(closed)[j].state)
      ensures closed != [] ==> !shouldDrain(closed[0].state)
    {
      ids := [];
      while closed != [] && shouldDrain(closed[0].state)
        invariant |ids| <= |old(closed)| && closed == old(closed)[|ids|..]
        invariant forall j | 0 <= j < |ids| :: ids[j] == old(closed)[j].offsets[0] && shouldDrain(old(closed)[j].state)
        decreases |closed|
      {
        assert closed[0] == old(closed)[|ids|];
        ids := ids + [closed[0].offsets[0]];
        closed := closed[1..];
      }
    }

    method SendRemoveChunks(ids: seq<nat>, accepted: bool) returns (ok: bool)
      modifies this`sentSeq, this`outbox
      ensures ok == (tx && accepted)
      ensures sentSeq == if tx then old(sentSeq) + 1 else old(sentSeq)
      ensures outbox == old(outbox) + if ok then [SeqRequest(sentSeq, RemoveChunks(ids))] else []
    {
      ok := SendRequest(RemoveChunks(ids), accepted);
    }

    /**
     Shuts down: a sync of all that is pending, then no more requests, then
     the worker is joined and its progress checked against the last request.
     Only the first call reports a failure; later calls return Ok.
     */
    method Shutdown(accepted: bool, joined: bool, done: nat) returns (ok: bool)
      requires open.offsets != []
      modifies this, open
      ensures !joinable && closed == old(closed) && open == old(open) && open.offsets == old(open.offsets) && files == old(files)
      ensures old(joinable) ==> !tx && open.pending == [] && sentSeq == if old(tx) then old(sentSeq) + 1 else old(sentSeq)
      ensures old(joinable) ==> (ok <==> old(tx) && accepted && joined && done >= sentSeq)
      ensures old(joinable) ==>
                outbox == old(outbox) +
                          if old(tx) && accepted then [SeqRequest(sentSeq, Write(PendingWrite(old(AsMain()), true, None)))] else []
      ensures !old(joinable) ==> ok && AsMain() == old(AsMain()) && outbox == old(outbox)
    {
      if !joinable {
        return true;
      }
      joinable := false;
      var flushed := SendPending(true, None, accepted);
      tx := false;
      ok := flushed && joined && done >= sentSeq;
    }

    /** The bytes from the start of the oldest chunk to the end of the open one. */
    method DiskSize() returns (size: int)
      requires Contiguous(Indexes(AsMain()))
      ensures size == TotalSize(Indexes(AsMain())) == OnDiskSize(AsMain())
    {
      ghost var ix := Indexes(AsMain());
      assert ix[|closed|] == open.offsets && (closed != [] ==> ix[0] == closed[0].offsets);
      var first: int := if closed != [] then closed[0].offsets[0] else open.offsets[0];
      size := open.offsets[|open.offsets| - 1] - first;
      Telescopes(ix);
    }
  }

  /** The ids that draining returns are those of the drained chunks of the log, in order. */
  lemma DrainedIds<R(!new), S(!new)>(env: Env<R, S>, run: seq<Sys<R, S>>, i: nat, n: nat)
    requires EnvOk(env) && IsRun(env, run) && i < |run| && n <= |run[i].main.closed|
    ensures run[i].drained + n <= |run[i].hist|
    ensures forall j | 0 <= j < n ::
              run[i].main.closed[j].offsets != []
              && run[i].main.closed[j].offsets[0] == IdsFrom(run[i].hist, run[i].drained, n)[j]
  {
    hide EnvOk, Init, Next, Stored, Flows, FilesOk, BatchOk, RepliesOk, Stream, StateAfter, ClosedOk, IndexOk, SendOk;
    var s := run[i];
    EveryStateIsOk(env, run, i);
    OnDiskValid(env, s);
    ClosedCount(env, s);
    forall j | 0 <= j < n
      ensures s.main.closed[j].offsets != [] && s.main.closed[j].offsets[0] == IdsFrom(s.hist, s.drained, n)[j]
    {
      ChunkIndex(env, s, j);
      FirstOfChunk(env.codec, s.hist[s.drained + j]);
    }
  }

  lemma ClosedCount<R, S>(env: Env<R, S>, s: Sys<R, S>)
    requires IndexOk(env, s)
    ensures s.drained + |s.main.closed| == |s.hist| - 1
  {
  }

  lemma FirstOfChunk<R>(c: Codec<R>, ch: ChunkLog<R>)
    ensures Offsets(c, ch)[0] == ch.id
  {
    assert ch.recs[..0] == [];
    StreamEmpty(c);
  }

  // Rotation as steps of the system

  /** The main thread after a rotation that succeeded, its checkpoint sent. */
  function Closing<R>(c: Codec<R>, m: Main<R>, ck: R): Main<R> {
    Rotated(c, m, ck).(pending := [], sent := m.sent + 3)
  }

  /** What a rotation sends once the old chunk is synced. */
  function StartRequests<R>(c: Codec<R>, m: Main<R>, ck: R): seq<SeqRequest<R>> {
    [SeqRequest(m.sent + 1, AppendFile(FileEntry(Last(m.offsets), Some(ck)))),
     SeqRequest(m.sent + 2, Write(PendingWrite(Rotated(c, m, ck), false, None)))]
  }

  /** A write of what is pending depends on the open chunk only. */
  lemma PendingIgnores<R>(m: Main<R>, m': Main<R>)
    requires m.offsets == m'.offsets && m.pending == m'.pending
    ensures PendingWrite(m, false, None) == PendingWrite(m', false, None)
  {
  }

  lemma RotatedParts<R>(c: Codec<R>, m: Main<R>, ck: R)
    ensures var r := Rotated(c, m, ck);
            && r.closed == m.closed + [ClosedChunk(m.offsets, ck)] && r.sent == m.sent && r.open == m.open
            && (Encodable(c, ck) ==> r.offsets == [Last(m.offsets), Last(m.offsets) + c.encode(ck).size] && r.pending == Bytes1(c, ck))
  {
  }

  lemma ClosingMain<R>(c: Codec<R>, m: Main<R>, ck: R)
    ensures var synced := m.(pending := [], sent := m.sent + 1);
            Rotated(c, synced, ck).(pending := [], sent := m.sent + 3) == Closing(c, m, ck)
  {
  }

  lemma TwoThenOne<R>(c: Codec<R>, m: Main<R>, ck: R)
    ensures var synced := m.(pending := [], sent := m.sent + 1);
            var first: seq<SeqRequest<R>> := [SeqRequest(m.sent + 1, Write(PendingWrite(m, true, None)))];
            first + StartRequests(c, synced, ck) == ClosingRequests(c, m, ck)
  {
    RotatedIgnores(c, m, m.(pending := [], sent := m.sent + 1), ck);
  }

  /** The index of a chunk whose first record is `ck`, or of one that could not encode it. */
  function OffsetsFrom<R>(c: Codec<R>, id: nat, ck: R): seq<nat> {
    if Encodable(c, ck) then [id, id + c.encode(ck).size] else [id]
  }

  lemma FirstRequest<R>(c: Codec<R>, m: Main<R>, ck: R)
    ensures Joined(AtSync) == 0 && Joined(AtCreation) == 1 && Spent(AtSync) == Spent(AtCreation) == 1
    ensures |ClosingRequests(c, m, ck)| == 3 && ClosingRequests(c, m, ck)[..0] == []
    ensures ClosingRequests(c, m, ck)[..1] == [SeqRequest(m.sent + 1, Write(PendingWrite(m, true, None)))]
  {
  }

  lemma OneThenSome<R>(c: Codec<R>, m: Main<R>, ck: R, faults: Faults)
    ensures var at, synced := StartReach(c, ck, faults), m.(pending := [], sent := m.sent + 1);
            var first: seq<SeqRequest<R>> := [SeqRequest(m.sent + 1, Write(PendingWrite(m, true, None)))];
            && 1 <= Joined(at) <= 3 && |StartRequests(c, synced, ck)| == 2
            && first + StartRequests(c, synced, ck)[..Joined(at) - 1] == ClosingRequests(c, m, ck)[..Joined(at)]
  {
    hide Rotated, PendingWrite;
    TwoThenOne(c, m, ck);
  }

  /** What a rotation sends. */
  function ClosingRequests<R>(c: Codec<R>, m: Main<R>, ck: R): seq<SeqRequest<R>> {
    [SeqRequest(m.sent + 1, Write(PendingWrite(m, true, None))),
     SeqRequest(m.sent + 2, AppendFile(FileEntry(Last(m.offsets), Some(ck)))),
     SeqRequest(m.sent + 3, Write(PendingWrite(Rotated(c, m, ck), false, None)))]
  }

  /** A request sent by the step system: reserved, then queued, with nothing in between for the main thread to see. */
  ghost predicate Sent1<R, S>(env: Env<R, S>, s: Sys<R, S>, step: Step<R>, s1: Sys<R, S>, s2: Sys<R, S>) {
    && s.worker.status == Running && Placed(s) && MainStep(env, s, step, s1)
    && Placed(s1) && MainStep(env, s1, Enqueue, s2) && Placed(s2)
  }

  /** A successful rotation is a sync, a rotation and a send of the step system, one after the other. */
  lemma ClosingIsThreeSends<R(!new), S(!new)>(
    env: Env<R, S>, s: Sys<R, S>, s1: Sys<R, S>, s2: Sys<R, S>, s3: Sys<R, S>, s4: Sys<R, S>, s5: Sys<R, S>, s6: Sys<R, S>)
    requires Sent1(env, s, SendPending(true, None), s1, s2)
    requires Sent1(env, s2, Rotate, s3, s4) && Sent1(env, s4, SendPending(false, None), s5, s6)
    ensures var ck := env.checkpoint(s.sm);
            && s6.main == Closing(env.codec, s.main, ck)
            && s6.queue == s.queue + ClosingRequests(env.codec, s.main, ck)
            && s6.disk == s.disk[Last(s.main.offsets) := EMPTY_FILE]
  {
    hide Rotated, MainStep;
    var ck := env.checkpoint(s.sm);
    SentPending(env, s, true, s1, s2);
    SentRotate(env, s2, s3, s4);
    SentPending(env, s4, false, s5, s6);
    RotatedIgnores(env.codec, s.main, s2.main, ck);
    RotatedOpen(env.codec, s.main, ck);
  }

  lemma SentPending<R(!new), S(!new)>(env: Env<R, S>, s: Sys<R, S>, sync: bool, s1: Sys<R, S>, s2: Sys<R, S>)
    requires Sent1(env, s, SendPending(sync, None), s1, s2)
    ensures s2.main == s.main.(pending := [], sent := s.main.sent + 1) && s2.disk == s.disk && s2.sm == s.sm
    ensures s2.queue == s.queue + [SeqRequest(s.main.sent + 1, Write(PendingWrite(s.main, sync, None)))]
  {
    hide PendingWrite;
  }

  lemma SentRotate<R(!new), S(!new)>(env: Env<R, S>, s: Sys<R, S>, s1: Sys<R, S>, s2: Sys<R, S>)
    requires Sent1(env, s, Rotate, s1, s2)
    ensures var id, ck := Last(s.main.offsets), env.checkpoint(s.sm);
            && s2.main == Rotated(env.codec, s.main, ck).(sent := Rotated(env.codec, s.main, ck).sent + 1)
            && s2.disk == s.disk[id := EMPTY_FILE] && s2.sm == s.sm
            && s2.queue == s.queue + [SeqRequest(Rotated(env.codec, s.main, ck).sent + 1, AppendFile(FileEntry(id, Some(ck))))]
  {
    hide Rotated, WithChunk, Settled, IsFull;
  }

  lemma RotatedOpen<R>(c: Codec<R>, m: Main<R>, ck: R)
    ensures Rotated(c, m, ck).sent == m.sent
  {
  }

  lemma RotatedIgnores<R>(c: Codec<R>, m: Main<R>, m': Main<R>, ck: R)
    requires m' == m.(pending := [], sent := m'.sent)
    ensures Rotated(c, m', ck) == Rotated(c, m, ck).(sent := m'.sent)
  {
  }
}
