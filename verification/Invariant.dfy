/** What every reachable state satisfies. */
module Invariant {
  import opened Codec
  import opened Log
  import opened Requests
  import opened Backlog
  import opened CrashImages
  import opened System

  /** The log is valid, and the files hold it up to some point of chunk `cur`. */
  ghost predicate OnDisk<R(!new), S(!new)>(env: Env<R, S>, s: Sys<R, S>) {
    && EnvOk(env) && ValidLog(env, s.hist) && s.sm == StateAfter(env, s.hist)
    && Stored(env.codec, s.hist, s.lo, s.cur, s.disk)
    && CurFile(s).os <= Stream(env.codec, s.hist[s.cur].recs) && CurFile(s).dur <= |CurFile(s).os|
    && (s.careful ==> OldestDurable(env.codec, s))
  }

  ghost predicate ClosedOk<R, S>(env: Env<R, S>, hist: seq<ChunkLog<R>>, i: nat, cc: ClosedChunk<R>)
    requires i + 1 < |hist| && hist[i + 1].recs != []
  {
    cc == ClosedChunk(Offsets(env.codec, hist[i]), hist[i + 1].recs[0])
  }

  /**
   The in-memory index is the log: the open chunk is its last, the closed ones
   are the chunks before it, each with the checkpoint its successor opens with.
   */
  ghost predicate IndexOk<R, S>(env: Env<R, S>, s: Sys<R, S>) {
    && s.hist != [] && (forall i | 0 <= i < |s.hist| :: s.hist[i].recs != [])
    && s.main.offsets == Offsets(env.codec, s.hist[|s.hist| - 1])
    && s.purged <= s.drained && s.drained + |s.main.closed| == |s.hist| - 1
    && (forall j: nat | j < |s.main.closed| :: ClosedOk(env, s.hist, s.drained + j, s.main.closed[j]))
  }

  /** Conservation: what is in the files, queued and pending is what was appended. */
  ghost predicate EndsAt<R, S>(env: Env<R, S>, s: Sys<R, S>, p: Pos) {
    && s.hist != []
    && p.cur == |s.hist| - 1 && p.lo == s.purged && p.dur <= |p.have|
    && p.have + s.main.pending == Stream(env.codec, s.hist[p.cur].recs)
  }

  ghost predicate Flows<R, S>(env: Env<R, S>, s: Sys<R, S>) {
    && Placed(s)
    && Runs(env.codec, s.hist, PosOf(s), Todo(s))
    && EndsAt(env, s, Promised(s))
  }

  /** Every chunk has a file, no other file exists but that of a rotation under way, and the worker holds the one it writes. */
  ghost predicate FilesOk<R, S>(s: Sys<R, S>) {
    && Placed(s)
    && (forall i | s.cur < i < |s.hist| :: s.hist[i].id in s.disk)
    && (forall k | k in s.disk && k > s.hist[s.cur].id :: IsLive(s.hist, s.cur, |s.hist| - 1, k) || k in Creating(s))
    && (forall k | k in Creating(s) :: k > s.hist[|s.hist| - 1].id)
    && s.worker.files != [] && s.worker.files[|s.worker.files| - 1].start == s.hist[s.cur].id
    && (forall j | 0 <= j < |s.worker.files| - 1 :: s.worker.files[j].start < s.hist[s.cur].id)
  }

  /** The end of a write of the current batch: a record boundary, not beyond `limit`. */
  ghost predicate EndOk<R>(c: Codec<R>, ch: ChunkLog<R>, w: WriteReq, limit: nat) {
    w.upto <= limit && HasMark(c, ch, w.upto)
  }

  ghost predicate EndsOk<R>(c: Codec<R>, ch: ChunkLog<R>, writes: seq<WriteReq>, limit: nat) {
    forall i | 0 <= i < |writes| :: EndOk(c, ch, writes[i], limit)
  }

  ghost predicate BatchOk<R, S>(env: Env<R, S>, s: Sys<R, S>)
    requires Placed(s)
  {
    var c, ch, f := env.codec, s.hist[s.cur], CurFile(s);
    match s.worker.phase
    case Writing(b, rest) => b.writes != [] && EndsOk(c, ch, b.writes, ch.id + |f.os| + |rest|)
    case Syncing(b) => b.writes != [] && EndsOk(c, ch, b.writes, ch.id + |f.os|)
    case Replying(b, _) =>
      EndsOk(c, ch, b.writes, ch.id + |f.os|) && (NeedsSync(b.writes) ==> f.dur == |f.os|)
    case _ => true
  }

  /** Offset `u` is a record boundary of the log. */
  ghost predicate OnMark<R>(c: Codec<R>, hist: seq<ChunkLog<R>>, u: nat) {
    exists i: nat :: i < |hist| && HasMark(c, hist[i], u)
  }

  /** Every record that ends at or below `u` is durable. */
  ghost predicate Durable<R, S>(env: Env<R, S>, s: Sys<R, S>, u: nat) {
    Placed(s) && u <= DurableEnd(s) && OnMark(env.codec, s.hist, u)
  }

  ghost predicate Truthful<R, S>(env: Env<R, S>, s: Sys<R, S>, r: Reply) {
    r.ok && r.sync ==> Durable(env, s, r.upto)
  }

  /** Every successful reply to a sync request was and is true. */
  ghost predicate RepliesOk<R, S>(env: Env<R, S>, s: Sys<R, S>) {
    forall i | 0 <= i < |s.replies| :: Truthful(env, s, s.replies[i])
  }

  /** A rotation under way announces the checkpoint of the current state at the end of the log. */
  ghost predicate SendOk<R, S>(env: Env<R, S>, s: Sys<R, S>) {
    && (s.worker.status == Running ==> s.worker.rx)
    && (s.sending.Some? && s.sending.value.AppendFile? ==>
          && s.sending.value.entry == FileEntry(Last(s.main.offsets), Some(env.checkpoint(s.sm)))
          && Last(s.main.offsets) in s.disk
          && (s.worker.status == Running ==> Placed(s) && Settled(s)))
  }

  ghost predicate Inv<R(!new), S(!new)>(env: Env<R, S>, s: Sys<R, S>) {
    Core(env, s) && SendOk(env, s)
  }

  ghost predicate Core<R(!new), S(!new)>(env: Env<R, S>, s: Sys<R, S>) {
    && OnDisk(env, s)
    && IndexOk(env, s)
    && RepliesOk(env, s)
    && (s.worker.status == Running ==> Flows(env, s) && FilesOk(s) && BatchOk(env, s))
  }

  // What a step may do to the log

  /** Whatever was durable stays durable, and its records stay where they are. */
  ghost predicate Preserves<R, S>(env: Env<R, S>, s: Sys<R, S>, s': Sys<R, S>) {
    forall u | Durable(env, s, u) :: Durable(env, s', u) && Keeps(env.codec, s.hist, s'.hist, u)
  }

  lemma ExtendsMark<R>(c: Codec<R>, h: seq<ChunkLog<R>>, h': seq<ChunkLog<R>>, u: nat)
    requires Extends(h, h') && OnMark(c, h, u)
    ensures OnMark(c, h', u)
  {
    var i: nat :| i < |h| && HasMark(c, h[i], u);
    var k: nat :| IsMark(c, h[i], u, k);
    assert h[i].recs <= h'[i].recs;
    assert h'[i].recs[..k] == h[i].recs[..k];
    assert IsMark(c, h'[i], u, k);
    assert HasMark(c, h'[i], u);
  }

  /** A step that extends the log and does not lower the durable end preserves. */
  lemma ExtendingStep<R, S>(env: Env<R, S>, s: Sys<R, S>, s': Sys<R, S>)
    requires Placed(s) && Placed(s') && DurableEnd(s) <= DurableEnd(s')
    requires s'.hist == s.hist || Extends(s.hist, s'.hist)
    ensures Preserves(env, s, s')
  {
    forall u | Durable(env, s, u) ensures Durable(env, s', u) && Keeps(env.codec, s.hist, s'.hist, u) {
      if s'.hist == s.hist {
        assert Keeps(env.codec, s.hist, s.hist, u);
      } else {
        ExtendsMark(env.codec, s.hist, s'.hist, u);
        ExtendsKeeps(env.codec, s.hist, s'.hist, u);
      }
    }
  }

  lemma RepliesStayOk<R, S>(env: Env<R, S>, s: Sys<R, S>, s': Sys<R, S>)
    requires RepliesOk(env, s) && Preserves(env, s, s')
    requires s.replies <= s'.replies
    requires forall i | |s.replies| <= i < |s'.replies| :: Truthful(env, s', s'.replies[i])
    ensures RepliesOk(env, s')
  {
    forall i | 0 <= i < |s'.replies| ensures Truthful(env, s', s'.replies[i]) {
      if i < |s.replies| {
        assert s'.replies[i] == s.replies[i];
        assert Truthful(env, s, s.replies[i]);
      }
    }
  }
}
