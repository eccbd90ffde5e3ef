/**
 The log itself: a sequence of chunks, each a sequence of records, whose ids
 are the global offsets at which they start, and the state a replay rebuilds.
 */
module Log {
  import opened Codec

  datatype Option<+T> = None | Some(value: T)

  /** The caller's codec and state machine, and the limits of the configuration. */
  datatype Env<!R, !S> = Env(
    codec: Codec<R>,
    apply: (S, R) -> S,
    checkpoint: S -> R,  // the checkpoint record of a state
    initial: S,
    maxRecords: nat,
    maxSize: nat,
    queueLimit: nat)

  ghost predicate Restores<R, S>(env: Env<R, S>, before: S, s: S) {
    env.apply(before, env.checkpoint(s)) == s
  }

  /** Applying the checkpoint of a state gives that state, whatever the state before. */
  ghost predicate EnvOk<R(!new), S(!new)>(env: Env<R, S>) {
    && Lawful(env.codec)
    && (forall before, s :: Restores(env, before, s))
    && (forall s :: Encodable(env.codec, env.checkpoint(s)))
    && env.maxRecords > 0 && env.maxSize > 0
  }

  datatype ChunkLog<+R> = ChunkLog(id: nat, recs: seq<R>)

  function End<R>(c: Codec<R>, ch: ChunkLog<R>): nat {
    ch.id + |Stream(c, ch.recs)|
  }

  /** The record offsets of a chunk: its start, and the end of each record. */
  function Offsets<R>(c: Codec<R>, ch: ChunkLog<R>): (offs: seq<nat>)
    ensures |offs| == |ch.recs| + 1
  {
    seq(|ch.recs| + 1, k requires 0 <= k <= |ch.recs| => ch.id + |Stream(c, ch.recs[..k])|)
  }

  // Replay

  function Replay<R, S>(env: Env<R, S>, s: S, recs: seq<R>): S {
    if recs == [] then s else env.apply(Replay(env, s, recs[..|recs| - 1]), recs[|recs| - 1])
  }

  function ReplayChunks<R, S>(env: Env<R, S>, s: S, hist: seq<ChunkLog<R>>): S {
    if hist == [] then s
    else Replay(env, ReplayChunks(env, s, hist[..|hist| - 1]), hist[|hist| - 1].recs)
  }

  /** The state that the whole history of records builds. */
  function StateAfter<R, S>(env: Env<R, S>, hist: seq<ChunkLog<R>>): S {
    ReplayChunks(env, env.initial, hist)
  }

  /** All records of a history, in order. */
  function AllRecords<R>(hist: seq<ChunkLog<R>>): seq<R> {
    if hist == [] then [] else AllRecords(hist[..|hist| - 1]) + hist[|hist| - 1].recs
  }

  lemma {:induction false} ReplayConcat<R, S>(env: Env<R, S>, s: S, a: seq<R>, b: seq<R>)
    ensures Replay(env, s, a + b) == Replay(env, Replay(env, s, a), b)
  {
    if b == [] {
      assert a + b == a;
    } else {
      assert (a + b)[..|a + b| - 1] == a + b[..|b| - 1];
      ReplayConcat(env, s, a, b[..|b| - 1]);
    }
  }

  lemma {:induction false} ReplayAllRecords<R, S>(env: Env<R, S>, s: S, hist: seq<ChunkLog<R>>)
    ensures ReplayChunks(env, s, hist) == Replay(env, s, AllRecords(hist))
  {
    if hist != [] {
      var front := hist[..|hist| - 1];
      ReplayAllRecords(env, s, front);
      ReplayConcat(env, s, AllRecords(front), hist[|hist| - 1].recs);
    }
  }

  // Valid logs

  ghost predicate Follows<R>(c: Codec<R>, hist: seq<ChunkLog<R>>, i: nat)
    requires 0 < i < |hist|
  {
    hist[i].id == End(c, hist[i - 1])
  }

  /** Every chunk starts where its predecessor ends, and none is empty. */
  ghost predicate Chained<R>(c: Codec<R>, hist: seq<ChunkLog<R>>) {
    && (forall i | 0 <= i < |hist| :: hist[i].recs != [] && AllEncodable(c, hist[i].recs))
    && (forall i | 0 < i < |hist| :: Follows(c, hist, i))
  }

  ghost predicate StartsAt<R, S>(env: Env<R, S>, hist: seq<ChunkLog<R>>, i: nat)
    requires i < |hist|
  {
    hist[i].recs != [] && hist[i].recs[0] == env.checkpoint(StateAfter(env, hist[..i]))
  }

  /** Every chunk opens with the checkpoint of the state built before it. */
  ghost predicate CheckpointFirst<R, S>(env: Env<R, S>, hist: seq<ChunkLog<R>>) {
    forall i | 0 <= i < |hist| :: StartsAt(env, hist, i)
  }

  ghost predicate ValidLog<R, S>(env: Env<R, S>, hist: seq<ChunkLog<R>>) {
    hist != [] && hist[0].id == 0 && Chained(env.codec, hist) && CheckpointFirst(env, hist)
  }

  lemma ChunkNotEmpty<R(!new)>(c: Codec<R>, ch: ChunkLog<R>)
    requires Lawful(c) && ch.recs != [] && AllEncodable(c, ch.recs)
    ensures |Bytes1(c, ch.recs[0])| > 0
    ensures Bytes1(c, ch.recs[0]) <= Stream(c, ch.recs)
    ensures ch.id < End(c, ch)
  {
    assert SizeIsHonest(c, ch.recs[0]) && Encodable(c, ch.recs[0]);
    StreamHead(c, ch.recs);
  }

  lemma {:induction false} IdsIncrease<R(!new)>(c: Codec<R>, hist: seq<ChunkLog<R>>, i: nat, j: nat)
    requires Lawful(c) && Chained(c, hist) && i < j < |hist|
    ensures End(c, hist[i]) <= hist[j].id && hist[i].id < hist[j].id
    decreases j
  {
    hide Stream;
    ChunkNotEmpty(c, hist[i]);
    assert Follows(c, hist, j);
    if i < j - 1 {
      IdsIncrease(c, hist, i, j - 1);
      ChunkNotEmpty(c, hist[j - 1]);
    }
  }

  lemma IdsOrdered<R(!new)>(c: Codec<R>, hist: seq<ChunkLog<R>>)
    requires Lawful(c) && Chained(c, hist)
    ensures forall i, j | 0 <= i < j < |hist| :: hist[i].id < hist[j].id
  {
    forall i, j | 0 <= i < j < |hist| ensures hist[i].id < hist[j].id {
      IdsIncrease(c, hist, i, j);
    }
  }

  // Changes of the log

  /** `hist'` continues `hist`: more records in its last chunk, more chunks after it. */
  ghost predicate Extends<R>(hist: seq<ChunkLog<R>>, hist': seq<ChunkLog<R>>) {
    && 0 < |hist| <= |hist'|
    && (forall i | 0 <= i < |hist| - 1 :: hist'[i] == hist[i])
    && hist'[|hist| - 1].id == hist[|hist| - 1].id
    && hist[|hist| - 1].recs <= hist'[|hist| - 1].recs
  }

  function WithRecord<R>(hist: seq<ChunkLog<R>>, r: R): seq<ChunkLog<R>>
    requires hist != []
  {
    var last := hist[|hist| - 1];
    hist[..|hist| - 1] + [ChunkLog(last.id, last.recs + [r])]
  }

  function WithChunk<R, S>(env: Env<R, S>, hist: seq<ChunkLog<R>>): seq<ChunkLog<R>>
    requires hist != []
  {
    hist + [ChunkLog(End(env.codec, hist[|hist| - 1]), [env.checkpoint(StateAfter(env, hist))])]
  }

  /** The log with chunk `k` cut after its first `m` records and nothing after it. */
  function Cut<R>(hist: seq<ChunkLog<R>>, k: nat, m: nat): seq<ChunkLog<R>>
    requires k < |hist| && m <= |hist[k].recs|
  {
    hist[..k] + [ChunkLog(hist[k].id, hist[k].recs[..m])]
  }

  /**
   A log stays valid when its chunk `n` is replaced by one with the same id and
   first record, and nothing after it is kept.
   */
  lemma ReplaceLast<R, S>(env: Env<R, S>, hist: seq<ChunkLog<R>>, n: nat, recs: seq<R>)
    requires ValidLog(env, hist) && n < |hist|
    requires recs != [] && recs[0] == hist[n].recs[0] && AllEncodable(env.codec, recs)
    ensures ValidLog(env, hist[..n] + [ChunkLog(hist[n].id, recs)])
  {
    var h := hist[..n] + [ChunkLog(hist[n].id, recs)];
    forall i | 0 < i <= n ensures Follows(env.codec, h, i) {
      assert Follows(env.codec, hist, i);
    }
    forall i | 0 <= i <= n ensures StartsAt(env, h, i) {
      assert StartsAt(env, hist, i);
      assert h[..i] == hist[..i];
    }
  }

  lemma WithRecordValid<R(!new), S(!new)>(env: Env<R, S>, hist: seq<ChunkLog<R>>, r: R)
    requires EnvOk(env) && ValidLog(env, hist) && Encodable(env.codec, r)
    ensures var hist' := WithRecord(hist, r);
            ValidLog(env, hist') && Extends(hist, hist')
            && StateAfter(env, hist') == env.apply(StateAfter(env, hist), r)
  {
    var hist' := WithRecord(hist, r);
    var n := |hist| - 1;
    ReplaceLast(env, hist, n, hist[n].recs + [r]);
    assert hist'[..n] == hist[..n];
    ReplayAppend(env, ReplayChunks(env, env.initial, hist[..n]), hist[n].recs, r);
  }

  lemma ReplayAppend<R, S>(env: Env<R, S>, s: S, recs: seq<R>, r: R)
    ensures Replay(env, s, recs + [r]) == env.apply(Replay(env, s, recs), r)
  {
    assert (recs + [r])[..|recs|] == recs;
  }

  lemma WithChunkValid<R(!new), S(!new)>(env: Env<R, S>, hist: seq<ChunkLog<R>>)
    requires EnvOk(env) && ValidLog(env, hist)
    ensures var hist' := WithChunk(env, hist);
            ValidLog(env, hist') && Extends(hist, hist')
            && StateAfter(env, hist') == StateAfter(env, hist)
  {
    var hist' := WithChunk(env, hist);
    var s := StateAfter(env, hist);
    forall i | 0 < i < |hist'| ensures Follows(env.codec, hist', i) {
      assert i < |hist| ==> Follows(env.codec, hist, i);
    }
    forall i | 0 <= i <= |hist| ensures StartsAt(env, hist', i) {
      assert i < |hist| ==> StartsAt(env, hist, i);
      assert hist'[..i] == hist[..i];
      assert hist[..|hist|] == hist;
    }
    assert hist'[..|hist|] == hist;
    assert Restores(env, s, s);
    ReplayAppend(env, s, [], env.checkpoint(s));
    assert [] + [env.checkpoint(s)] == [env.checkpoint(s)];
  }

  lemma CutValid<R, S>(env: Env<R, S>, hist: seq<ChunkLog<R>>, k: nat, m: nat)
    requires ValidLog(env, hist) && k < |hist| && 0 < m <= |hist[k].recs|
    ensures ValidLog(env, Cut(hist, k, m))
  {
    ReplaceLast(env, hist, k, hist[k].recs[..m]);
  }

  /** A cut loses records only at the end. */
  lemma {:induction false} CutIsPrefix<R>(hist: seq<ChunkLog<R>>, k: nat, m: nat)
    requires k < |hist| && m <= |hist[k].recs|
    ensures AllRecords(Cut(hist, k, m)) <= AllRecords(hist)
    decreases |hist|
  {
    var cut := Cut(hist, k, m);
    assert cut[..|cut| - 1] == hist[..k];
    var front := hist[..|hist| - 1];
    if k == |hist| - 1 {
      assert hist[k].recs == hist[k].recs[..m] + hist[k].recs[m..];
    } else {
      CutIsPrefix(front, k, m);
      assert Cut(front, k, m) == cut;
    }
  }

  /** A replay that starts with a checkpoint does not depend on the state it starts from. */
  lemma {:induction false} CheckpointOverrides<R(!new), S(!new)>(env: Env<R, S>, s: S, x: S, y: S, recs: seq<R>)
    requires EnvOk(env) && recs != [] && recs[0] == env.checkpoint(s)
    ensures Replay(env, x, recs) == Replay(env, y, recs)
    decreases |recs|
  {
    if |recs| == 1 {
      assert Restores(env, x, s) && Restores(env, y, s);
      assert recs[..0] == [];
    } else {
      CheckpointOverrides(env, s, x, y, recs[..|recs| - 1]);
    }
  }

  /**
   Checkpoint sufficiency: whichever prefix of chunks was purged, replaying
   the chunks that survive from any starting state rebuilds the state of the
   full history.
   */
  lemma {:induction false} CheckpointSufficiency<R(!new), S(!new)>(
    env: Env<R, S>, hist: seq<ChunkLog<R>>, lo: nat, start: S)
    requires EnvOk(env) && CheckpointFirst(env, hist) && lo < |hist|
    ensures ReplayChunks(env, start, hist[lo..]) == StateAfter(env, hist)
    decreases |hist|
  {
    var n := |hist| - 1;
    var front := hist[..n];
    var tail := hist[lo..];
    assert tail[|tail| - 1] == hist[n];
    assert tail[..|tail| - 1] == hist[lo..n];
    if lo < n {
      forall i | 0 <= i < n ensures StartsAt(env, front, i) {
        assert StartsAt(env, hist, i);
        assert front[..i] == hist[..i];
      }
      CheckpointSufficiency(env, front, lo, start);
      assert front[lo..] == hist[lo..n];
    } else {
      assert StartsAt(env, hist, n);
      CheckpointOverrides(env, StateAfter(env, front), start, StateAfter(env, front), hist[n].recs);
    }
  }

  // Which records two logs share

  /** Global offset `u` is the end of the first `k` records of chunk `ch`. */
  ghost predicate IsMark<R>(c: Codec<R>, ch: ChunkLog<R>, u: nat, k: nat) {
    k <= |ch.recs| && u == ch.id + |Stream(c, ch.recs[..k])|
  }

  ghost predicate HasMark<R>(c: Codec<R>, ch: ChunkLog<R>, u: nat) {
    exists k: nat :: IsMark(c, ch, u, k)
  }

  /** The first `k` records of chunk `i` are the same in both logs, at the same offset. */
  ghost predicate SharesRecords<R>(h: seq<ChunkLog<R>>, h': seq<ChunkLog<R>>, i: nat, k: nat) {
    && i < |h| && k <= |h[i].recs|
    && i < |h'| && k <= |h'[i].recs|
    && h'[i].id == h[i].id && h'[i].recs[..k] == h[i].recs[..k]
  }

  /** Every record of `h` that ends at or below offset `u` is in `h'`, at the same place. */
  ghost predicate Keeps<R>(c: Codec<R>, h: seq<ChunkLog<R>>, h': seq<ChunkLog<R>>, u: nat) {
    forall i: nat, k: nat | i < |h| && 0 < k <= |h[i].recs| && h[i].id + |Stream(c, h[i].recs[..k])| <= u ::
      SharesRecords(h, h', i, k)
  }

  lemma KeepsTransitive<R>(c: Codec<R>, h: seq<ChunkLog<R>>, h': seq<ChunkLog<R>>, h'': seq<ChunkLog<R>>, u: nat)
    requires Keeps(c, h, h', u) && Keeps(c, h', h'', u)
    ensures Keeps(c, h, h'', u)
  {
    forall i: nat, k: nat | i < |h| && 0 < k <= |h[i].recs| && h[i].id + |Stream(c, h[i].recs[..k])| <= u
      ensures SharesRecords(h, h'', i, k)
    {
      assert SharesRecords(h, h', i, k);
      assert SharesRecords(h', h'', i, k);
    }
  }

  lemma ExtendsKeeps<R>(c: Codec<R>, h: seq<ChunkLog<R>>, h': seq<ChunkLog<R>>, u: nat)
    requires Extends(h, h')
    ensures Keeps(c, h, h', u)
  {
    forall i: nat, k: nat | i < |h| && k <= |h[i].recs| ensures SharesRecords(h, h', i, k) {
      if i == |h| - 1 {
        assert h[i].recs <= h'[i].recs;
      }
    }
  }
}
