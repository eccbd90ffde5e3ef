/** The in-memory index and the reads that go through it. */
module Reading {
  import opened Bytes
  import opened Codec
  import opened RecordStream
  import opened Log
  import opened Requests
  import opened Backlog
  import opened CrashImages
  import opened RecoveredLog
  import opened System
  import opened Invariant
  import opened WorkerSteps
  import opened Durability
  import opened Conservation
  import opened Progress

  /** The segment of record `k`. */
  function SegmentAt(offsets: seq<nat>, k: nat): Segment
    requires k + 1 < |offsets| && offsets[k] <= offsets[k + 1]
  {
    Segment(offsets[k], offsets[k + 1] - offsets[k])
  }

  datatype ReadResult<+R> = Record(rec: R) | ReadError

  /** Reads exactly the bytes of a segment from a chunk file and decodes them. */
  function ReadRecord<R>(c: Codec<R>, file: seq<Byte>, start: nat, seg: Segment): ReadResult<R>
    requires start <= seg.offset
  {
    var at := seg.offset - start;
    if at + seg.size > |file| then ReadError
    else match c.decode(file[at..at + seg.size])
      case Decoded(r, _) => Record(r)
      case _ => ReadError
  }

  predicate StrictlyIncreasing(offsets: seq<nat>) {
    forall i, j | 0 <= i < j < |offsets| :: offsets[i] < offsets[j]
  }

  lemma OffsetsIncrease<R(!new)>(c: Codec<R>, ch: ChunkLog<R>)
    requires Lawful(c) && AllEncodable(c, ch.recs)
    ensures StrictlyIncreasing(Offsets(c, ch)) && Offsets(c, ch)[0] == ch.id && Last(Offsets(c, ch)) == End(c, ch)
  {
    hide Stream, Lawful, AllEncodable;
    var offs := Offsets(c, ch);
    forall i, j | 0 <= i < j < |offs| ensures offs[i] < offs[j] {
      StreamGrows(c, ch.recs, i, j);
    }
    assert ch.recs[..0] == [];
    StreamEmpty(c);
    OffsetsEnd(c, ch);
  }

  /** Reading a segment of a complete file gives the record that was appended there. */
  lemma ReadBack<R(!new)>(c: Codec<R>, ch: ChunkLog<R>, k: nat)
    requires Lawful(c) && AllEncodable(c, ch.recs) && k < |ch.recs|
    ensures Offsets(c, ch)[k] < Offsets(c, ch)[k + 1]
    ensures ch.id <= Offsets(c, ch)[k]
    ensures ReadRecord(c, Stream(c, ch.recs), ch.id, SegmentAt(Offsets(c, ch), k)) == Record(ch.recs[k])
  {
    hide Stream;
    var r, file := ch.recs[k], Stream(c, ch.recs);
    StreamGrows(c, ch.recs, k, k + 1);
    StreamPrefix(c, ch.recs, k);
    var a, b := |Stream(c, ch.recs[..k])|, |Stream(c, ch.recs[..k + 1])|;
    assert file[..b] == Stream(c, ch.recs[..k]) + Bytes1(c, r);
    assert file[a..b] == file[..b][a..b] == Bytes1(c, r);
    assert Encodable(c, r) && RoundTrips(c, r, []);
    assert Bytes1(c, r) + [] == Bytes1(c, r);
  }

  // The chain of chunks

  /** The offsets of the chunks in memory, oldest first. */
  function Indexes<R>(m: Main<R>): (ix: seq<seq<nat>>)
    ensures |ix| == |m.closed| + 1
    ensures forall j | 0 <= j < |m.closed| :: ix[j] == m.closed[j].offsets
    ensures ix[|m.closed|] == m.offsets
  {
    seq(|m.closed|, j requires 0 <= j < |m.closed| => m.closed[j].offsets) + [m.offsets]
  }

  ghost predicate Meets(ix: seq<seq<nat>>, j: nat)
    requires 0 < j < |ix|
  {
    ix[j] != [] && ix[j][0] == Last(ix[j - 1])
  }

  /** Each chunk starts where the one before it ends, and offsets within a chunk increase. */
  ghost predicate Contiguous(ix: seq<seq<nat>>) {
    && (forall j | 0 <= j < |ix| :: |ix[j]| >= 2 && StrictlyIncreasing(ix[j]))
    && (forall j | 0 < j < |ix| :: Meets(ix, j))
  }

  function SizeOfChunk(offsets: seq<nat>): int {
    if offsets == [] then 0 else Last(offsets) - offsets[0]
  }

  function TotalSize(ix: seq<seq<nat>>): int {
    if ix == [] then 0 else TotalSize(ix[..|ix| - 1]) + SizeOfChunk(ix[|ix| - 1])
  }

  /** The size that the log reports: from the start of its oldest chunk to the end of the open one. */
  function OnDiskSize<R>(m: Main<R>): int
    requires m.offsets != []
  {
    var first := if m.closed != [] && m.closed[0].offsets != [] then m.closed[0].offsets[0] else m.offsets[0];
    Last(m.offsets) - first
  }

  lemma {:induction false} Telescopes(ix: seq<seq<nat>>)
    requires Contiguous(ix) && ix != []
    ensures TotalSize(ix) == Last(ix[|ix| - 1]) - ix[0][0]
  {
    var front := ix[..|ix| - 1];
    if front == [] {
      assert TotalSize(front) == 0;
    } else {
      forall j | 0 < j < |front| ensures Meets(front, j) {
        assert Meets(ix, j);
      }
      Telescopes(front);
      assert Meets(ix, |ix| - 1);
    }
  }

  lemma ChunkIndex<R(!new), S(!new)>(env: Env<R, S>, s: Sys<R, S>, j: nat)
    requires EnvOk(env) && ValidLog(env, s.hist) && IndexOk(env, s) && j <= |s.main.closed|
    ensures s.drained + j < |s.hist| && Indexes(s.main)[j] == Offsets(env.codec, s.hist[s.drained + j])
  {
    hide Stream, ReplayChunks, CheckpointFirst, Offsets, Chained;
    if j < |s.main.closed| {
      assert ClosedOk(env, s.hist, s.drained + j, s.main.closed[j]);
    }
  }

  lemma IndexContiguous<R(!new), S(!new)>(env: Env<R, S>, s: Sys<R, S>)
    requires EnvOk(env) && ValidLog(env, s.hist) && IndexOk(env, s)
    ensures Contiguous(Indexes(s.main))
  {
    hide Stream, ReplayChunks, CheckpointFirst, Offsets, IndexOk, ClosedOk, StrictlyIncreasing;
    var ix := Indexes(s.main);
    forall j | 0 <= j < |ix| ensures |ix[j]| >= 2 && StrictlyIncreasing(ix[j]) {
      ChunkIndex(env, s, j);
      OffsetsIncrease(env.codec, s.hist[s.drained + j]);
    }
    forall j | 0 < j < |ix| ensures Meets(ix, j) {
      ChunkIndex(env, s, j);
      ChunkIndex(env, s, j - 1);
      OffsetsIncrease(env.codec, s.hist[s.drained + j]);
      OffsetsIncrease(env.codec, s.hist[s.drained + j - 1]);
      assert Follows(env.codec, s.hist, s.drained + j);
    }
  }

  /**
   In every state the index is one contiguous chain of strictly increasing
   offsets, and the reported size is the sum of the sizes of its chunks.
   */
  lemma IndexIsChain<R(!new), S(!new)>(env: Env<R, S>, run: seq<Sys<R, S>>, i: nat)
    requires EnvOk(env) && IsRun(env, run) && i < |run|
    ensures Contiguous(Indexes(run[i].main)) && run[i].main.offsets != []
    ensures OnDiskSize(run[i].main) == TotalSize(Indexes(run[i].main))
  {
    hide EnvOk, Init, Next, OnDisk, IndexOk, Flows, FilesOk, BatchOk, RepliesOk, StrictlyIncreasing, TotalSize;
    EveryStateIsOk(env, run, i);
    OnDiskValid(env, run[i]);
    IndexContiguous(env, run[i]);
    Telescopes(Indexes(run[i].main));
    var m := run[i].main;
    assert Indexes(m)[0] == if m.closed != [] then m.closed[0].offsets else m.offsets;
  }

  /** A chunk counts as full by the records and bytes the log holds in it. */
  lemma FullMeans<R(!new), S(!new)>(env: Env<R, S>, run: seq<Sys<R, S>>, i: nat)
    requires EnvOk(env) && IsRun(env, run) && i < |run|
    ensures run[i].hist != []
    ensures var last := run[i].hist[|run[i].hist| - 1];
            IsFull(env, run[i].main) <==> |last.recs| >= env.maxRecords || |Stream(env.codec, last.recs)| >= env.maxSize
  {
    hide Init, Next, Flows, FilesOk, BatchOk, RepliesOk, Stream, ReplayChunks, CheckpointFirst, Offsets, ClosedOk, Stored;
    EveryStateIsOk(env, run, i);
    OnDiskValid(env, run[i]);
    OffsetsIncrease(env.codec, run[i].hist[|run[i].hist| - 1]);
  }

  // Reads from closed chunks

  lemma ClosedIsOnDisk<R(!new), S(!new)>(env: Env<R, S>, s: Sys<R, S>, n: nat)
    requires Inv(env, s) && s.worker.status == Running && s.drained <= n < s.cur
    ensures IsWhole(env.codec, s.hist[n], s.disk)
  {
    hide Stream, ReplayChunks, ValidLog, FirstIsDurable, Runs, Final, RepliesOk, FilesOk, BatchOk, ClosedOk;
    FinalCur(PosOf(s), Todo(s));
    assert s.lo <= n;
  }

  lemma IdleIsAtEnd<R(!new), S(!new)>(env: Env<R, S>, s: Sys<R, S>)
    requires Inv(env, s) && s.worker.status == Running && !HasWork(s)
    ensures s.cur == |s.hist| - 1
  {
    hide Stream, OnDisk, RepliesOk, FilesOk, BatchOk, IndexOk;
    assert Todo(s) == BeingSent(s.sending);
    if Todo(s) != [] {
      OneRuns(env.codec, s.hist, PosOf(s), s.sending.value);
    }
  }

  /**
   Once the worker is idle, reading segment `k` of any closed chunk from its
   file returns the `k`-th record appended to that chunk.
   */
  lemma ReadsWhatWasAppended<R(!new), S(!new)>(env: Env<R, S>, run: seq<Sys<R, S>>, i: nat, j: nat, k: nat)
    requires EnvOk(env) && IsRun(env, run) && i < |run| && run[i].worker.status == Running && !HasWork(run[i])
    requires j < |run[i].main.closed| && k + 1 < |run[i].main.closed[j].offsets|
    ensures var (s, offs) := (run[i], run[i].main.closed[j].offsets);
            && s.drained + j < |s.hist| && k < |s.hist[s.drained + j].recs|
            && offs[0] in s.disk && offs[0] <= offs[k] < offs[k + 1]
            && ReadRecord(env.codec, s.disk[offs[0]].os, offs[0], SegmentAt(offs, k)) == Record(s.hist[s.drained + j].recs[k])
  {
    hide Init, Next, OnDisk, Flows, FilesOk, BatchOk, RepliesOk, Stream, HasWork, ReplayChunks, CheckpointFirst, Offsets,
    ReadRecord, ClosedOk, Lawful;
    var s := run[i];
    EveryStateIsOk(env, run, i);
    OnDiskValid(env, s);
    IdleIsAtEnd(env, s);
    ChunkIndex(env, s, j);
    var n := s.drained + j;
    ClosedIsOnDisk(env, s, n);
    OffsetsIncrease(env.codec, s.hist[n]);
    ReadBack(env.codec, s.hist[n], k);
  }
}
