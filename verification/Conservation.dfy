/** Where the appended bytes are, in every state of every run. */
module Conservation {
  import opened Bytes
  import opened Codec
  import opened Log
  import opened Requests
  import opened Backlog
  import opened CrashImages
  import opened MainSteps
  import opened System
  import opened Invariant
  import opened Durability

  // Rotation

  lemma StoredOrder<R(!new)>(c: Codec<R>, hist: seq<ChunkLog<R>>, lo: nat, cur: nat, disk: Disk, k: nat) returns (j: nat)
    requires Lawful(c) && Chained(c, hist) && Stored(c, hist, lo, cur, disk) && k in disk && disk[k].os != []
    ensures lo <= j <= cur && k == hist[j].id
    ensures j > lo ==> IsWhole(c, hist[j - 1], disk) && End(c, hist[j - 1]) == k
  {
    hide Stream, Lawful;
    assert IsLive(hist, lo, cur, k);
    j :| lo <= j <= cur && hist[j].id == k;
    if j > lo {
      assert IsWhole(c, hist[j - 1], disk);
      assert Follows(c, hist, j);
    }
  }

  /**
   The rotation invariant: a chunk file holds a byte only if every older chunk
   on disk is complete and durable to its end, and its predecessor ends
   exactly where it starts. Any number of rotations may be queued.
   */
  lemma RotationInvariant<R(!new), S(!new)>(env: Env<R, S>, run: seq<Sys<R, S>>, i: nat, k: nat) returns (j: nat)
    requires EnvOk(env) && IsRun(env, run) && i < |run|
    requires k in run[i].disk && run[i].disk[k].os != []
    ensures run[i].lo <= j < |run[i].hist| && k == run[i].hist[j].id
    ensures forall n {:trigger IsWhole(env.codec, run[i].hist[n], run[i].disk)} |
              run[i].lo <= n < j :: IsWhole(env.codec, run[i].hist[n], run[i].disk)
    ensures j > run[i].lo ==> End(env.codec, run[i].hist[j - 1]) == k
  {
    hide EnvOk, Init, Next, IndexOk, Flows, FilesOk, BatchOk, RepliesOk, Stream, CheckpointFirst, StateAfter;
    var s := run[i];
    EveryStateIsOk(env, run, i);
    OnDiskValid(env, s);
    LawfulOf(env);
    j := StoredOrder(env.codec, s.hist, s.lo, s.cur, s.disk, k);
  }

  lemma LawfulOf<R(!new), S(!new)>(env: Env<R, S>)
    requires EnvOk(env)
    ensures Lawful(env.codec)
  {
  }

  // Conservation

  /** The bytes that requests `q` carry to chunk `j`, when the first of them reaches chunk `cur`. */
  function QueuedFor<R>(q: seq<Request<R>>, cur: nat, j: nat): seq<Byte> {
    if q == [] then []
    else match q[0]
      case Write(w) => (if cur == j then w.data else []) + QueuedFor(q[1..], cur, j)
      case AppendFile(_) => QueuedFor(q[1..], cur + 1, j)
      case RemoveChunks(_) => QueuedFor(q[1..], cur, j)
  }

  lemma {:induction false} NothingForOlder<R>(q: seq<Request<R>>, cur: nat, j: nat)
    requires j < cur
    ensures QueuedFor(q, cur, j) == []
    decreases |q|
  {
    if q != [] {
      NothingForOlder(q[1..], if q[0].AppendFile? then cur + 1 else cur, j);
    }
  }

  lemma {:induction false} FinalCur<R>(p: Pos, q: seq<Request<R>>)
    ensures p.cur <= Final(p, q).cur && p.lo <= Final(p, q).lo
    decreases |q|
  {
    if q != [] {
      FinalCur(Advance(p, q[0]), q[1..]);
    }
  }

  lemma WholeBeforeAttach<R>(c: Codec<R>, hist: seq<ChunkLog<R>>, p: Pos, req: Request<R>)
    requires Allowed(c, hist, p, req)
    ensures p.cur < |hist| && (req.AppendFile? ==> p.have == Stream(c, hist[p.cur].recs) && p.cur + 1 < |hist|)
  {
  }

  /** Requests that are in order deliver to each chunk exactly the bytes it lacks. */
  lemma {:induction false} Delivered<R>(c: Codec<R>, hist: seq<ChunkLog<R>>, p: Pos, q: seq<Request<R>>, j: nat)
    requires Runs(c, hist, p, q) && p.cur <= j <= Final(p, q).cur && (q != [] || p.cur < |hist|)
    requires j < |hist|
    ensures (if j == p.cur then p.have else []) + QueuedFor(q, p.cur, j)
         == if j < Final(p, q).cur then Stream(c, hist[j].recs) else Final(p, q).have
    decreases |q|
  {
    hide Stream, Allowed;
    if q != [] {
      WholeBeforeAttach(c, hist, p, q[0]);
      var p' := Advance(p, q[0]);
      FinalCur(p', q[1..]);
      assert q[1..] == [] ==> Final(p, q) == p';
      if j < p'.cur {
        assert q[0].AppendFile?;
        NothingForOlder(q[1..], p'.cur, j);
        assert p.have + [] == p.have;
      } else {
        Delivered(c, hist, p', q[1..], j);
        if q[0].Write? && j == p.cur {
          assert (p.have + q[0].write.data) + QueuedFor(q[1..], p.cur, j)
              == p.have + (q[0].write.data + QueuedFor(q[1..], p.cur, j));
        }
      }
    } else {
      assert p.have + [] == p.have;
    }
  }

  /** What a file holds; a chunk whose file does not exist yet holds nothing. */
  function FileBytes(disk: Disk, id: nat): seq<Byte> {
    if id in disk then disk[id].os else []
  }

  lemma FileOfLater<R(!new), S(!new)>(env: Env<R, S>, s: Sys<R, S>, j: nat)
    requires EnvOk(env) && OnDisk(env, s) && s.cur < j < |s.hist|
    ensures FileBytes(s.disk, s.hist[j].id) == []
  {
    hide Stream, ReplayChunks, CheckpointFirst, FirstIsDurable;
    IdsIncrease(env.codec, s.hist, s.cur, j);
  }

  ghost predicate Conserved<R, S>(env: Env<R, S>, s: Sys<R, S>, j: nat)
    requires j < |s.hist|
  {
    FileBytes(s.disk, s.hist[j].id) + QueuedFor(Todo(s), s.cur, j)
    + (if j == |s.hist| - 1 then s.main.pending else [])
    == Stream(env.codec, s.hist[j].recs)
  }

  lemma ConservedHere<R(!new), S(!new)>(env: Env<R, S>, s: Sys<R, S>, j: nat)
    requires EnvOk(env) && OnDisk(env, s) && Flows(env, s) && s.lo <= j < |s.hist|
    ensures Conserved(env, s, j)
  {
    hide Stream, ReplayChunks, ValidLog, FirstIsDurable, Runs, Final, Todo, EnvOk, QueuedFor, IsLive;
    var p, q := PosOf(s), Todo(s);
    FinalCur(p, q);
    if j < s.cur {
      assert IsWhole(env.codec, s.hist[j], s.disk);
      NothingForOlder(q, s.cur, j);
    } else {
      Delivered(env.codec, s.hist, p, q, j);
      if j > s.cur {
        FileOfLater(env, s, j);
      }
    }
  }

  /**
   Nothing is lost or duplicated on its way to disk: while the worker runs,
   for every chunk on disk, the bytes in its file, the bytes queued for it and
   the pending bytes make up exactly the records appended to it, in order.
   */
  lemma ConservationAlways<R(!new), S(!new)>(env: Env<R, S>, run: seq<Sys<R, S>>, i: nat, j: nat)
    requires EnvOk(env) && IsRun(env, run) && i < |run| && run[i].worker.status == Running
    requires run[i].lo <= j < |run[i].hist|
    ensures Conserved(env, run[i], j)
  {
    hide EnvOk, Init, Next, IndexOk, OnDisk, Flows, FilesOk, BatchOk, RepliesOk, Stream, Conserved;
    EveryStateIsOk(env, run, i);
    ConservedHere(env, run[i], j);
  }

  // The files together

  /** The bytes of the files of chunks `lo..hi`, in order. */
  function FilesFrom<R>(disk: Disk, hist: seq<ChunkLog<R>>, lo: nat, hi: nat): seq<Byte>
    requires lo <= hi <= |hist|
    decreases hi
  {
    if lo == hi then [] else FilesFrom(disk, hist, lo, hi - 1) + FileBytes(disk, hist[hi - 1].id)
  }

  /** The bytes appended to chunks `lo..hi`, in order. */
  function BytesFrom<R>(c: Codec<R>, hist: seq<ChunkLog<R>>, lo: nat, hi: nat): seq<Byte>
    requires lo <= hi <= |hist|
    decreases hi
  {
    if lo == hi then [] else BytesFrom(c, hist, lo, hi - 1) + Stream(c, hist[hi - 1].recs)
  }

  lemma {:induction false} WholeFiles<R(!new), S(!new)>(env: Env<R, S>, s: Sys<R, S>, hi: nat)
    requires OnDisk(env, s) && s.lo <= hi <= s.cur
    ensures hi <= |s.hist| && FilesFrom(s.disk, s.hist, s.lo, hi) == BytesFrom(env.codec, s.hist, s.lo, hi)
    decreases hi
  {
    hide Stream, ReplayChunks, ValidLog, FirstIsDurable;
    if s.lo < hi {
      WholeFiles(env, s, hi - 1);
      assert IsWhole(env.codec, s.hist[hi - 1], s.disk);
    }
  }

  lemma CurrentIsPrefix<R(!new), S(!new)>(env: Env<R, S>, s: Sys<R, S>)
    requires OnDisk(env, s)
    ensures EnvOk(env) && s.cur < |s.hist|
    ensures FileBytes(s.disk, s.hist[s.cur].id) <= Stream(env.codec, s.hist[s.cur].recs)
  {
    hide Stream, ReplayChunks, ValidLog, FirstIsDurable, IsWhole;
  }

  lemma {:induction false} PrefixFiles<R(!new), S(!new)>(env: Env<R, S>, s: Sys<R, S>, hi: nat)
    requires OnDisk(env, s) && s.cur < hi <= |s.hist| && s.lo <= s.cur
    ensures FilesFrom(s.disk, s.hist, s.lo, hi) <= BytesFrom(env.codec, s.hist, s.lo, hi)
    decreases hi
  {
    hide Stream, OnDisk, FileBytes, EnvOk;
    CurrentIsPrefix(env, s);
    if hi == s.cur + 1 {
      WholeFiles(env, s, s.cur);
    } else {
      PrefixFiles(env, s, hi - 1);
      FileOfLater(env, s, hi - 1);
      assert FilesFrom(s.disk, s.hist, s.lo, hi - 1) + [] == FilesFrom(s.disk, s.hist, s.lo, hi - 1);
    }
  }

  /**
   In every state, also after a failed write, a failed sync or a panic, the
   files read one after the other are a prefix of the bytes appended.
   */
  lemma FilesArePrefix<R(!new), S(!new)>(env: Env<R, S>, run: seq<Sys<R, S>>, i: nat)
    requires EnvOk(env) && IsRun(env, run) && i < |run|
    ensures var s := run[i];
            && s.lo < |s.hist|
            && FilesFrom(s.disk, s.hist, s.lo, |s.hist|) <= BytesFrom(env.codec, s.hist, s.lo, |s.hist|)
  {
    hide EnvOk, Init, Next, IndexOk, OnDisk, Flows, FilesOk, BatchOk, RepliesOk, Stream, FilesFrom, BytesFrom;
    EveryStateIsOk(env, run, i);
    OnDiskPlaced(env, run[i]);
    PrefixFiles(env, run[i], |run[i].hist|);
  }

  /** Once the worker has stopped, no file that exists changes until the log is opened again. */
  lemma FrozenAfterStop<R(!new), S(!new)>(env: Env<R, S>, s: Sys<R, S>, step: Step<R>, s': Sys<R, S>)
    requires s.worker.status != Running && Next(env, s, step, s') && !step.Restart?
    ensures s'.worker == s.worker.(rx := s'.worker.rx) && s'.replies == s.replies
    ensures forall k | k in s.disk :: k in s'.disk && s'.disk[k] == s.disk[k]
  {
    hide MainStep, WorkerStep;
    StoppedStep(s, step, s');
    if MainStep(env, s, step, s') {
      MainFrame(env, s, step, s');
    }
  }

  lemma StoppedStep<R, S>(s: Sys<R, S>, step: Step<R>, s': Sys<R, S>)
    requires s.worker.status != Running && Placed(s)
    ensures WorkerStep(s, step, s') ==> s' == s.(worker := s.worker.(rx := false), queue := [])
  {
  }
}
