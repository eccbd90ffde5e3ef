/**
 Rotations that fail after they created their file. The log goes on in its old
 chunk, beside a stray empty file that nothing refers to.
 */
module FailedRotations {
  import opened Bytes
  import opened Codec
  import opened RecordStream
  import opened Log
  import opened Requests
  import opened Recovery
  import opened CrashImages
  import opened RecoveredLog
  import opened System
  import opened Invariant
  import opened MainSteps
  import opened Crashes
  import opened Durability
  import opened Completion
  import opened Progress
  import opened Runs
  import opened WorkerBatches
  import opened Scenarios
  import opened Reopening
  import opened Purging
  import opened Orphans

  // Runs with stray files

  /** The file was created and the rotation failed: the directory has one file more, and the log is as before. */
  ghost predicate CreationFails<R, S>(
    env: Env<R, S>, s: Sys<R, S>, strays: set<nat>, s': Sys<R, S>, strays': set<nat>)
  {
    var id := Last(s.main.offsets);
    && MainFree(s) && s.main.open && IsFull(env, s.main) && id !in s.disk && id !in strays
    && (s.worker.status == Running ==> Placed(s) && Settled(s))
    && s' == s && strays' == strays + {id}
  }

  /** A step of the system; a rotation cannot create a file that is there. */
  ghost predicate PlainStep<R(!new), S>(
    env: Env<R, S>, s: Sys<R, S>, strays: set<nat>, s': Sys<R, S>, strays': set<nat>)
  {
    && strays' == strays
    && exists step :: Next(env, s, step, s') && !step.Restart? && (step.Rotate? ==> Last(s.main.offsets) !in strays)
  }

  /** A crash, after which `open` finds some of the stray files, which were never synced, and succeeds all the same. */
  ghost predicate RestartsWith<R, S>(
    env: Env<R, S>, s: Sys<R, S>, strays: set<nat>, s': Sys<R, S>, image: Disk, kept: set<nat>, ids: seq<nat>, m: nat)
  {
    && Bounded(env.codec) && OldestDurable(env.codec, s)
    && CrashImage(env.codec, s, image) && kept <= strays && IsListing(ids, image.Keys + kept)
    && Image(env.codec, s.hist, s.lo, s.cur, m, image)
    && var res := Open(env, WithFiles(image, kept), ids, env.initial, true);
       && res.Ok?
       && var hist' := LogAfter(env, s.hist, s.lo, s.cur, m, IsClean(env.codec, s.hist, s.cur, m, image));
          hist' != [] && s' == Booted(res.value, hist', s.lo, s.replies, s.careful)
  }

  /** The directory that `open` leaves has no stray file any more. */
  ghost predicate StrayRestart<R, S>(
    env: Env<R, S>, s: Sys<R, S>, strays: set<nat>, s': Sys<R, S>, strays': set<nat>)
  {
    && strays' == {}
    && exists image: Disk, kept: set<nat>, ids: seq<nat>, m: nat :: RestartsWith(env, s, strays, s', image, kept, ids, m)
  }

  ghost predicate StrayStep<R(!new), S>(
    env: Env<R, S>, s: Sys<R, S>, strays: set<nat>, s': Sys<R, S>, strays': set<nat>)
  {
    || CreationFails(env, s, strays, s', strays')
    || PlainStep(env, s, strays, s', strays')
    || StrayRestart(env, s, strays, s', strays')
  }

  /** A run whose directory has stray files: `strays[i]` are those beside state `run[i]`. */
  ghost predicate IsStrayRun<R(!new), S>(env: Env<R, S>, run: seq<Sys<R, S>>, strays: seq<set<nat>>) {
    && run != [] && |strays| == |run| && Init(env, run[0]) && strays[0] == {}
    && forall i | 0 <= i < |run| - 1 :: StrayStep(env, run[i], strays[i], run[i + 1], strays[i + 1])
  }

  lemma StutterIsStep<R(!new), S(!new)>(env: Env<R, S>, s: Sys<R, S>)
    requires Placed(s) && MainFree(s)
    ensures Steps(env, s, s)
  {
    assert s.main.closed[0..] == s.main.closed;
    assert MainStep(env, s, Drain(0), s);
    assert Next(env, s, Drain(0), s);
  }

  /** An `open` that gets past the stray files does what it does without them. */
  lemma RestartIsPlain<R(!new), S(!new)>(
    env: Env<R, S>, s: Sys<R, S>, strays: set<nat>, s': Sys<R, S>, image: Disk, kept: set<nat>, ids: seq<nat>, m: nat)
    requires EnvOk(env) && Inv(env, s) && AreStray(s.disk, strays) && RestartsWith(env, s, strays, s', image, kept, ids, m)
    ensures Steps(env, s, s')
  {
    hide CrashImage, Open, IsListing, EnvOk, OldestDurable, Image, IsClean, LogAfter, AreStray, IndexOk, Flows, FilesOk, BatchOk,
    RepliesOk, OnDisk, MainStep, WorkerStep;
    OnDiskPlaced(env, s);
    OnDiskValid(env, s);
    KeptAreStray(env.codec, s, image, strays, kept);
    var plain := ListingExists(image.Keys);
    OrphansAreHarmlessIff(env, s.hist, s.lo, s.cur, m, image, kept, ids, plain, env.initial);
    assert DoesRestart(env, s, image, plain, m, s');
    assert Next(env, s, Restart(image, plain, m), s');
  }

  lemma StrayStepIsStep<R(!new), S(!new)>(
    env: Env<R, S>, s: Sys<R, S>, strays: set<nat>, s': Sys<R, S>, strays': set<nat>)
    requires EnvOk(env) && Inv(env, s) && AreStray(s.disk, strays)
    requires StrayStep(env, s, strays, s', strays')
    ensures Steps(env, s, s')
  {
    hide MainStep, WorkerStep, RestartsWith, Open, Settled, IsFull, Inv, EnvOk, AreStray;
    InvPlaced(env, s);
    if CreationFails(env, s, strays, s', strays') {
      StutterIsStep(env, s);
    } else if PlainStep(env, s, strays, s', strays') {
      var step :| Next(env, s, step, s') && !step.Restart? && (step.Rotate? ==> Last(s.main.offsets) !in strays);
    } else {
      var image: Disk, kept: set<nat>, ids: seq<nat>, m: nat :| RestartsWith(env, s, strays, s', image, kept, ids, m);
      RestartIsPlain(env, s, strays, s', image, kept, ids, m);
    }
  }

  /** Failed rotations are invisible to the log: its states are those of a run without them. */
  lemma {:induction false} StrayRunIsRun<R(!new), S(!new)>(env: Env<R, S>, run: seq<Sys<R, S>>, strays: seq<set<nat>>, n: nat)
    requires EnvOk(env) && IsStrayRun(env, run, strays) && 0 < n <= |run|
    ensures IsRun(env, run[..n])
  {
    hide Init, Steps, StrayStep, Inv, EnvOk, AreStray;
    if n > 1 {
      StrayRunIsRun(env, run, strays, n - 1);
      EveryStateIsOk(env, run[..n - 1], n - 2);
      StraysAreFree(env, run, strays, n - 2);
      assert StrayStep(env, run[n - 2], strays[n - 2], run[n - 2 + 1], strays[n - 2 + 1]);
      StrayStepIsStep(env, run[n - 2], strays[n - 2], run[n - 1], strays[n - 1]);
      var more := run[..n - 1] + [run[n - 1]];
      OneLonger(env, run[..n - 1], run[n - 1]);
      assert more == run[..n];
    }
  }

  /**
   A crash at any point of a run with failed rotations: the log can be opened
   if and only if every stray file that survives lies after the last chunk
   with a record, and then recovery is what it is without those files.
   */
  lemma CrashWithStrays<R(!new), S(!new)>(
    env: Env<R, S>, run: seq<Sys<R, S>>, strays: seq<set<nat>>, i: nat, image: Disk, kept: set<nat>,
    ids: seq<nat>, plain: seq<nat>) returns (m: nat)
    requires EnvOk(env) && IsStrayRun(env, run, strays) && i < |run|
    requires CrashImage(env.codec, run[i], image) && kept <= strays[i]
    requires IsListing(ids, image.Keys + kept) && IsListing(plain, image.Keys)
    ensures run[i].lo <= run[i].cur < |run[i].hist|
    ensures HoldsPrefix(env.codec, run[i].hist[run[i].cur].recs, m, FileOf(image, run[i].hist[run[i].cur].id))
    ensures var res := Open(env, WithFiles(image, kept), ids, env.initial, true);
            && (res.Ok? <==> forall k | k in kept :: AfterRecords(run[i].hist, run[i].lo, run[i].cur, m, k))
            && (res.Ok? ==> res == Open(env, image, plain, env.initial, true))
  {
    hide Init, Next, StrayStep, OnDisk, CrashImage, Open, IsListing, EnvOk, CoversDurable, Stored, HoldsPrefix, IndexOk, Flows,
    FilesOk, BatchOk, RepliesOk, AreStray, IsStrayRun;
    StrayIndex(env, run, strays);
    StrayRunIsRun(env, run, strays, |run|);
    assert run[..|run|] == run;
    EveryStateIsOk(env, run, i);
    var s := run[i];
    OnDiskPlaced(env, s);
    OnDiskValid(env, s);
    m := CrashLeavesImage(env, s, image);
    StoredIndex(env.codec, s.hist, s.lo, s.cur, image);
    StraysAreFree(env, run, strays, i);
    KeptAreStray(env.codec, s, image, strays[i], kept);
    OrphansAreHarmlessIff(env, s.hist, s.lo, s.cur, m, image, kept, ids, plain, env.initial);
  }

  lemma KeptAreStray<R, S>(c: Codec<R>, s: Sys<R, S>, image: Disk, strays: set<nat>, kept: set<nat>)
    requires CrashImage(c, s, image) && AreStray(s.disk, strays) && kept <= strays
    ensures AreStray(image, kept)
  {
    assert image.Keys == s.disk.Keys;
  }

  /** No step of the log creates a file that is already there as a stray. */
  lemma {:induction false} StraysAreFree<R(!new), S(!new)>(
    env: Env<R, S>, run: seq<Sys<R, S>>, strays: seq<set<nat>>, i: nat)
    requires IsStrayRun(env, run, strays) && i < |run|
    ensures AreStray(run[i].disk, strays[i])
  {
    hide Init, StrayStep;
    if i > 0 {
      StraysAreFree(env, run, strays, i - 1);
      assert StrayStep(env, run[i - 1], strays[i - 1], run[i - 1 + 1], strays[i - 1 + 1]);
      StrayStepFree(env, run[i - 1], strays[i - 1], run[i], strays[i]);
    }
  }

  lemma StrayStepFree<R(!new), S(!new)>(
    env: Env<R, S>, s: Sys<R, S>, strays: set<nat>, s': Sys<R, S>, strays': set<nat>)
    requires StrayStep(env, s, strays, s', strays') && AreStray(s.disk, strays)
    ensures AreStray(s'.disk, strays')
  {
    hide MainStep, WorkerStep, RestartsWith, Settled, IsFull;
    if PlainStep(env, s, strays, s', strays') {
      var step :| Next(env, s, step, s') && !step.Restart? && (step.Rotate? ==> Last(s.main.offsets) !in strays);
      if MainStep(env, s, step, s') {
        MainFrame(env, s, step, s');
      } else {
        WorkerKeys(s, step, s');
      }
    }
  }

  lemma WorkerKeys<R, S>(s: Sys<R, S>, step: Step<R>, s': Sys<R, S>)
    requires Placed(s) && WorkerStep(s, step, s')
    ensures s'.disk.Keys <= s.disk.Keys
  {
    hide Data, NeedsSync, BatchEnd, RepliesOf, DoesFinish, DoesTakeWrites;
    match step
    case TakeWrites(n, withNext) => TakeFrame(s, n, withNext, s');
    case Finish => FinishFrame(s, s');
    case _ =>
  }

  function FileOf(disk: Disk, id: nat): seq<Byte> {
    if id in disk then disk[id].os else []
  }

  lemma StrayIndex<R(!new), S(!new)>(env: Env<R, S>, run: seq<Sys<R, S>>, strays: seq<set<nat>>)
    requires IsStrayRun(env, run, strays)
    ensures |strays| == |run| > 0
  {
  }

  // How a log becomes impossible to open

  /** A run of the system, with one rotation that fails at state `p` and a log that goes on beyond it. */
  function StraysOf(n: nat, p: nat, id: nat): (strays: seq<set<nat>>)
    ensures |strays| == n
  {
    seq(n, i requires 0 <= i < n => if i <= p then {} else {id})
  }

  lemma PlainRunStep<R(!new), S(!new)>(env: Env<R, S>, s: Sys<R, S>, s': Sys<R, S>)
    requires Steps(env, s, s')
    ensures StrayStep(env, s, {}, s', {})
  {
    hide MainStep, WorkerStep, DoesRestart;
    var step :| Next(env, s, step, s');
    if step.Restart? {
      RestartAlone(env, s, step.image, step.ids, step.whole, s');
    } else {
      assert step.Rotate? ==> Last(s.main.offsets) !in {};
      assert PlainStep(env, s, {}, s', {});
    }
  }

  lemma RestartAlone<R(!new), S(!new)>(env: Env<R, S>, s: Sys<R, S>, image: Disk, plain: seq<nat>, m: nat, s': Sys<R, S>)
    requires DoesRestart(env, s, image, plain, m, s')
    ensures StrayRestart(env, s, {}, s', {})
  {
    hide Open, CrashImage, Image;
    assert image.Keys + {} == image.Keys && WithFiles(image, {}) == image;
    assert RestartsWith(env, s, {}, s', image, {}, plain, m);
  }

  lemma ProceedsIsPlain<R(!new), S(!new)>(env: Env<R, S>, s: Sys<R, S>, s': Sys<R, S>, id: nat)
    requires Proceeds(env, s, s') && Last(s.main.offsets) > id
    ensures StrayStep(env, s, {id}, s', {id})
  {
    hide MainStep, WorkerStep;
    var step :| Next(env, s, step, s') && !step.Restart? && !step.Fail? && !step.Stop? && !step.DropReceiver?;
    assert PlainStep(env, s, {id}, s', {id});
  }

  /** At state `p` a creation fails, then a record is appended, and then the log goes on beyond the stray file. */
  ghost predicate GoesBeyondAt<R(!new), S>(env: Env<R, S>, run: seq<Sys<R, S>>, p: nat, id: nat) {
    && p + 2 < |run| && run[p].worker.status == Running && run[p + 2].worker.status == Running
    && CreationFails(env, run[p], {}, run[p + 1], {id})
    && StrayStep(env, run[p + 1], {id}, run[p + 2], {id})
    && Last(run[p + 2].main.offsets) > id
    && forall n | p + 2 <= n < |run| - 1 :: Proceeds(env, run[n], run[n + 1])
  }

  /** The stray run: as `run` up to `p`, where the creation fails, then one append, then beyond the stray file. */
  lemma MakesStrayRun<R(!new), S(!new)>(env: Env<R, S>, run: seq<Sys<R, S>>, p: nat, id: nat)
    requires EnvOk(env) && IsRun(env, run) && GoesBeyondAt(env, run, p, id)
    ensures IsStrayRun(env, run, StraysOf(|run|, p, id))
  {
    hide EnvOk, Init, Steps, StrayStep, Proceeds, CreationFails;
    var strays := StraysOf(|run|, p, id);
    forall i | 0 <= i < |run| - 1 ensures StrayStep(env, run[i], strays[i], run[i + 1], strays[i + 1]) {
      if i < p {
        assert Steps(env, run[i], run[i + 1]);
        PlainRunStep(env, run[i], run[i + 1]);
      } else if i == p {
        FailsIsStep(env, run[p], run[p + 1], id);
      } else if i >= p + 2 {
        GoesOnBound(env, run, p + 2, i);
        assert Proceeds(env, run[i], run[i + 1]);
        ProceedsIsPlain(env, run[i], run[i + 1], id);
      }
    }
  }

  lemma FailsIsStep<R(!new), S(!new)>(env: Env<R, S>, s: Sys<R, S>, s': Sys<R, S>, id: nat)
    requires CreationFails(env, s, {}, s', {id})
    ensures StrayStep(env, s, {}, s', {id})
  {
  }

  /** From a full chunk whose bytes are synced: a failed creation, an append, and a rotation that succeeds. */
  lemma GoesBeyond<R(!new), S(!new)>(env: Env<R, S>, run: seq<Sys<R, S>>, r: R) returns (run': seq<Sys<R, S>>, id: nat)
    requires EnvOk(env) && IsRun(env, run) && Encodable(env.codec, r) && Ready(End1(run))
    requires Placed(End1(run)) && Settled(End1(run)) && IsFull(env, End1(run).main)
    ensures IsRun(env, run') && |run| < |run'| && run'[..|run|] == run
    ensures GoesBeyondAt(env, run', |run| - 1, id)
    ensures Ready(End1(run')) && End1(run').main.pending == []
    ensures End1(run').main.offsets != [] && id < End1(run').main.offsets[0]
  {
    hide EnvOk, Init, Steps, StrayStep, Proceeds, Settled, HasWork, Rotated, WithChunk, IsFull, CreationFails, GoesOn;
    var s := End1(run);
    id := Last(s.main.offsets);
    ReadyFacts(env, run);
    CreationCanFail(env, s);
    StutterIsStep(env, s);
    OneLonger(env, run, s);
    var run0 := run + [s];
    var run1 := AppendOn(env, run0, r);
    AppendIsStray(env, s, End1(run1), r, id, run0, run1);
    IsRunOf(env, run0, run1);
    var run2 := SendOn(env, run1, true);
    IsRunOf(env, run1, run2);
    KeepsFull(env, End1(run1).main, End1(run2).main);
    var run3 := RotateOn(env, run2);
    IsRunOf(env, run2, run3);
    run' := SendOn(env, run3, false);
    IsRunOf(env, run3, run');
    GoesOnTwice(env, run1, run2, run3);
    GoesOnTwice(env, run1, run3, run');
    FirstOffset(env.codec, End1(run2).main, env.checkpoint(End1(run2).sm));
    BeyondParts(env, run, run0, run1, run');
  }

  lemma CreationCanFail<R(!new), S(!new)>(env: Env<R, S>, s: Sys<R, S>)
    requires Placed(s) && MainFree(s) && s.main.open && IsFull(env, s.main) && Settled(s)
    requires Last(s.main.offsets) !in s.disk
    ensures CreationFails(env, s, {}, s, {Last(s.main.offsets)})
  {
    hide Settled, IsFull;
    assert {} + {Last(s.main.offsets)} == {Last(s.main.offsets)};
  }

  lemma AppendIsStray<R(!new), S(!new)>(
    env: Env<R, S>, s: Sys<R, S>, s': Sys<R, S>, r: R, id: nat, run0: seq<Sys<R, S>>, run1: seq<Sys<R, S>>)
    requires run0 != [] && End1(run0) == s && run1 == run0 + [s'] && GoesOn(env, run0, run1) && Placed(s)
    requires Last(s.main.offsets) == id && s'.main == Appended(env.codec, s.main, r) && Last(s'.main.offsets) > id
    ensures StrayStep(env, s, {id}, s', {id})
  {
    hide MainStep, WorkerStep, Init, IsRun;
    assert Proceeds(env, run1[|run0| - 1], run1[|run0| - 1 + 1]);
    var step :| Next(env, s, step, s') && !step.Restart? && !step.Fail? && !step.Stop? && !step.DropReceiver?;
    if step.Rotate? && MainStep(env, s, step, s') {
      RotateKeepsMain(env, s, s');
      assert false;
    }
    NotWorkerRotate(s, step, s');
    assert PlainStep(env, s, {id}, s', {id});
  }

  lemma NotWorkerRotate<R, S>(s: Sys<R, S>, step: Step<R>, s': Sys<R, S>)
    requires Placed(s)
    ensures WorkerStep(s, step, s') ==> !step.Rotate?
  {
  }

  lemma FirstOffset<R>(c: Codec<R>, m: Main<R>, ck: R)
    ensures Rotated(c, m, ck).offsets != [] && Rotated(c, m, ck).offsets[0] == Last(m.offsets)
    ensures Rotated(c, m, ck).open == m.open
  {
  }

  lemma BeyondParts<R(!new), S(!new)>(
    env: Env<R, S>, run: seq<Sys<R, S>>, run0: seq<Sys<R, S>>, run1: seq<Sys<R, S>>, run': seq<Sys<R, S>>)
    requires run != [] && run1 != [] && run0 == run + [End1(run)] && run1 == run0 + [End1(run1)] && GoesOn(env, run1, run')
    ensures run'[..|run|] == run && |run| + 1 < |run'|
    ensures run'[|run| - 1] == run'[|run|] == End1(run) && run'[|run| + 1] == End1(run1)
    ensures forall n | |run| + 1 <= n < |run'| - 1 :: Proceeds(env, run'[n], run'[n + 1])
  {
    hide Proceeds, IsRun;
    assert run'[..|run1|] == run1;
    assert run'[..|run|] == run1[..|run|] == run;
    assert run'[|run| - 1] == run1[|run| - 1] && run'[|run|] == run1[|run|] && run'[|run| + 1] == run1[|run| + 1];
  }

  /**
   How a log becomes impossible to open. From every reachable state that is
   idle and whose chunk is full: the rotation fails once its file exists, one
   more record is appended, and the next rotation succeeds. Then everything is
   complete on disk, and `open` fails, with or without a crash.
   */
  lemma FailedRotationBlocks<R(!new), S(!new)>(env: Env<R, S>, run: seq<Sys<R, S>>, r: R)
    returns (run': seq<Sys<R, S>>, strays: seq<set<nat>>, id: nat)
    requires EnvOk(env) && IsRun(env, run) && Encodable(env.codec, r) && Ready(End1(run)) && IsFull(env, End1(run).main)
    ensures IsStrayRun(env, run', strays) && |run| < |run'| && run'[..|run|] == run && strays[|run'| - 1] == {id}
    ensures AtRest(End1(run'))
    ensures forall ids | IsListing(ids, End1(run').disk.Keys + {id}) ::
              CannotOpen(env, WithFiles(End1(run').disk, {id}), ids)
  {
    hide EnvOk, Init, Steps, StrayStep, Proceeds, Settled, HasWork, IsFull, CreationFails, CannotOpen, IsListing, IsStrayRun,
    GoesBeyondAt, GoesOn;
    var run1 := SendOn(env, run, true);
    IsRunOf(env, run, run1);
    LengthOf(env, run, run1);
    KeepsFull(env, End1(run).main, End1(run1).main);
    run', id := GoesBeyond(env, run1, r);
    var p := |run1| - 1;
    strays := StraysOf(|run'|, p, id);
    MakesStrayRun(env, run', p, id);
    assert run'[..|run|] == run'[..|run1|][..|run|] == run;
    ReadyIsAtRest(End1(run'));
    forall ids | IsListing(ids, End1(run').disk.Keys + {id}) ensures CannotOpen(env, WithFiles(End1(run').disk, {id}), ids) {
      StrayBlocks(env, run', strays, id, ids);
    }
  }

  ghost predicate CannotOpen<R, S>(env: Env<R, S>, disk: Disk, ids: seq<nat>) {
    Bounded(env.codec) && Open(env, disk, ids, env.initial, true).Err?
  }

  lemma LengthOf<R(!new), S(!new)>(env: Env<R, S>, run: seq<Sys<R, S>>, run': seq<Sys<R, S>>)
    requires GoesOn(env, run, run')
    ensures |run| <= |run'| && run'[..|run|] == run
  {
  }

  lemma ReadyIsAtRest<R, S>(s: Sys<R, S>)
    requires Ready(s) && s.main.pending == []
    ensures AtRest(s)
  {
  }

  lemma StrayBlocks<R(!new), S(!new)>(
    env: Env<R, S>, run: seq<Sys<R, S>>, strays: seq<set<nat>>, id: nat, ids: seq<nat>)
    requires EnvOk(env) && IsRun(env, run) && IsStrayRun(env, run, strays) && strays[|run| - 1] == {id}
    requires AtRest(End1(run)) && End1(run).main.offsets != [] && id < End1(run).main.offsets[0]
    requires IsListing(ids, End1(run).disk.Keys + {id})
    ensures CannotOpen(env, WithFiles(End1(run).disk, {id}), ids)
  {
    hide Init, Steps, StrayStep, Open, IsListing, Stored, HoldsPrefix, Flows, FilesOk, BatchOk, RepliesOk, AreStray, Stream,
    CheckpointFirst, StateAfter, ClosedOk, Lawful;
    var s := End1(run);
    StraysAreFree(env, run, strays, |run| - 1);
    EveryStateIsOk(env, run, |run| - 1);
    AtRestIsWhole(env, s);
    EnvBounded(env);
    var n := |s.hist| - 1;
    assert s.hist[n].recs[..0] == [];
    StreamEmpty(env.codec);
    var plain := ListingExists(s.disk.Keys);
    OrphansAreHarmlessIff(env, s.hist, s.lo, s.cur, |s.hist[n].recs|, s.disk, {id}, ids, plain, env.initial);
    assert id in {id} && !AfterRecords(s.hist, s.lo, s.cur, |s.hist[n].recs|, id);
  }
}
