/** The worker's chunk-persisted notifications: exact, ordered, and ahead of every attachment. */
module Notifications {
  import opened Codec
  import opened Log
  import opened Requests
  import opened Backlog
  import opened Recovery
  import opened CrashImages
  import opened RecoveredLog
  import opened System
  import opened Invariant
  import opened MainSteps
  import opened WorkerSteps
  import opened Durability

  /** The checkpoint that closed the chunk before `j`; absent only when no such chunk was on disk. */
  ghost predicate PrevOk<R>(hist: seq<ChunkLog<R>>, lo: nat, j: nat, prev: Option<R>) {
    && j < |hist| && hist[j].recs != []
    && (prev == Some(hist[j].recs[0]) || (prev == None && j <= lo))
  }

  /** A notification about chunk `j`: it names its start and the end of one of its records. */
  ghost predicate Announces<R>(c: Codec<R>, hist: seq<ChunkLog<R>>, lo: nat, j: nat, note: Note<R>) {
    && PrevOk(hist, lo, j, note.prev)
    && note.start == hist[j].id && HasMark(c, hist[j], note.synced)
  }

  ghost predicate NoteOk<R>(c: Codec<R>, hist: seq<ChunkLog<R>>, lo: nat, cur: nat, note: Note<R>) {
    exists j: nat | j <= cur :: Announces(c, hist, lo, j, note)
  }

  ghost predicate InOrder<R>(notes: seq<Note<R>>) {
    forall i, j | 0 <= i <= j < |notes| :: notes[i].synced <= notes[j].synced
  }

  ghost predicate NotesOk<R, S>(env: Env<R, S>, s: Sys<R, S>) {
    && InOrder(s.notes)
    && (forall n | 0 <= n < |s.notes| :: NoteOk(env.codec, s.hist, s.lo, s.cur, s.notes[n]))
    && (forall n | 0 <= n < |s.notes| :: Durable(env, s, s.notes[n].synced))
    && (s.worker.status == Running ==>
          && s.worker.files != []
          && PrevOk(s.hist, s.lo, s.cur, s.worker.files[|s.worker.files| - 1].prev))
  }

  // Steps

  ghost predicate Onward<R, S>(s: Sys<R, S>, s': Sys<R, S>) {
    (s'.hist == s.hist || Extends(s.hist, s'.hist)) && s.lo <= s'.lo && s.cur <= s'.cur
  }

  lemma PrevOnward<R, S>(s: Sys<R, S>, s': Sys<R, S>, j: nat, prev: Option<R>)
    requires Onward(s, s') && PrevOk(s.hist, s.lo, j, prev)
    ensures PrevOk(s'.hist, s'.lo, j, prev)
  {
    if s'.hist != s.hist {
      assert s.hist[j].recs <= s'.hist[j].recs;
    }
  }

  lemma MarkExtends<R>(c: Codec<R>, h: seq<ChunkLog<R>>, h': seq<ChunkLog<R>>, j: nat, u: nat)
    requires Extends(h, h') && j < |h| && HasMark(c, h[j], u)
    ensures HasMark(c, h'[j], u)
  {
    hide Stream;
    var k: nat :| IsMark(c, h[j], u, k);
    assert h[j].recs <= h'[j].recs;
    assert h'[j].recs[..k] == h[j].recs[..k];
    assert IsMark(c, h'[j], u, k);
  }

  lemma NoteOnward<R, S>(c: Codec<R>, s: Sys<R, S>, s': Sys<R, S>, note: Note<R>)
    requires Onward(s, s') && NoteOk(c, s.hist, s.lo, s.cur, note)
    ensures NoteOk(c, s'.hist, s'.lo, s'.cur, note)
  {
    hide HasMark, PrevOk, Extends;
    var j: nat :| j <= s.cur && Announces(c, s.hist, s.lo, j, note);
    PrevIndex(s.hist, s.lo, j, note.prev);
    PrevOnward(s, s', j, note.prev);
    PrevIndex(s'.hist, s'.lo, j, note.prev);
    if s'.hist != s.hist {
      ExtendsIds(s.hist, s'.hist);
      MarkExtends(c, s.hist, s'.hist, j, note.synced);
    }
    assert Announces(c, s'.hist, s'.lo, j, note);
  }

  lemma PrevIndex<R>(hist: seq<ChunkLog<R>>, lo: nat, j: nat, prev: Option<R>)
    requires PrevOk(hist, lo, j, prev)
    ensures j < |hist|
  {
  }

  /** Notifications already made stay true. */
  lemma OldNotes<R(!new), S(!new)>(env: Env<R, S>, s: Sys<R, S>, s': Sys<R, S>, n: nat)
    requires NotesOk(env, s) && Onward(s, s') && Preserves(env, s, s') && n < |s.notes|
    ensures NoteOk(env.codec, s'.hist, s'.lo, s'.cur, s.notes[n]) && Durable(env, s', s.notes[n].synced)
  {
    hide NoteOk, Durable, Keeps, Onward;
    NoteOnward(env.codec, s, s', s.notes[n]);
  }

  /** A step that makes no notification. */
  lemma QuietNotes<R(!new), S(!new)>(env: Env<R, S>, s: Sys<R, S>, s': Sys<R, S>)
    requires NotesOk(env, s) && Onward(s, s') && Preserves(env, s, s') && s'.notes == s.notes
    requires s'.worker.status == Running ==>
               && s.worker.status == Running && s'.worker.files != [] && s'.cur == s.cur
               && s'.worker.files[|s'.worker.files| - 1] == s.worker.files[|s.worker.files| - 1]
    ensures NotesOk(env, s')
  {
    hide NoteOk, Durable, Preserves, Onward;
    forall n | 0 <= n < |s'.notes|
      ensures NoteOk(env.codec, s'.hist, s'.lo, s'.cur, s'.notes[n]) && Durable(env, s', s'.notes[n].synced)
    {
      OldNotes(env, s, s', n);
    }
    if s'.worker.status == Running {
      PrevOnward(s, s', s.cur, s.worker.files[|s.worker.files| - 1].prev);
    }
  }

  lemma MainOnward<R(!new), S(!new)>(env: Env<R, S>, s: Sys<R, S>, step: Step<R>, s': Sys<R, S>)
    requires Inv(env, s) && Placed(s) && MainStep(env, s, step, s')
    ensures Onward(s, s') && s'.notes == s.notes && s'.worker == s.worker && s'.cur == s.cur
  {
    hide Settled, IsFull, Appended, Rotated, Promised, FirstIsDurable, IdsFrom, StateAfter, ValidLog, Stored, IndexOk, Flows,
    FilesOk, BatchOk, RepliesOk, CurFile, Stream, WithChunk, WithRecord, Extends, SendOk, PendingWrite;
    match step
    case Append(r) =>
      if Encodable(env.codec, r) {
        WithRecordValid(env, s.hist, r);
      }
    case Enqueue => WithChunkValid(env, s.hist);
    case _ =>
  }

  /** A notification is exact when it is made: it gives the durable end of the chunk being written. */
  lemma NoteIsExact<R(!new), S(!new)>(env: Env<R, S>, s: Sys<R, S>, s': Sys<R, S>)
    requires Inv(env, s) && Placed(s) && WorkerStep(s, SyncLast, s')
    ensures Placed(s') && s'.hist == s.hist && s'.cur == s.cur && s'.lo == s.lo && s'.worker.files == s.worker.files
    ensures s'.notes == s.notes + [Note(s.hist[s.cur].id, DurableEnd(s'), s.worker.files[0].prev)]
    ensures |s.worker.files| == 1 && CurFile(s').dur == |CurFile(s').os| && HasMark(env.codec, s.hist[s.cur], DurableEnd(s'))
  {
    hide OnDisk, IndexOk, RepliesOk, Preserves, Runs, Stream, EndsAt, Final, HasMark, NeedsSync, Synced;
    SyncLastStep(env, s, s');
    BatchEndMark(env, s);
    SyncedCurrent(s, s.worker.files[0].start);
  }

  lemma SyncedCurrent<R, S>(s: Sys<R, S>, id: nat)
    requires Placed(s) && id == s.hist[s.cur].id
    ensures id in Synced(s.disk, id) && Synced(s.disk, id)[id].dur == |Synced(s.disk, id)[id].os|
  {
  }

  lemma BatchEndMark<R, S>(env: Env<R, S>, s: Sys<R, S>)
    requires Placed(s) && BatchOk(env, s) && s.worker.phase.Syncing?
    ensures HasMark(env.codec, s.hist[s.cur], BatchEnd(s.worker.phase.batch))
  {
    hide HasMark;
    var writes := s.worker.phase.batch.writes;
    assert EndOk(env.codec, s.hist[s.cur], writes[|writes| - 1], s.hist[s.cur].id + |CurFile(s).os|);
  }

  lemma SyncNotes<R(!new), S(!new)>(env: Env<R, S>, s: Sys<R, S>, s': Sys<R, S>)
    requires Inv(env, s) && Placed(s) && WorkerStep(s, SyncLast, s') && NotesOk(env, s) && Preserves(env, s, s')
    ensures NotesOk(env, s')
  {
    hide Inv, Preserves, WorkerStep, HasMark, PrevOk, Stream, CurFile;
    NoteIsExact(env, s, s');
    RunningBefore(s, SyncLast, s');
    var note := s'.notes[|s.notes|];
    assert Announces(env.codec, s'.hist, s'.lo, s'.cur, note) by {
      PrevIndex(s.hist, s.lo, s.cur, note.prev);
    }
    assert Durable(env, s', note.synced);
    forall n | 0 <= n < |s'.notes|
      ensures NoteOk(env.codec, s'.hist, s'.lo, s'.cur, s'.notes[n]) && Durable(env, s', s'.notes[n].synced)
    {
      if n < |s.notes| {
        OldNotes(env, s, s', n);
      }
    }
  }

  lemma RunningBefore<R, S>(s: Sys<R, S>, step: Step<R>, s': Sys<R, S>)
    requires Placed(s) && WorkerStep(s, step, s') && !step.DropReceiver?
    ensures s.worker.status == Running
  {
  }

  /** A successor is attached only when the end of its predecessor is durable and has been announced. */
  lemma AttachedAfterNote<R(!new), S(!new)>(env: Env<R, S>, s: Sys<R, S>, s': Sys<R, S>)
    requires Inv(env, s) && Placed(s) && s.worker.status == Running && DoesFinish(s, s') && s'.cur != s.cur
    ensures s'.cur == s.cur + 1 < |s.hist|
    ensures IsWhole(env.codec, s.hist[s.cur], s.disk) && IsNoted(s)
    ensures s.notes[|s.notes| - 1].synced == End(env.codec, s.hist[s.cur]) == s.hist[s.cur + 1].id
    ensures s'.worker.files != [] && s.hist[s'.cur].recs != []
    ensures s'.worker.files[|s'.worker.files| - 1] == FileEntry(s.hist[s'.cur].id, Some(s.hist[s'.cur].recs[0]))
  {
    hide Inv, Stream, Allowed, IsWhole, IsNoted;
    FinishAttaches(s, s');
    var e := s.worker.phase.next.value.req.entry;
    NextIsAllowed(env, s, e);
    AllowedIsNoted(env, s, e);
  }

  lemma FinishAttaches<R, S>(s: Sys<R, S>, s': Sys<R, S>)
    requires DoesFinish(s, s') && s'.cur != s.cur
    ensures s.worker.phase.Finishing? && s.worker.phase.next.Some? && s.worker.phase.next.value.req.AppendFile?
    ensures s'.cur == s.cur + 1 && s'.worker.files == s.worker.files + [s.worker.phase.next.value.req.entry]
  {
  }

  lemma NextIsAllowed<R(!new), S(!new)>(env: Env<R, S>, s: Sys<R, S>, e: FileEntry<R>)
    requires Inv(env, s) && s.worker.status == Running && s.worker.phase.Finishing? && s.worker.phase.next.Some?
    requires s.worker.phase.next.value.req == AppendFile(e)
    ensures Placed(s) && Allowed(env.codec, s.hist, PosOf(s), AppendFile(e))
  {
    hide OnDisk, RepliesOk, FilesOk, BatchOk, IndexOk, EndsAt, SendOk, Allowed, PosOf;
    assert Todo(s) == [AppendFile(e)] + Waiting(s);
  }

  lemma AllowedIsNoted<R(!new), S(!new)>(env: Env<R, S>, s: Sys<R, S>, e: FileEntry<R>)
    requires Inv(env, s) && Placed(s) && Allowed(env.codec, s.hist, PosOf(s), AppendFile(e))
    ensures s.cur + 1 < |s.hist| && s.hist[s.cur + 1].recs != []
    ensures e == FileEntry(s.hist[s.cur + 1].id, Some(s.hist[s.cur + 1].recs[0]))
    ensures IsWhole(env.codec, s.hist[s.cur], s.disk) && IsNoted(s)
    ensures s.notes[|s.notes| - 1].synced == End(env.codec, s.hist[s.cur]) == s.hist[s.cur + 1].id
  {
    hide RepliesOk, FilesOk, BatchOk, IndexOk, Flows, SendOk, Stream, ReplayChunks, CheckpointFirst, FirstIsDurable, Stored;
    assert Follows(env.codec, s.hist, s.cur + 1);
  }

  lemma FinishNotes<R(!new), S(!new)>(env: Env<R, S>, s: Sys<R, S>, s': Sys<R, S>)
    requires Inv(env, s) && Placed(s) && s.worker.status == Running && DoesFinish(s, s')
    requires NotesOk(env, s) && Preserves(env, s, s')
    ensures NotesOk(env, s')
  {
    hide Inv, NoteOk, Durable, Preserves, IsWhole, IsNoted;
    FinishShape(s, s');
    if s'.cur == s.cur {
      QuietNotes(env, s, s');
    } else {
      AttachedAfterNote(env, s, s');
      forall n | 0 <= n < |s'.notes|
        ensures NoteOk(env.codec, s'.hist, s'.lo, s'.cur, s'.notes[n]) && Durable(env, s', s'.notes[n].synced)
      {
        OldNotes(env, s, s', n);
      }
    }
  }

  lemma FinishShape<R, S>(s: Sys<R, S>, s': Sys<R, S>)
    requires DoesFinish(s, s')
    ensures Onward(s, s') && s'.notes == s.notes && s'.hist == s.hist && s'.lo == s.lo && s'.worker.status == s.worker.status
    ensures s'.cur == s.cur ==> s'.worker.files == s.worker.files
  {
  }

  lemma WorkerNotes<R(!new), S(!new)>(env: Env<R, S>, s: Sys<R, S>, step: Step<R>, s': Sys<R, S>)
    requires Inv(env, s) && Placed(s) && WorkerStep(s, step, s') && NotesOk(env, s) && Preserves(env, s, s')
    ensures NotesOk(env, s')
  {
    hide Inv, NotesOk, Preserves, WorkerStep, Onward, DoesFinish;
    FilesNotEmpty(env, s);
    if step.SyncLast? {
      SyncNotes(env, s, s');
    } else if step.Finish? {
      FinishesRunning(s, s');
      FinishNotes(env, s, s');
    } else {
      StepIsQuiet(s, step, s');
      QuietNotes(env, s, s');
    }
  }

  lemma FinishesRunning<R, S>(s: Sys<R, S>, s': Sys<R, S>)
    requires Placed(s) && WorkerStep(s, Finish, s')
    ensures s.worker.status == Running && DoesFinish(s, s')
  {
  }

  /** All other steps make no notification and leave the last file where it is. */
  lemma StepIsQuiet<R, S>(s: Sys<R, S>, step: Step<R>, s': Sys<R, S>)
    requires Placed(s) && WorkerStep(s, step, s') && !step.SyncLast? && !step.Finish?
    requires s.worker.status == Running ==> s.worker.files != []
    ensures Onward(s, s') && s'.notes == s.notes
    ensures s'.worker.status == Running ==>
              && s.worker.status == Running && s'.worker.files != [] && s'.cur == s.cur
              && s'.worker.files[|s'.worker.files| - 1] == s.worker.files[|s.worker.files| - 1]
  {
    hide Data, NeedsSync, Synced, Grown, DoesTakeWrites, DoesUnlink, RepliesOf;
    match step
    case TakeWrites(n, withNext) => TakeQuiet(s, n, withNext, s');
    case Unlink => UnlinkQuiet(s, s');
    case _ =>
  }

  lemma TakeQuiet<R, S>(s: Sys<R, S>, n: nat, withNext: bool, s': Sys<R, S>)
    requires DoesTakeWrites(s, n, withNext, s')
    ensures Onward(s, s') && s'.notes == s.notes && s'.worker.files == s.worker.files && s'.cur == s.cur
    ensures s'.worker.status == s.worker.status
  {
    hide Data;
  }

  lemma UnlinkQuiet<R, S>(s: Sys<R, S>, s': Sys<R, S>)
    requires DoesUnlink(s, s')
    ensures Onward(s, s') && s'.notes == s.notes && s'.worker.files == s.worker.files && s'.cur == s.cur
    ensures s'.worker.status == s.worker.status
  {
  }

  lemma FilesNotEmpty<R(!new), S(!new)>(env: Env<R, S>, s: Sys<R, S>)
    requires Inv(env, s)
    ensures s.worker.status == Running ==> s.worker.files != []
  {
  }

  lemma BootedNotes<R(!new), S(!new)>(env: Env<R, S>, s: Sys<R, S>)
    requires Inv(env, s) && s.worker.status == Running && s.notes == [] && |s.worker.files| == 1
    requires s.drained == s.lo && s.cur == |s.hist| - 1
    requires s.worker.files[0].prev ==
             if s.main.closed == [] then None else Some(s.main.closed[|s.main.closed| - 1].state)
    ensures NotesOk(env, s)
  {
    hide OnDisk, RepliesOk, Flows, FilesOk, BatchOk, Offsets;
    var n := |s.main.closed|;
    if n > 0 {
      assert ClosedOk(env, s.hist, s.drained + (n - 1), s.main.closed[n - 1]);
    }
  }

  /**
   In every state of every run, the notifications made since the last start
   never decrease, each is a record end of the chunk it names and is durable,
   and each carries the checkpoint that closed the preceding chunk.
   */
  lemma {:induction false} NotesAlways<R(!new), S(!new)>(env: Env<R, S>, run: seq<Sys<R, S>>, i: nat)
    requires EnvOk(env) && IsRun(env, run) && i < |run|
    ensures NotesOk(env, run[i])
  {
    hide Inv, EnvOk, MainStep, WorkerStep, Open, NotesOk, Preserves, LogAfter, CrashImage, Image, IsListing, IsClean;
    EveryStateIsOk(env, run, i);
    if i == 0 {
      BootedNotes(env, run[0]);
    } else {
      NotesAlways(env, run, i - 1);
      EveryStateIsOk(env, run, i - 1);
      var s, s' := run[i - 1], run[i];
      assert Steps(env, s, s');
      var step :| Next(env, s, step, s');
      NextKeeps(env, s, step, s');
      if step.Restart? {
        BootedNotes(env, s');
      } else if MainStep(env, s, step, s') {
        MainOnward(env, s, step, s');
        MainNotes(env, s, s');
      } else {
        WorkerNotes(env, s, step, s');
      }
    }
  }

  lemma MainNotes<R(!new), S(!new)>(env: Env<R, S>, s: Sys<R, S>, s': Sys<R, S>)
    requires NotesOk(env, s) && Onward(s, s') && s'.notes == s.notes && s'.worker == s.worker && s'.cur == s.cur
    requires Preserves(env, s, s')
    ensures NotesOk(env, s')
  {
    hide NoteOk, Durable, Preserves, Onward, PrevOk;
    QuietNotes(env, s, s');
  }
}
