/** Group commit against the worker that handles one request at a time. */
module GroupCommit {
  import opened Bytes
  import opened Log
  import opened Requests
  import opened CrashImages
  import opened System

  /** What a worker acts on: the files, those it may still have to sync, and the replies it has made. */
  datatype Store<+R> = Store(disk: Disk, files: seq<FileEntry<R>>, replies: seq<Reply>)

  function LastStart<R>(files: seq<FileEntry<R>>): Option<nat> {
    if files == [] then None else Some(files[|files| - 1].start)
  }

  predicate Lists<R>(files: seq<FileEntry<R>>, id: nat) {
    exists i | 0 <= i < |files| :: files[i].start == id
  }

  function WriteTo<R>(st: Store<R>, data: seq<Byte>): Store<R> {
    var last := LastStart(st.files);
    if last.Some? && last.value in st.disk then
      var f := st.disk[last.value];
      st.(disk := st.disk[last.value := File(f.os + data, f.dur)])
    else st
  }

  function SyncedFiles<R>(disk: Disk, files: seq<FileEntry<R>>): Disk {
    map k | k in disk :: if Lists(files, k) then File(disk[k].os, |disk[k].os|) else disk[k]
  }

  /** All files are synced, and only the last stays in the list. */
  function SyncAll<R>(st: Store<R>): Store<R> {
    if st.files == [] then st
    else st.(disk := SyncedFiles(st.disk, st.files), files := [st.files[|st.files| - 1]])
  }

  function SyncIf<R>(st: Store<R>, sync: bool): Store<R> {
    if sync then SyncAll(st) else st
  }

  /** The replies to a run of writes, in order. */
  function AllReplies(writes: seq<WriteReq>): seq<Reply> {
    if writes == [] then [] else AllReplies(writes[..|writes| - 1]) + RepliesOf(writes[|writes| - 1])
  }

  function Replied<R>(st: Store<R>, writes: seq<WriteReq>): Store<R> {
    st.(replies := st.replies + AllReplies(writes))
  }

  /** A batch: all data in one go, one sync if any write asks for it, then the replies. */
  function HandleWrites<R>(st: Store<R>, writes: seq<WriteReq>): Store<R> {
    Replied(SyncIf(WriteTo(st, Data(writes)), NeedsSync(writes)), writes)
  }

  function HandleOther<R>(st: Store<R>, req: Request<R>): Store<R> {
    match req
    case Write(w) => st
    case AppendFile(e) => st.(files := st.files + [e])
    case RemoveChunks(ids) => st.(disk := Without(st.disk, ids))
  }

  // The two workers

  function HandleOne<R>(st: Store<R>, req: Request<R>): Store<R> {
    if req.Write? then HandleWrites(st, [req.write]) else HandleOther(st, req)
  }

  function RunOnes<R>(st: Store<R>, q: seq<Request<R>>): Store<R>
    decreases |q|
  {
    if q == [] then st else HandleOne(RunOnes(st, q[..|q| - 1]), q[|q| - 1])
  }

  /** Some writes and the request of another kind that ended the batch, if any. */
  datatype Group<+R> = Group(writes: seq<WriteReq>, next: Option<Request<R>>)

  predicate LegalGroup<R>(g: Group<R>) {
    g.next.Some? ==> !g.next.value.Write?
  }

  function GroupRequests<R>(g: Group<R>): seq<Request<R>> {
    AsRequests<R>(g.writes) + (if g.next.Some? then [g.next.value] else [])
  }

  function HandleNext<R>(st: Store<R>, next: Option<Request<R>>): Store<R> {
    if next.Some? then HandleOther(st, next.value) else st
  }

  function HandleGroup<R>(st: Store<R>, g: Group<R>): Store<R> {
    HandleNext(if g.writes == [] then st else HandleWrites(st, g.writes), g.next)
  }

  function RunGroups<R>(st: Store<R>, groups: seq<Group<R>>): Store<R> {
    if groups == [] then st else HandleGroup(RunGroups(st, groups[..|groups| - 1]), groups[|groups| - 1])
  }

  function Flatten<R>(groups: seq<Group<R>>): seq<Request<R>> {
    if groups == [] then [] else Flatten(groups[..|groups| - 1]) + GroupRequests(groups[|groups| - 1])
  }

  // The relation

  ghost predicate FileAtLeast(f: File, g: File) {
    f.os == g.os && f.dur <= g.dur <= |g.os|
  }

  /** `b` has the same files and replies as `a`, at least as durable, and has less left to sync. */
  ghost predicate Refines<R>(a: Store<R>, b: Store<R>) {
    && a.disk.Keys == b.disk.Keys
    && (forall k | k in a.disk :: FileAtLeast(a.disk[k], b.disk[k]))
    && a.replies == b.replies
    && LastStart(a.files) == LastStart(b.files)
    && (forall k | k in b.disk && Lists(a.files, k) :: Lists(b.files, k) || b.disk[k].dur == |b.disk[k].os|)
  }

  ghost predicate Sane(disk: Disk) {
    forall k | k in disk :: disk[k].dur <= |disk[k].os|
  }

  lemma LastListed<R>(files: seq<FileEntry<R>>)
    requires files != []
    ensures Lists(files, files[|files| - 1].start)
  {
  }

  lemma OneListed<R>(e: FileEntry<R>, k: nat)
    ensures Lists([e], k) <==> k == e.start
  {
    assert [e][0].start == e.start;
  }

  // One write after the other

  /** The content of file `k` after `data` went to the last file. */
  function Content<R>(st: Store<R>, data: seq<Byte>, k: nat): seq<Byte>
    requires k in st.disk
  {
    st.disk[k].os + (if LastStart(st.files) == Some(k) then data else [])
  }

  /** What handling `writes` one by one can have done to a store. */
  ghost predicate OneByOne<R>(st: Store<R>, writes: seq<WriteReq>, st': Store<R>) {
    && st'.disk.Keys == st.disk.Keys
    && (forall k | k in st.disk ::
          && st'.disk[k].os == Content(st, Data(writes), k)
          && st'.disk[k].dur <= |st'.disk[k].os|
          && ((NeedsSync(writes) && Lists(st.files, k)) || st'.disk[k].dur <= st.disk[k].dur))
    && st'.replies == st.replies + AllReplies(writes)
    && LastStart(st'.files) == LastStart(st.files)
    && (forall k | Lists(st'.files, k) :: Lists(st.files, k))
  }

  lemma SyncLaws<R>(st: Store<R>, sync: bool)
    requires Sane(st.disk)
    ensures var st' := SyncIf(st, sync);
            && st'.disk.Keys == st.disk.Keys && st'.replies == st.replies
            && LastStart(st'.files) == LastStart(st.files)
            && (forall k | Lists(st'.files, k) :: Lists(st.files, k))
            && (forall k | k in st.disk ::
                  && st'.disk[k].os == st.disk[k].os && st'.disk[k].dur <= |st'.disk[k].os|
                  && st.disk[k].dur <= st'.disk[k].dur
                  && (sync && Lists(st.files, k) ==> st'.disk[k].dur == |st'.disk[k].os|)
                  && ((sync && Lists(st.files, k)) || st'.disk[k].dur == st.disk[k].dur))
  {
    if st.files != [] {
      var last := st.files[|st.files| - 1];
      LastListed(st.files);
      forall k ensures Lists([last], k) <==> k == last.start {
        OneListed(last, k);
      }
    }
  }

  lemma WriteLaws<R>(st: Store<R>, data: seq<Byte>)
    requires Sane(st.disk)
    ensures var st' := WriteTo(st, data);
            && st'.disk.Keys == st.disk.Keys && st'.replies == st.replies && st'.files == st.files && Sane(st'.disk)
            && (forall k | k in st.disk :: st'.disk[k].os == Content(st, data, k) && st'.disk[k].dur == st.disk[k].dur)
  {
  }

  lemma SyncsAdd(front: seq<WriteReq>, w: WriteReq)
    ensures NeedsSync(front + [w]) <==> NeedsSync(front) || w.sync
    ensures Data(front + [w]) == Data(front) + w.data
    ensures AllReplies(front + [w]) == AllReplies(front) + RepliesOf(w)
  {
    var all := front + [w];
    assert all[..|front|] == front && all[|front|] == w;
    if NeedsSync(front) {
      var i :| 0 <= i < |front| && front[i].sync;
      assert all[i].sync;
    }
    if NeedsSync(all) {
      var i :| 0 <= i < |all| && all[i].sync;
      assert i < |front| ==> front[i].sync;
    }
  }

  lemma NoWrites()
    ensures Data([]) == [] && AllReplies([]) == [] && !NeedsSync([])
  {
  }

  lemma OneWrite(w: WriteReq)
    ensures Data([w]) == w.data && AllReplies([w]) == RepliesOf(w) && (NeedsSync([w]) <==> w.sync)
  {
    NoWrites();
    SyncsAdd([], w);
    assert [] + [w] == [w];
  }

  lemma OneMore<R>(st: Store<R>, front: seq<WriteReq>, mid: Store<R>, w: WriteReq)
    requires Sane(st.disk) && OneByOne(st, front, mid)
    ensures OneByOne(st, front + [w], HandleWrites(mid, [w]))
  {
    hide Data, NeedsSync, AllReplies, RepliesOf, Lists, WriteTo, SyncIf, LastStart;
    SyncsAdd(front, w);
    OneWrite(w);
    assert Sane(mid.disk);
    var wrote := WriteTo(mid, w.data);
    WriteLaws(mid, w.data);
    SyncLaws(wrote, w.sync);
    var st' := HandleWrites(mid, [w]);
    forall k | k in st.disk ensures st'.disk[k].os == Content(st, Data(front + [w]), k) {
      assert st.disk[k].os + (Data(front) + w.data) == (st.disk[k].os + Data(front)) + w.data;
    }
  }

  lemma {:induction false} OnesShape<R>(st: Store<R>, writes: seq<WriteReq>)
    requires Sane(st.disk)
    ensures OneByOne(st, writes, RunOnes(st, AsRequests<R>(writes)))
    decreases |writes|
  {
    hide Data, NeedsSync, AllReplies, Lists, HandleWrites;
    if writes == [] {
      NoWrites();
      assert st.replies + [] == st.replies;
    } else {
      var n := |writes| - 1;
      var front := writes[..n];
      OnesShape(st, front);
      OneMore(st, front, RunOnes(st, AsRequests<R>(front)), writes[n]);
      assert front + [writes[n]] == writes;
      assert AsRequests<R>(writes)[..n] == AsRequests<R>(front);
    }
  }

  // A batch

  lemma BatchFile<R>(a: Store<R>, b: Store<R>, writes: seq<WriteReq>, a': Store<R>, k: nat)
    requires Refines(a, b) && Sane(a.disk) && Sane(b.disk) && OneByOne(a, writes, a') && k in a.disk
    ensures var b' := HandleWrites(b, writes);
            && k in b'.disk && FileAtLeast(a'.disk[k], b'.disk[k])
            && (Lists(a'.files, k) ==> Lists(b'.files, k) || b'.disk[k].dur == |b'.disk[k].os|)
  {
    hide Data, NeedsSync, AllReplies, Lists, WriteTo;
    var wrote := WriteTo(b, Data(writes));
    WriteLaws(b, Data(writes));
    SyncLaws(wrote, NeedsSync(writes));
    LastIsHeld(b.files);
  }

  lemma LastIsHeld<R>(files: seq<FileEntry<R>>)
    ensures LastStart(files).Some? ==> Lists(files, LastStart(files).value)
  {
    if files != [] {
      LastListed(files);
    }
  }

  /** Handling a run of writes as one batch refines handling them one by one. */
  lemma BatchRefines<R>(a: Store<R>, b: Store<R>, writes: seq<WriteReq>)
    requires Refines(a, b) && Sane(a.disk) && Sane(b.disk)
    ensures Refines(RunOnes(a, AsRequests<R>(writes)), HandleWrites(b, writes))
    ensures Sane(RunOnes(a, AsRequests<R>(writes)).disk) && Sane(HandleWrites(b, writes).disk)
  {
    hide Data, NeedsSync, AllReplies, Lists, WriteTo, SyncIf, RunOnes;
    OnesShape(a, writes);
    var a', b' := RunOnes(a, AsRequests<R>(writes)), HandleWrites(b, writes);
    WriteLaws(b, Data(writes));
    SyncLaws(WriteTo(b, Data(writes)), NeedsSync(writes));
    forall k | k in a.disk
      ensures FileAtLeast(a'.disk[k], b'.disk[k])
      ensures Lists(a'.files, k) ==> Lists(b'.files, k) || b'.disk[k].dur == |b'.disk[k].os|
    {
      BatchFile(a, b, writes, a', k);
    }
  }

  lemma HoldsAppend<R>(files: seq<FileEntry<R>>, e: FileEntry<R>, k: nat)
    ensures Lists(files + [e], k) <==> Lists(files, k) || k == e.start
  {
    var all := files + [e];
    if Lists(files, k) {
      var i :| 0 <= i < |files| && files[i].start == k;
      assert all[i].start == k;
    }
    assert all[|files|].start == e.start;
  }

  lemma OtherRefines<R>(a: Store<R>, b: Store<R>, req: Request<R>)
    requires Refines(a, b) && Sane(a.disk) && Sane(b.disk) && !req.Write?
    ensures Refines(HandleOther(a, req), HandleOther(b, req))
    ensures Sane(HandleOther(a, req).disk) && Sane(HandleOther(b, req).disk)
  {
    hide Lists;
    if req.AppendFile? {
      forall k ensures Lists(a.files + [req.entry], k) <==> Lists(a.files, k) || k == req.entry.start {
        HoldsAppend(a.files, req.entry, k);
      }
      forall k ensures Lists(b.files + [req.entry], k) <==> Lists(b.files, k) || k == req.entry.start {
        HoldsAppend(b.files, req.entry, k);
      }
    }
  }

  lemma {:induction false} RunOnesConcat<R>(st: Store<R>, p: seq<Request<R>>, q: seq<Request<R>>)
    ensures RunOnes(st, p + q) == RunOnes(RunOnes(st, p), q)
    decreases |q|
  {
    hide HandleOne;
    if q == [] {
      assert p + q == p;
    } else {
      assert (p + q)[..|p + q| - 1] == p + q[..|q| - 1];
      RunOnesConcat(st, p, q[..|q| - 1]);
    }
  }

  lemma RunOther<R>(st: Store<R>, req: Request<R>)
    requires !req.Write?
    ensures RunOnes(st, [req]) == HandleOther(st, req)
  {
    assert [req][..0] == [];
  }

  lemma GroupRefines<R>(a: Store<R>, b: Store<R>, g: Group<R>)
    requires Refines(a, b) && Sane(a.disk) && Sane(b.disk) && LegalGroup(g)
    ensures Refines(RunOnes(a, GroupRequests(g)), HandleGroup(b, g))
    ensures Sane(RunOnes(a, GroupRequests(g)).disk) && Sane(HandleGroup(b, g).disk)
  {
    hide RunOnes, HandleWrites, Refines, Sane, HandleOther;
    var a1 := RunOnes(a, AsRequests<R>(g.writes));
    var b1 := if g.writes == [] then b else HandleWrites(b, g.writes);
    if g.writes == [] {
      assert AsRequests<R>(g.writes) == [];
      RunNothing(a);
    } else {
      BatchRefines(a, b, g.writes);
    }
    if g.next.Some? {
      RunOnesConcat(a, AsRequests<R>(g.writes), [g.next.value]);
      RunOther(a1, g.next.value);
      OtherRefines(a1, b1, g.next.value);
    } else {
      assert GroupRequests(g) == AsRequests<R>(g.writes);
    }
  }

  lemma RunNothing<R>(st: Store<R>)
    ensures RunOnes(st, []) == st
  {
  }

  lemma RefinesItself<R>(st: Store<R>)
    requires Sane(st.disk)
    ensures Refines(st, st)
  {
  }

  /**
   Group commit refines the one-at-a-time worker: however the queue is cut
   into batches, the files end up with the same bytes, the replies come in the
   same order, and every file is at least as durable.
   */
  lemma {:induction false} GroupCommitRefines<R>(st: Store<R>, groups: seq<Group<R>>)
    requires Sane(st.disk) && forall i | 0 <= i < |groups| :: LegalGroup(groups[i])
    ensures Refines(RunOnes(st, Flatten(groups)), RunGroups(st, groups))
    ensures Sane(RunOnes(st, Flatten(groups)).disk) && Sane(RunGroups(st, groups).disk)
  {
    hide Refines, Sane, HandleGroup, GroupRequests, RunOnes, LegalGroup;
    if groups == [] {
      RunNothing(st);
      RefinesItself(st);
    } else {
      var n := |groups| - 1;
      GroupCommitRefines(st, groups[..n]);
      RunOnesConcat(st, Flatten(groups[..n]), GroupRequests(groups[n]));
      GroupRefines(RunOnes(st, Flatten(groups[..n])), RunGroups(st, groups[..n]), groups[n]);
    }
  }

  // Syncing file by file

  lemma ListsHead<R>(files: seq<FileEntry<R>>, k: nat)
    requires files != []
    ensures Lists(files, k) <==> k == files[0].start || Lists(files[1..], k)
  {
    if Lists(files[1..], k) {
      var i :| 0 <= i < |files[1..]| && files[1..][i].start == k;
      assert files[i + 1].start == k;
    }
    if Lists(files, k) {
      var i :| 0 <= i < |files| && files[i].start == k;
      assert i > 0 ==> files[1..][i - 1].start == k;
    }
  }

  /** Syncing the oldest file and then the others is syncing all. */
  lemma SyncFirst<R>(disk: Disk, files: seq<FileEntry<R>>, replies: seq<Reply>)
    requires |files| > 1
    ensures SyncAll(Store(Synced(disk, files[0].start), files[1..], replies)) == SyncAll(Store(disk, files, replies))
  {
    forall k | k in disk ensures Lists(files, k) <==> k == files[0].start || Lists(files[1..], k) {
      ListsHead(files, k);
    }
    assert SyncedFiles(Synced(disk, files[0].start), files[1..]) == SyncedFiles(disk, files);
  }

  lemma SyncOnly<R>(disk: Disk, files: seq<FileEntry<R>>, replies: seq<Reply>)
    requires |files| == 1
    ensures Store(Synced(disk, files[0].start), files, replies) == SyncAll(Store(disk, files, replies))
  {
    forall k | k in disk ensures Lists(files, k) <==> k == files[0].start {
      ListsHead(files, k);
    }
    assert SyncedFiles(disk, files) == Synced(disk, files[0].start);
  }
}
