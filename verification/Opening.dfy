/** The loops of `open`, each computing its part of the recovery function. */
module Opening {
  import opened Bytes
  import opened Codec
  import opened RecordStream
  import opened Log
  import opened Requests
  import opened Recovery
  import opened CrashImages

  const READ_CHUNK_SIZE: nat := 1024

  datatype ZeroCheck = AllZeros | NonZero | BeyondEnd

  /** Scans the rest of a file; each read may return fewer bytes than asked for. */
  method VerifyTrailingZeros(file: seq<Byte>, start: nat) returns (res: ZeroCheck)
    ensures res == if start > |file| then BeyondEnd else if AllZero(file[start..]) then AllZeros else NonZero
  {
    if start > |file| {
      return BeyondEnd;
    }
    if start == |file| {
      return AllZeros;
    }
    var at := start;
    while at < |file|
      invariant start <= at <= |file|
      invariant forall i | start <= i < at :: file[i] == 0
      decreases |file| - at
    {
      var limit := if |file| - at < READ_CHUNK_SIZE then |file| - at else READ_CHUNK_SIZE;
      var n: nat :| 1 <= n <= limit;
      var i := 0;
      while i < n
        invariant 0 <= i <= n
        invariant forall j | start <= j < at + i :: file[j] == 0
      {
        if file[at + i] != 0 {
          assert file[start..][at + i - start] != 0;
          return NonZero;
        }
        i := i + 1;
      }
      at := at + n;
    }
    return AllZeros;
  }

  method HasCompleteInitialRecord<R>(c: Codec<R>, file: seq<Byte>) returns (res: Result<bool>)
    requires Bounded(c)
    ensures res == HasInitialRecord(c, file)
  {
    var it := new RecordIterator(c, file);
    FirstDecode(c, file);
    var first := it.Next();
    match first
    case Done => return Ok(false);
    case Yield(_) => return Ok(true);
    case Broken(tail) =>
      if tail == Torn {
        return Ok(false);
      }
      assert file[0..] == file;
      var zeros := VerifyTrailingZeros(file, 0);
      return if zeros == AllZeros then Ok(false) else Err(DamagedRecord);
  }

  /** How the first record reads decides how a parse starts. */
  lemma FirstDecode<R>(c: Codec<R>, b: seq<Byte>)
    requires Bounded(c)
    ensures var p := Parse(c, b, 0);
            && (b == [] <==> p == Parsed([], Clean))
            && (b != [] ==> (c.decode(b) == ShortRead <==> p == Parsed([], Torn)))
            && (b != [] ==> (c.decode(b) == Malformed <==> p == Parsed([], Damaged)))
  {
    assert b[0..] == b;
    assert StaysInside(c, b);
  }

  /** No record can be read at the start, and nothing but a write cut short or lost explains it. */
  ghost predicate LacksRecord<R>(c: Codec<R>, b: seq<Byte>) {
    b == [] || c.decode(b).ShortRead? || (c.decode(b).Malformed? && AllZero(b))
  }

  /** There is something else at the start: the file is damaged. */
  ghost predicate IsDamaged<R>(c: Codec<R>, b: seq<Byte>) {
    c.decode(b).Malformed? && !AllZero(b)
  }

  /** The record error that ends a load: truncate, or give up. */
  method HandleRecordError(tail: Tail, file: seq<Byte>, end: nat, canTruncate: bool) returns (res: Result<bool>)
    requires tail != Clean
    ensures res.Ok? ==> res.value && canTruncate
    ensures res.Ok? <==> canTruncate && (tail == Torn || (end <= |file| && AllZero(file[end..])))
    ensures res.Err? ==> res.error == if tail == Torn then ShortRecord else DamagedRecord
  {
    if tail == Torn {
      return if canTruncate then Ok(true) else Err(ShortRecord);
    }
    var zeros := VerifyTrailingZeros(file, end);
    return if zeros == AllZeros && canTruncate then Ok(true) else Err(DamagedRecord);
  }

  /** `items` are the records before `pos`. */
  ghost predicate LoadedItems<R>(c: Codec<R>, b: seq<Byte>, pos: nat, items: seq<Item<R>>) {
    && Bounded(c) && pos <= |b| && GoodEnd(items) == pos
    && Then(items, Parse(c, b, pos)) == Parse(c, b, 0)
  }

  lemma NothingLoaded<R>(c: Codec<R>, b: seq<Byte>)
    requires Bounded(c)
    ensures LoadedItems(c, b, 0, [])
  {
    assert [] + Parse(c, b, 0).items == Parse(c, b, 0).items;
  }

  lemma OneMoreItem<R>(c: Codec<R>, b: seq<Byte>, pos: nat, items: seq<Item<R>>, it: Item<R>, pos': nat)
    requires LoadedItems(c, b, pos, items) && pos' <= |b| && pos' == it.seg.End()
    requires Parse(c, b, pos).items == [it] + Parse(c, b, pos').items
    requires Parse(c, b, pos).tail == Parse(c, b, pos').tail
    ensures LoadedItems(c, b, pos', items + [it])
  {
    hide Parse;
    var after := Parse(c, b, pos').items;
    assert items + ([it] + after) == (items + [it]) + after;
  }

  lemma OneMoreOffset<R>(id: nat, items: seq<Item<R>>, it: Item<R>)
    ensures ItemOffsets(id, items + [it]) == ItemOffsets(id, items) + [id + it.seg.End()]
  {
  }

  lemma LastOffset<R>(id: nat, items: seq<Item<R>>)
    ensures ItemOffsets(id, items)[|items|] == id + GoodEnd(items)
  {
  }

  /** The load is over: its result is decided by how the parse ended. */
  lemma LoadEnds<R>(c: Codec<R>, f: File, pos: nat, items: seq<Item<R>>, can: bool)
    requires LoadedItems(c, f.os, pos, items) && Parse(c, f.os, pos).items == []
    ensures var tail := Parse(c, f.os, pos).tail;
            OpenWithTruncate(c, f, can) ==
            if tail == Clean then Ok(OpenedChunk(f, items, false))
            else if can && (tail == Torn || AllZero(f.os[pos..])) then Ok(OpenedChunk(File(f.os[..pos], pos), items, true))
            else Err(if tail == Torn then ShortRecord else DamagedRecord)
  {
    hide Parse;
    assert items + [] == items;
  }

  /** A file keeps its bytes, apart from a tail without a record behind the last record that can be read. */
  ghost predicate CutsTail<R>(c: Codec<R>, f: File, f': File, allowed: bool)
    requires Bounded(c)
  {
    || f' == f
    || (allowed && var end := GoodEnd(Parse(c, f.os, 0).items);
        end < |f.os| && f' == File(f.os[..end], end) && LacksRecord(c, f.os[end..]))
  }

  /** Where the parse stops, no further record can be read, and its result says why. */
  lemma EndsHere<R>(c: Codec<R>, b: seq<Byte>, pos: nat, items: seq<Item<R>>)
    requires LoadedItems(c, b, pos, items) && Parse(c, b, pos).items == []
    ensures GoodEnd(Parse(c, b, 0).items) == pos
    ensures match Parse(c, b, pos).tail
            case Clean => pos == |b|
            case Torn => pos < |b| && c.decode(b[pos..]).ShortRead?
            case Damaged => pos < |b| && c.decode(b[pos..]).Malformed?
    ensures items == [] <==> pos == 0
  {
    assert items + [] == items;
  }

  /** Loads the records of a chunk file, and cuts off a tail that may be cut. */
  method OpenChunkFile<R>(c: Codec<R>, id: nat, f: File, allowTruncate: bool)
    returns (res: Result<OpenedChunk<R>>, offsets: seq<nat>)
    requires Bounded(c)
    ensures res == OpenWithTruncate(c, f, allowTruncate)
    ensures res.Ok? ==> CutsTail(c, f, res.value.file, allowTruncate)
    ensures res.Ok? && res.value.items == [] ==> LacksRecord(c, f.os) && res.value.file == if f.os == [] then f else EMPTY_FILE
    ensures res.Ok? ==> offsets == ItemOffsets(id, res.value.items)
  {
    hide Parse, OpenWithTruncate, LoadedItems, ItemOffsets, GoodEnd;
    var it := new RecordIterator(c, f.os);
    var items: seq<Item<R>> := [];
    offsets := [id];
    NothingLoaded(c, f.os);
    NoOffsets<R>(id);
    while true
      invariant fresh(it) && fresh(it.reader) && it.Valid()
      invariant it.codec == c && it.reader.inner == f.os && it.error == Clean
      invariant offsets == ItemOffsets(id, items) && LoadedItems(c, f.os, it.reader.offset, items)
      decreases |f.os| - it.reader.offset
    {
      ghost var pos := it.reader.offset;
      var next := it.Next();
      match next
      case Yield(item) =>
        OneMoreItem(c, f.os, pos, items, item, it.reader.offset);
        OneMoreOffset(id, items, item);
        items := items + [item];
        offsets := offsets + [id + item.seg.End()];
      case Done =>
        LoadEnds(c, f, pos, items, allowTruncate);
        EndsHere(c, f.os, pos, items);
        return Ok(OpenedChunk(f, items, false)), offsets;
      case Broken(tail) =>
        LoadEnds(c, f, pos, items, allowTruncate);
        EndsHere(c, f.os, pos, items);
        var end := TailStart(c, id, f.os, pos, items, offsets);
        var truncate := HandleRecordError(tail, f.os, end, allowTruncate);
        if truncate.Err? {
          return Err(truncate.error), offsets;
        }
        return Ok(OpenedChunk(File(f.os[..end], end), items, true)), offsets;
    }
  }

  /** Where the unreadable record starts, from the offsets so far. */
  method TailStart<R>(c: Codec<R>, id: nat, b: seq<Byte>, ghost pos: nat, ghost items: seq<Item<R>>, offsets: seq<nat>)
    returns (end: nat)
    requires LoadedItems(c, b, pos, items) && offsets == ItemOffsets(id, items)
    ensures end == pos <= |b|
  {
    LastOffset(id, items);
    end := offsets[|offsets| - 1] - id;
  }

  lemma NoOffsets<R>(id: nat)
    ensures ItemOffsets<R>(id, []) == [id]
  {
  }

  // What happens to the files

  /** The chunks listed from `n` on are gone, and none of them had a first record. */
  ghost predicate TailsGone<R>(c: Codec<R>, disk: Disk, listed: seq<nat>, n: nat, disk': Disk) {
    && n <= |listed| && disk' == Without(disk, listed[n..])
    && forall j | n <= j < |listed| :: listed[j] in disk && LacksRecord(c, disk[listed[j]].os)
  }

  /** Removal stops with an error at a chunk that is not there or is damaged. */
  ghost predicate RefusesRemoval<R>(c: Codec<R>, disk: Disk, last: nat, e: OpenError) {
    if last in disk then IsDamaged(c, disk[last].os) && e == DamagedRecord else e == NotFound
  }

  /** At most the tail of file `id` is cut off. */
  ghost predicate CutsOnly<R>(c: Codec<R>, disk: Disk, id: nat, allowed: bool, disk': Disk)
    requires Bounded(c)
  {
    id in disk && id in disk' && disk' == disk[id := disk'[id]] && CutsTail(c, disk[id], disk'[id], allowed)
  }

  ghost predicate CutsLast<R>(c: Codec<R>, disk: Disk, ids: seq<nat>, allowed: bool, disk': Disk)
    requires Bounded(c)
  {
    if ids == [] then disk' == disk else CutsOnly(c, disk, Last(ids), allowed, disk')
  }

  /** A file without any record is cut to nothing. */
  ghost predicate EmptiesOnly<R>(c: Codec<R>, disk: Disk, id: nat, allowed: bool, disk': Disk) {
    && id in disk && LacksRecord(c, disk[id].os)
    && if disk[id].os == [] then disk' == disk else allowed && disk' == disk[id := EMPTY_FILE]
  }

  /** A new file `id` is created, if no file has that name; its first record may fail to be encoded. */
  ghost predicate StartsAfter<T>(disk: Disk, id: nat, disk': Disk, res: Result<T>, ck: EncodeResult) {
    match res
    case Ok(_) => disk' == disk || (id !in disk && ck.Encoded? && disk' == disk[id := File(ck.bytes, 0)])
    case Err(FileExists) => id in disk && disk' == disk
    case Err(EncodeFailed) => id !in disk && ck.Rejected? && disk' == disk[id := EMPTY_FILE]
    case Err(_) => false
  }

  predicate LoadError(e: OpenError) {
    e != FileExists && e != EncodeFailed
  }

  /** At most one file is new, with its first record or, if that could not be encoded, empty. */
  ghost predicate AddsAtMost(disk: Disk, disk': Disk, ck: EncodeResult) {
    disk' == disk || exists id: nat :: id !in disk && disk' == disk[id := if ck.Encoded? then File(ck.bytes, 0) else EMPTY_FILE]
  }

  /** The first `n` chunks listed are left, `cut` is what loading made of them, and `disk'` what creating a chunk did. */
  ghost predicate LeavesFrom<R, S>(
    env: Env<R, S>, disk: Disk, listed: seq<nat>, truncate: bool, res: Result<Recovered<R, S>>, disk': Disk, n: nat, cut: Disk)
    requires Bounded(env.codec)
  {
    && n <= |listed|
    && var mid := Without(disk, listed[n..]);
       && TailsGone(env.codec, disk, listed, n, mid)
       && if res.Err? && LoadError(res.error) then disk' == cut == mid
          else
            && CutsLast(env.codec, mid, listed[..n], truncate, cut)
            && match res
               case Ok(r) => AddsAtMost(cut, disk', env.codec.encode(env.checkpoint(r.sm)))
               case Err(FileExists) => disk' == cut
               case Err(_) => AddsAtMost(cut, disk', Rejected([]))
  }

  /** What an `open` leaves of the directory, when it succeeds and when it fails. */
  ghost predicate OpenLeaves<R, S>(
    env: Env<R, S>, disk: Disk, listed: seq<nat>, truncate: bool, res: Result<Recovered<R, S>>, disk': Disk)
    requires Bounded(env.codec)
  {
    exists n: nat, cut: Disk :: LeavesFrom(env, disk, listed, truncate, res, disk', n, cut)
  }

  lemma FirstRecordCases<R>(c: Codec<R>, b: seq<Byte>)
    ensures match HasInitialRecord(c, b)
            case Ok(true) => !LacksRecord(c, b) && !IsDamaged(c, b)
            case Ok(false) => LacksRecord(c, b) && !IsDamaged(c, b)
            case Err(e) => IsDamaged(c, b) && e == DamagedRecord
  {
  }

  lemma NoneGone<R>(c: Codec<R>, disk: Disk, listed: seq<nat>)
    ensures TailsGone(c, disk, listed, |listed|, disk)
  {
    assert listed[|listed|..] == [];
  }

  lemma OneMoreGone<R>(c: Codec<R>, disk: Disk, listed: seq<nat>, n: nat, disk': Disk)
    requires n > 0 && TailsGone(c, disk, listed, n, disk')
    requires listed[n - 1] in disk' && LacksRecord(c, disk'[listed[n - 1]].os)
    ensures TailsGone(c, disk, listed, n - 1, disk' - {listed[n - 1]})
  {
    hide LacksRecord;
    assert listed[n - 1..] == [listed[n - 1]] + listed[n..];
  }

  /** Nothing behind a damaged last chunk, so nothing is removed. */
  lemma NoDamageGone<R>(c: Codec<R>, disk: Disk, listed: seq<nat>)
    requires listed != [] && Last(listed) in disk && IsDamaged(c, disk[Last(listed)].os)
    ensures forall n: nat, disk': Disk | TailsGone(c, disk, listed, n, disk') :: disk' == disk
    ensures RemoveTails(c, disk, listed) == Err(DamagedRecord)
  {
    FirstRecordCases(c, disk[Last(listed)].os);
    forall n: nat, disk': Disk | TailsGone(c, disk, listed, n, disk') ensures disk' == disk {
      if n < |listed| {
        assert false;
      }
      assert listed[|listed|..] == [];
    }
  }

  lemma NotCut<R>(c: Codec<R>, disk: Disk, id: nat, disk': Disk)
    requires Bounded(c) && CutsOnly(c, disk, id, false, disk')
    ensures disk' == disk
  {
  }

  lemma LeavesRemoved<R, S>(env: Env<R, S>, disk: Disk, listed: seq<nat>, truncate: bool, e: OpenError, disk': Disk)
    requires Bounded(env.codec)
    requires exists n: nat | 0 < n <= |listed| ::
               TailsGone(env.codec, disk, listed, n, disk') && RefusesRemoval(env.codec, disk', listed[n - 1], e)
    ensures OpenLeaves(env, disk, listed, truncate, Err(e), disk')
  {
    hide LacksRecord, IsDamaged;
    var n: nat :| 0 < n <= |listed| && TailsGone(env.codec, disk, listed, n, disk') && RefusesRemoval(env.codec, disk', listed[n - 1], e);
    assert LeavesFrom(env, disk, listed, truncate, Err(e), disk', n, disk');
  }

  lemma LeavesLoaded<R, S>(
    env: Env<R, S>, disk: Disk, listed: seq<nat>, truncate: bool, e: OpenError, ids: seq<nat>, mid: Disk)
    requires Bounded(env.codec) && ids <= listed && TailsGone(env.codec, disk, listed, |ids|, mid) && LoadError(e)
    ensures OpenLeaves(env, disk, listed, truncate, Err(e), mid)
  {
    hide LacksRecord;
    assert LeavesFrom(env, disk, listed, truncate, Err(e), mid, |ids|, mid);
  }

  lemma LeavesOpened<R, S>(
    env: Env<R, S>, disk: Disk, listed: seq<nat>, truncate: bool, res: Result<Recovered<R, S>>, ids: seq<nat>, mid: Disk, cut: Disk,
    p: Progress<R, S>, disk': Disk)
    requires Bounded(env.codec) && ids <= listed && TailsGone(env.codec, disk, listed, |ids|, mid)
    requires CutsLast(env.codec, mid, ids, truncate, cut) && res == OpenTail(env, p)
    requires StartsAfter(cut, NewId(p), disk', res, env.codec.encode(env.checkpoint(p.sm)))
    ensures OpenLeaves(env, disk, listed, truncate, res, disk')
  {
    hide LacksRecord, CutsLast;
    assert res.Ok? ==> res.value.sm == p.sm;
    assert listed[..|ids|] == ids;
    assert LeavesFrom(env, disk, listed, truncate, res, disk', |ids|, cut);
  }

  /** The files of the log's directory. */
  class Directory {
    var files: Disk

    constructor (files: Disk)
      ensures this.files == files
    {
      this.files := files;
    }

    /** Removes trailing chunks that have no complete first record, and stops at the first that is not such a chunk. */
    method RemoveIncompleteTailChunks<R>(c: Codec<R>, listed: seq<nat>) returns (res: Result<seq<nat>>)
      requires Bounded(c)
      modifies this
      ensures match RemoveTails(c, old(files), listed)
              case Ok((disk, ids)) => res == Ok(ids) && files == disk
              case Err(e) => res == Err(e)
      ensures match res
              case Ok(ids) =>
                && ids <= listed && TailsGone(c, old(files), listed, |ids|, files)
                && (ids == [] || (Last(ids) in files && !LacksRecord(c, files[Last(ids)].os)))
              case Err(e) =>
                exists n: nat | 0 < n <= |listed| ::
                  TailsGone(c, old(files), listed, n, files) && RefusesRemoval(c, files, listed[n - 1], e)
    {
      var ids := listed;
      NoneGone(c, files, listed);
      while true
        invariant RemoveTails(c, files, ids) == RemoveTails(c, old(files), listed)
        invariant ids <= listed && TailsGone(c, old(files), listed, |ids|, files)
        decreases |ids|
      {
        if ids == [] {
          return Ok(ids);
        }
        var last := ids[|ids| - 1];
        if last !in files {
          assert RefusesRemoval(c, files, listed[|ids| - 1], NotFound);
          return Err(NotFound);
        }
        var complete := HasCompleteInitialRecord(c, files[last].os);
        FirstRecordCases(c, files[last].os);
        if complete.Err? {
          assert RefusesRemoval(c, files, listed[|ids| - 1], complete.error);
          return Err(complete.error);
        }
        if complete.value {
          return Ok(ids);
        }
        OneMoreGone(c, old(files), listed, |ids|, files);
        files := files - {last};
        ids := ids[..|ids| - 1];
      }
    }

    /**
     Loads chunk `id` after the chunks already loaded. A failure leaves the
     files alone, except that the program cuts a file without any record to
     nothing, if it may, before it asks for the last record.
     */
    method LoadChunk<R, S>(env: Env<R, S>, p: Progress<R, S>, id: nat, allowTruncate: bool)
      returns (res: Result<Progress<R, S>>)
      requires Bounded(env.codec) && p.disk == files
      modifies this
      ensures res == LoadOne(env, p, id, allowTruncate)
      ensures res.Ok? ==> files == res.value.disk && CutsOnly(env.codec, old(files), id, allowTruncate, files)
      ensures res.Err? && res.error != Panic ==> files == old(files) && LoadError(res.error)
      ensures res == Err(Panic) ==> EmptiesOnly(env.codec, old(files), id, allowTruncate, files)
    {
      if p.prevEnd.Some? && p.prevEnd.value != id {
        return Err(Gap);
      }
      if id !in files {
        return Err(NotFound);
      }
      var chunk, offsets := OpenChunkFile(env.codec, id, files[id], allowTruncate);
      if chunk.Err? {
        return Err(chunk.error);
      }
      files := files[id := chunk.value.file];
      if chunk.value.items == [] {
        return Err(Panic);
      }
      var recs := Records(chunk.value.items);
      var sm := p.sm;
      for i := 0 to |recs|
        invariant sm == Replay(env, p.sm, recs[..i])
      {
        sm := env.apply(sm, recs[i]);
        assert recs[..i + 1][..i] == recs[..i];
      }
      assert recs[..|recs|] == recs;
      return Ok(Progress(
                  files, p.chunks + [LoadedChunk(offsets, env.checkpoint(sm), chunk.value.truncated)],
                  sm, Some(offsets[|offsets| - 1]), p.replayed + recs));
    }

    /** Loads the chunks in order; only the last may be truncated, and a failure leaves the files alone. */
    method LoadAll<R, S>(env: Env<R, S>, ids: seq<nat>, start: S, truncate: bool) returns (res: Result<Progress<R, S>>)
      requires Bounded(env.codec)
      modifies this
      ensures res == Load(env, old(files), ids, |ids|, start, truncate)
      ensures res.Ok? ==> files == res.value.disk && CutsLast(env.codec, old(files), ids, truncate, files)
      ensures res.Err? && res.error != Panic ==> files == old(files) && LoadError(res.error)
      ensures res == Err(Panic) ==> files == old(files) || (ids != [] && EmptiesOnly(env.codec, old(files), Last(ids), truncate, files))
    {
      hide Load, LoadOne, CutsTail;
      ghost var disk := files;
      var p := Progress(files, [], start, None, []);
      var i: nat := 0;
      LoadNone(env, disk, ids, start, truncate);
      while i < |ids|
        invariant i <= |ids| && p.disk == files
        invariant i < |ids| ==> files == disk
        invariant i == |ids| ==> CutsLast(env.codec, disk, ids, truncate, files)
        invariant Load(env, disk, ids, i, start, truncate) == Ok(p)
      {
        var loaded := LoadChunk(env, p, ids[i], truncate && i + 1 == |ids|);
        LoadNext(env, disk, ids, i, start, truncate, p);
        if loaded.Err? {
          LoadStops(env, disk, ids, i + 1, |ids|, start, truncate);
          return loaded;
        }
        if i + 1 < |ids| {
          NotCut(env.codec, disk, ids[i], files);
        }
        p := loaded.value;
        i := i + 1;
      }
      return Ok(p);
    }

    /** Reopens the last chunk, or creates one that starts with a checkpoint; a file that is there is never replaced. */
    method OpenLast<R, S>(env: Env<R, S>, p: Progress<R, S>) returns (res: Result<Recovered<R, S>>)
      requires p.disk == files
      modifies this
      ensures res == OpenTail(env, p)
      ensures res.Ok? ==> files == res.value.disk
      ensures StartsAfter(old(files), NewId(p), files, res, env.codec.encode(env.checkpoint(p.sm)))
    {
      var n := |p.chunks|;
      if n > 0 && !p.chunks[n - 1].truncated {
        return Ok(Recovered(files, p.chunks[..n - 1], p.chunks[n - 1].offsets, p.sm, p.replayed));
      }
      var id := if p.prevEnd.Some? then p.prevEnd.value else 0;
      if id in files {
        return Err(FileExists);
      }
      files := files[id := EMPTY_FILE];
      var initial := env.codec.encode(env.checkpoint(p.sm));
      if initial.Rejected? {
        return Err(EncodeFailed);
      }
      files := files[id := File(initial.bytes, 0)];
      assert files == p.disk[id := File(initial.bytes, 0)];
      return Ok(Recovered(files, p.chunks, [id, id + initial.size], p.sm, p.replayed));
    }

    /**
     Opens the directory. Whatever comes of it, the files that are gone are the
     last ones and had no first record, the others are as they were up to a
     tail that may be cut, and at most one file is new.
     */
    method OpenLocked<R, S>(env: Env<R, S>, listed: seq<nat>, start: S, truncate: bool) returns (res: Result<Recovered<R, S>>)
      requires Bounded(env.codec)
      modifies this
      ensures res == Open(env, old(files), listed, start, truncate)
      ensures res.Ok? ==> files == res.value.disk
      ensures OpenLeaves(env, old(files), listed, truncate, res, files)
      ensures listed != [] && Last(listed) in old(files) && IsDamaged(env.codec, old(files)[Last(listed)].os) ==>
                res == Err(DamagedRecord) && files == old(files)
    {
      hide Load, OpenTail, RemoveTails, CutsLast, EmptiesOnly, LacksRecord, IsDamaged, StartsAfter;
      ghost var disk := files;
      var removed := RemoveIncompleteTailChunks(env.codec, listed);
      if listed != [] && Last(listed) in disk && IsDamaged(env.codec, disk[Last(listed)].os) {
        NoDamageGone(env.codec, disk, listed);
      }
      if removed.Err? {
        LeavesRemoved(env, disk, listed, truncate, removed.error, files);
        return Err(removed.error);
      }
      var ids := removed.value;
      ghost var mid := files;
      var loaded := LoadAll(env, ids, start, truncate);
      if loaded.Err? {
        NotEmptied(env.codec, mid, ids, truncate, files, loaded.error);
        LeavesLoaded(env, disk, listed, truncate, loaded.error, ids, mid);
        return Err(loaded.error);
      }
      ghost var cut := files;
      res := OpenLast(env, loaded.value);
      LeavesOpened(env, disk, listed, truncate, res, ids, mid, cut, loaded.value, files);
    }
  }

  lemma NotEmptied<R>(c: Codec<R>, disk: Disk, ids: seq<nat>, allowed: bool, disk': Disk, e: OpenError)
    requires ids == [] || (Last(ids) in disk && !LacksRecord(c, disk[Last(ids)].os))
    requires if e == Panic then disk' == disk || (ids != [] && EmptiesOnly(c, disk, Last(ids), allowed, disk')) else disk' == disk
    ensures disk' == disk
  {
  }

  lemma LoadNone<R, S>(env: Env<R, S>, disk: Disk, ids: seq<nat>, start: S, truncate: bool)
    requires Bounded(env.codec)
    ensures Load(env, disk, ids, 0, start, truncate) == Ok(Progress(disk, [], start, None, []))
  {
  }

  lemma LoadNext<R, S>(env: Env<R, S>, disk: Disk, ids: seq<nat>, i: nat, start: S, truncate: bool, p: Progress<R, S>)
    requires Bounded(env.codec) && i < |ids| && Load(env, disk, ids, i, start, truncate) == Ok(p)
    ensures Load(env, disk, ids, i + 1, start, truncate) == LoadOne(env, p, ids[i], truncate && i + 1 == |ids|)
  {
  }

  /** An error while loading a chunk is the result of the whole load. */
  lemma {:induction false} LoadStops<R, S>(
    env: Env<R, S>, disk: Disk, ids: seq<nat>, n: nat, m: nat, start: S, truncate: bool)
    requires Bounded(env.codec) && n <= m <= |ids| && Load(env, disk, ids, n, start, truncate).Err?
    ensures Load(env, disk, ids, m, start, truncate) == Load(env, disk, ids, n, start, truncate)
    decreases m
  {
    if n < m {
      LoadStops(env, disk, ids, n, m - 1, start, truncate);
    }
  }
}
