/**
 Opening a directory, as a function of its files: discard trailing chunks
 without a complete first record, load the others in order, truncate a torn
 tail, and reopen the last chunk or start a new one.
 */
module Recovery {
  import opened Bytes
  import opened Codec
  import opened RecordStream
  import opened Log
  import opened Requests

  /** Why `open` fails; asked for the last record of a chunk without any, the program panics. */
  datatype OpenError = NotFound | Gap | ShortRecord | DamagedRecord | Panic | FileExists | EncodeFailed

  datatype Result<+T> = Ok(value: T) | Err(error: OpenError)

  /** A chunk as recovery keeps it: its record offsets and the checkpoint after its last record. */
  datatype LoadedChunk<+R> = LoadedChunk(offsets: seq<nat>, state: R, truncated: bool)

  predicate IsListing(ids: seq<nat>, keys: set<nat>) {
    && (forall i, j | 0 <= i < j < |ids| :: ids[i] < ids[j])
    && (forall i | 0 <= i < |ids| :: ids[i] in keys)
    && (forall k | k in keys :: k in ids)
  }

  function HasInitialRecord<R>(c: Codec<R>, b: seq<Byte>): Result<bool> {
    if b == [] then Ok(false)
    else match c.decode(b)
      case Decoded(_, _) => Ok(true)
      case ShortRead => Ok(false)
      case Malformed => if AllZero(b) then Ok(false) else Err(DamagedRecord)
  }

  function RemoveTails<R>(c: Codec<R>, disk: Disk, ids: seq<nat>): Result<(Disk, seq<nat>)>
    decreases |ids|
  {
    if ids == [] then Ok((disk, ids))
    else
      var last := ids[|ids| - 1];
      if last !in disk then Err(NotFound)
      else match HasInitialRecord(c, disk[last].os)
        case Err(e) => Err(e)
        case Ok(complete) =>
          if complete then Ok((disk, ids)) else RemoveTails(c, disk - {last}, ids[..|ids| - 1])
  }

  /** Where the record that cannot be read begins. */
  function GoodEnd<R>(items: seq<Item<R>>): nat {
    if items == [] then 0 else items[|items| - 1].seg.End()
  }

  function ItemOffsets<R>(id: nat, items: seq<Item<R>>): (offs: seq<nat>)
    ensures |offs| == |items| + 1
  {
    [id] + seq(|items|, i requires 0 <= i < |items| => id + items[i].seg.End())
  }

  /** A chunk file opened for loading: the file afterwards, its records and whether it was cut. */
  datatype OpenedChunk<+R> = OpenedChunk(file: File, items: seq<Item<R>>, truncated: bool)

  function OpenWithTruncate<R>(c: Codec<R>, f: File, canTruncate: bool): Result<OpenedChunk<R>>
    requires Bounded(c)
  {
    var p := Parse(c, f.os, 0);
    var end := GoodEnd(p.items);
    match p.tail
    case Clean => Ok(OpenedChunk(f, p.items, false))
    case Torn =>
      if canTruncate && end <= |f.os| then Ok(OpenedChunk(File(f.os[..end], end), p.items, true))
      else Err(ShortRecord)
    case Damaged =>
      if end <= |f.os| && AllZero(f.os[end..]) && canTruncate
      then Ok(OpenedChunk(File(f.os[..end], end), p.items, true))
      else Err(DamagedRecord)
  }

  datatype Progress<+R, +S> = Progress(
    disk: Disk, chunks: seq<LoadedChunk<R>>, sm: S, prevEnd: Option<nat>, replayed: seq<R>)

  function LoadOne<R, S>(env: Env<R, S>, p: Progress<R, S>, id: nat, canTruncate: bool): Result<Progress<R, S>>
    requires Bounded(env.codec)
  {
    if p.prevEnd.Some? && p.prevEnd.value != id then Err(Gap)
    else if id !in p.disk then Err(NotFound)
    else match OpenWithTruncate(env.codec, p.disk[id], canTruncate)
      case Err(e) => Err(e)
      case Ok(oc) =>
        if oc.items == [] then Err(Panic)
        else
          var recs := Records(oc.items);
          var sm := Replay(env, p.sm, recs);
          var offsets := ItemOffsets(id, oc.items);
          Ok(Progress(
               p.disk[id := oc.file],
               p.chunks + [LoadedChunk(offsets, env.checkpoint(sm), oc.truncated)],
               sm, Some(offsets[|offsets| - 1]), p.replayed + recs))
  }

  /** The first `n` chunks loaded; only the last of all may be truncated. */
  function Load<R, S>(env: Env<R, S>, disk: Disk, ids: seq<nat>, n: nat, start: S, truncate: bool)
    : (res: Result<Progress<R, S>>)
    requires Bounded(env.codec) && n <= |ids|
    ensures res.Ok? ==> res.value.disk.Keys == disk.Keys && |res.value.chunks| == n
    decreases n
  {
    if n == 0 then Ok(Progress(disk, [], start, None, []))
    else match Load(env, disk, ids, n - 1, start, truncate)
      case Err(e) => Err(e)
      case Ok(p) => LoadOne(env, p, ids[n - 1], truncate && n == |ids|)
  }

  datatype Recovered<+R, +S> = Recovered(
    disk: Disk, closed: seq<LoadedChunk<R>>, open: seq<nat>, sm: S, replayed: seq<R>)

  /** Where the chunk after the loaded ones starts. */
  function NewId<R, S>(p: Progress<R, S>): nat {
    if p.prevEnd.Some? then p.prevEnd.value else 0
  }

  /** Reopens the last chunk unless it was truncated; otherwise starts a chunk after it. */
  function OpenTail<R, S>(env: Env<R, S>, p: Progress<R, S>): Result<Recovered<R, S>> {
    var n := |p.chunks|;
    if n > 0 && !p.chunks[n - 1].truncated then
      Ok(Recovered(p.disk, p.chunks[..n - 1], p.chunks[n - 1].offsets, p.sm, p.replayed))
    else
      var id := NewId(p);
      if id in p.disk then Err(FileExists)
      else match env.codec.encode(env.checkpoint(p.sm))
        case Rejected(_) => Err(EncodeFailed)
        case Encoded(bytes, size) =>
          Ok(Recovered(p.disk[id := File(bytes, 0)], p.chunks, [id, id + size], p.sm, p.replayed))
  }

  function LoadAndOpen<R, S>(env: Env<R, S>, disk: Disk, ids: seq<nat>, start: S, truncate: bool)
    : Result<Recovered<R, S>>
    requires Bounded(env.codec)
  {
    match Load(env, disk, ids, |ids|, start, truncate)
    case Err(e) => Err(e)
    case Ok(p) => OpenTail(env, p)
  }

  function Open<R, S>(env: Env<R, S>, disk: Disk, ids: seq<nat>, start: S, truncate: bool): Result<Recovered<R, S>>
    requires Bounded(env.codec)
  {
    match RemoveTails(env.codec, disk, ids)
    case Err(e) => Err(e)
    case Ok((disk', ids')) => LoadAndOpen(env, disk', ids', start, truncate)
  }
}
