/** The requests that the main thread queues for the flush worker, and the files they reach. */
module Requests {
  import opened Bytes
  import opened Log

  /** What the operating system holds of a file, and how much of it survives a power cut. */
  datatype File = File(os: seq<Byte>, dur: nat)

  type Disk = map<nat, File>

  const EMPTY_FILE := File([], 0)

  /** The files with empty ones added. */
  function WithFiles(disk: Disk, ids: set<nat>): Disk {
    map k | k in disk.Keys + ids :: if k in disk then disk[k] else EMPTY_FILE
  }

  datatype WriteReq = WriteReq(upto: nat, data: seq<Byte>, sync: bool, callback: Option<nat>)

  datatype FileEntry<+R> = FileEntry(start: nat, prev: Option<R>)

  datatype Request<+R> =
    | Write(write: WriteReq)
    | AppendFile(entry: FileEntry<R>)
    | RemoveChunks(ids: seq<nat>)

  datatype SeqRequest<+R> = SeqRequest(seqNo: nat, req: Request<R>)

  function Reqs<R>(queue: seq<SeqRequest<R>>): (reqs: seq<Request<R>>)
    ensures |reqs| == |queue|
    ensures forall i | 0 <= i < |queue| :: reqs[i] == queue[i].req
  {
    seq(|queue|, i requires 0 <= i < |queue| => queue[i].req)
  }

  /** The data of a run of writes, in order. */
  function Data(writes: seq<WriteReq>): seq<Byte> {
    if writes == [] then [] else Data(writes[..|writes| - 1]) + writes[|writes| - 1].data
  }

  predicate NeedsSync(writes: seq<WriteReq>) {
    exists i | 0 <= i < |writes| :: writes[i].sync
  }

  function AsRequests<R>(writes: seq<WriteReq>): (reqs: seq<Request<R>>)
    ensures |reqs| == |writes|
    ensures forall i | 0 <= i < |writes| :: reqs[i] == Write(writes[i])
  {
    seq(|writes|, i requires 0 <= i < |writes| => Write(writes[i]))
  }

  function Last(ids: seq<nat>): nat {
    if ids == [] then 0 else ids[|ids| - 1]
  }
}
