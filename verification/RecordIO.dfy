/** Writing a record to a buffer and reading one from a file, byte by byte accounted for. */
module RecordIO {
  import opened Bytes
  import opened Codec
  import opened RecordStream
  import opened Log
  import opened WalRecords

  /** A buffer that encoders append to. */
  class Sink {
    var data: seq<Byte>

    constructor ()
      ensures data == []
    {
      data := [];
    }

    method Write(b: seq<Byte>)
      modifies this
      ensures data == old(data) + b
    {
      data := data + b;
    }
  }

  /** Runs a payload encoder, which may fail after part of its output. */
  method EncodePayload<T>(c: Codec<T>, v: T, w: Sink) returns (size: Option<nat>)
    modifies w
    ensures match c.encode(v)
            case Encoded(bytes, n) => size == Some(n) && w.data == old(w.data) + bytes
            case Rejected(part) => size == None && w.data == old(w.data) + part
  {
    match c.encode(v)
    case Encoded(bytes, n) =>
      w.Write(bytes);
      return Some(n);
    case Rejected(part) =>
      w.Write(part);
      return None;
  }

  /** Encodes a record, counting what is written; the checksum covers the tag and the payload. */
  method EncodeRecord<A, C>(p: Parts<A, C>, rec: WALRecord<A, C>, w: Sink) returns (size: Option<nat>)
    modifies w
    ensures match Encode(p, rec)
            case Encoded(bytes, n) => size == Some(n) && w.data == old(w.data) + bytes
            case Rejected(part) => size == None && w.data == old(w.data) + part
  {
    match rec
    case Action(a) =>
      var typeId := p.typeId(a);
      if typeId == None || typeId == Some(CHECKPOINT_RECORD_TYPE) {
        assert w.data == old(w.data) + [];
        return None;
      }
      size := EncodePayload(p.action, a, w);
    case Checkpoint(c) =>
      var start := |w.data|;
      w.Write(Tag(CHECKPOINT_RECORD_TYPE));
      var n := 4;
      var payload := EncodePayload(p.checkpoint, c, w);
      ghost var head := Tag(CHECKPOINT_RECORD_TYPE);
      if payload == None {
        assert w.data == old(w.data) + (head + p.checkpoint.encode(c).partial);
        return None;
      }
      n := n + payload.value;
      var body := w.data[start..];
      assert body == head + p.checkpoint.encode(c).bytes;
      var sum := ToBigEndian(p.sum(body), 8);
      w.Write(sum);
      assert w.data == old(w.data) + (body + sum);
      return Some(n + 8);
  }

  /** Decodes the next record; the reader has then moved by exactly the bytes it used. */
  method DecodeRecord<A(!new), C(!new)>(p: Parts<A, C>, r: OffsetReader) returns (res: DecodeResult<WALRecord<A, C>>)
    requires r.Valid() && PartsOk(p)
    modifies r
    ensures r.Valid() && r.offset >= old(r.offset)
    ensures res == Decode(p, r.inner[old(r.offset)..])
    ensures res.Decoded? ==> r.offset == old(r.offset) + res.used
  {
    ghost var file := r.inner[r.offset..];
    RecordBounds(p, file);
    var start := r.offset;
    var typeBytes := r.Read(4);
    if |typeBytes| < 4 {
      return ShortRead;
    }
    assert typeBytes == file[..4];
    var typeId := FromBigEndian(typeBytes);
    var replayed := typeBytes + r.inner[r.offset..];
    assert replayed == file;
    res := if typeId != CHECKPOINT_RECORD_TYPE then DecodeAction(p, replayed, typeId) else DecodeCheckpoint(p, replayed);
    if res.Decoded? {
      UsesTag(p, file);
      var rest := r.Read(res.used - 4);
    }
  }

  lemma UsesTag<A(!new), C(!new)>(p: Parts<A, C>, b: seq<Byte>)
    requires PartsOk(p) && Decode(p, b).Decoded?
    ensures 4 <= Decode(p, b).used <= |b|
  {
    RecordBounds(p, b);
  }
}
