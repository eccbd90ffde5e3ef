/** The record format: user actions under their own type id, checkpoints under a reserved one. */
module WalRecords {
  import opened Bytes
  import opened Codec
  import opened Log

  const CHECKPOINT_RECORD_TYPE: nat := 5

  datatype WALRecord<+A, +C> = Action(action: A) | Checkpoint(state: C)

  /** The user's codecs, the type id of an action, and the checksum of the library. */
  datatype Parts<!A, !C> = Parts(
    action: Codec<A>, typeId: A -> Option<nat>, checkpoint: Codec<C>, sum: seq<Byte> -> nat)

  function Tag(typeId: nat): (s: seq<Byte>)
    ensures |s| == 4
  {
    ToBigEndian(typeId, 4)
  }

  function Encode<A, C>(p: Parts<A, C>, rec: WALRecord<A, C>): EncodeResult {
    match rec
    case Action(a) =>
      if p.typeId(a) == None || p.typeId(a) == Some(CHECKPOINT_RECORD_TYPE) then Rejected([])
      else p.action.encode(a)
    case Checkpoint(c) =>
      var head := Tag(CHECKPOINT_RECORD_TYPE);
      match p.checkpoint.encode(c)
      case Rejected(part) => Rejected(head + part)
      case Encoded(payload, size) =>
        var body := head + payload;
        Encoded(body + ToBigEndian(p.sum(body), 8), 4 + size + 8)
  }

  /** An action decoder is given the type bytes again, so at least those are consumed. */
  function DecodeAction<A, C>(p: Parts<A, C>, b: seq<Byte>, typeId: nat): DecodeResult<WALRecord<A, C>> {
    match p.action.decode(b)
    case ShortRead => ShortRead
    case Malformed => Malformed
    case Decoded(a, n) =>
      if p.typeId(a) == Some(typeId) then Decoded(Action(a), if n < 4 then 4 else n) else Malformed
  }

  function DecodeCheckpoint<A, C>(p: Parts<A, C>, b: seq<Byte>): DecodeResult<WALRecord<A, C>>
    requires |b| >= 4
  {
    match p.checkpoint.decode(b[4..])
    case ShortRead => ShortRead
    case Malformed => Malformed
    case Decoded(c, n) =>
      if |b| < 4 + n + 8 then ShortRead
      else if FromBigEndian(b[4 + n..4 + n + 8]) == p.sum(b[..4 + n]) then Decoded(Checkpoint(c), 4 + n + 8)
      else Malformed
  }

  function Decode<A, C>(p: Parts<A, C>, b: seq<Byte>): DecodeResult<WALRecord<A, C>> {
    if |b| < 4 then ShortRead
    else
      var typeId := FromBigEndian(b[..4]);
      if typeId != CHECKPOINT_RECORD_TYPE then DecodeAction(p, b, typeId) else DecodeCheckpoint(p, b)
  }

  function RecordCodec<A, C>(p: Parts<A, C>): Codec<WALRecord<A, C>> {
    Coder(rec => Encode(p, rec), b => Decode(p, b))
  }

  // What is asked of the parts

  /** An encoded action starts with its type id. */
  ghost predicate LeadsWithType<A, C>(p: Parts<A, C>, a: A) {
    p.action.encode(a).Encoded? && p.typeId(a).Some? ==>
      && p.typeId(a).value < Capacity(4)
      && Tag(p.typeId(a).value) <= p.action.encode(a).bytes
  }

  /** The laws of a payload, which unlike a record may be empty. */
  ghost predicate PayloadSize<C>(c: Codec<C>, v: C) {
    c.encode(v).Encoded? ==> c.encode(v).size == |c.encode(v).bytes|
  }

  ghost predicate PayloadInside<C>(c: Codec<C>, b: seq<Byte>) {
    c.decode(b).Decoded? ==> c.decode(b).used <= |b|
  }

  ghost predicate PartsOk<A(!new), C(!new)>(p: Parts<A, C>) {
    && Lawful(p.action)
    && (forall a :: LeadsWithType(p, a))
    && (forall c :: PayloadSize(p.checkpoint, c))
    && (forall c, rest :: RoundTrips(p.checkpoint, c, rest))
    && (forall c, k :: PrefixIsShort(p.checkpoint, c, k))
    && (forall b :: PayloadInside(p.checkpoint, b))
    && (forall b :: p.sum(b) < Capacity(8))
  }

  // The laws of records

  lemma TagRoundTrip(typeId: nat, b: seq<Byte>)
    requires typeId < Capacity(4) && Tag(typeId) <= b
    ensures FromBigEndian(b[..4]) == typeId
  {
    BigEndianRoundTrip(typeId, 4);
    assert b[..4] == Tag(typeId);
  }

  lemma ReservedTag()
    ensures CHECKPOINT_RECORD_TYPE < Capacity(4)
  {
    assert Capacity(1) == 256;
    assert Capacity(2) == 65536;
  }

  lemma ReservedBytes()
    ensures Tag(CHECKPOINT_RECORD_TYPE) == [0, 0, 0, 5]
  {
    assert ToBigEndian(0, 0) == [];
    assert ToBigEndian(0, 1) == [0];
    assert ToBigEndian(0, 2) == [0, 0];
    assert ToBigEndian(0, 3) == [0, 0, 0];
  }

  /** The first bytes of an encoded action say that it is one. */
  lemma ActionTag<A(!new), C(!new)>(p: Parts<A, C>, a: A, b: seq<Byte>)
    requires PartsOk(p) && Encode(p, Action(a)).Encoded?
    requires |b| >= 4 && (b <= Encode(p, Action(a)).bytes || Encode(p, Action(a)).bytes <= b)
    ensures p.typeId(a).Some? && FromBigEndian(b[..4]) == p.typeId(a).value != CHECKPOINT_RECORD_TYPE
    ensures |Encode(p, Action(a)).bytes| >= 4
  {
    assert LeadsWithType(p, a);
    var bytes := Encode(p, Action(a)).bytes;
    assert b[..4] == bytes[..4];
    TagRoundTrip(p.typeId(a).value, bytes);
  }

  lemma ActionLaws<A(!new), C(!new)>(p: Parts<A, C>, a: A, rest: seq<Byte>, k: nat)
    requires PartsOk(p)
    ensures var c := RecordCodec(p); SizeIsHonest(c, Action(a)) && RoundTrips(c, Action(a), rest) && PrefixIsShort(c, Action(a), k)
  {
    if Encode(p, Action(a)).Encoded? {
      var bytes := p.action.encode(a).bytes;
      assert SizeIsHonest(p.action, a) && RoundTrips(p.action, a, rest) && PrefixIsShort(p.action, a, k);
      assert LeadsWithType(p, a);
      ActionTag(p, a, bytes + rest);
      if 4 <= k < |bytes| {
        ActionTag(p, a, bytes[..k]);
      }
    }
  }

  /** A file that starts with an encoded checkpoint, or with part of one beyond the payload. */
  lemma CheckpointDecodes<A(!new), C(!new)>(p: Parts<A, C>, c: C, rest: seq<Byte>)
    requires PartsOk(p) && p.checkpoint.encode(c).Encoded?
    ensures var payload := p.checkpoint.encode(c).bytes;
            var body := Tag(CHECKPOINT_RECORD_TYPE) + payload;
            Decode(p, body + rest) ==
            if |rest| < 8 then ShortRead
            else if FromBigEndian(rest[..8]) == p.sum(body) then Decoded(Checkpoint(c), |body| + 8)
            else Malformed
  {
    var payload := p.checkpoint.encode(c).bytes;
    var body := Tag(CHECKPOINT_RECORD_TYPE) + payload;
    var b := body + rest;
    ReservedTag();
    TagRoundTrip(CHECKPOINT_RECORD_TYPE, b);
    assert RoundTrips(p.checkpoint, c, rest);
    assert b[4..] == payload + rest && b[..4 + |payload|] == body;
    if |rest| >= 8 {
      assert b[4 + |payload|..4 + |payload| + 8] == rest[..8];
    }
  }

  lemma CheckpointRoundTrips<A(!new), C(!new)>(p: Parts<A, C>, c: C, rest: seq<Byte>)
    requires PartsOk(p)
    ensures SizeIsHonest(RecordCodec(p), Checkpoint(c)) && RoundTrips(RecordCodec(p), Checkpoint(c), rest)
  {
    if p.checkpoint.encode(c).Encoded? {
      assert PayloadSize(p.checkpoint, c);
      var body := Tag(CHECKPOINT_RECORD_TYPE) + p.checkpoint.encode(c).bytes;
      var sum := ToBigEndian(p.sum(body), 8);
      BigEndianRoundTrip(p.sum(body), 8);
      CheckpointDecodes(p, c, sum + rest);
      assert (sum + rest)[..8] == sum;
      assert body + (sum + rest) == (body + sum) + rest;
    }
  }

  lemma CutInside(head: seq<Byte>, mid: seq<Byte>, tail: seq<Byte>, k: nat)
    requires |head| <= k <= |head| + |mid|
    ensures head <= (head + mid + tail)[..k] && (head + mid + tail)[..k][|head|..] == mid[..k - |head|]
  {
  }

  lemma CheckpointPrefix<A(!new), C(!new)>(p: Parts<A, C>, c: C, k: nat)
    requires PartsOk(p)
    ensures PrefixIsShort(RecordCodec(p), Checkpoint(c), k)
  {
    if p.checkpoint.encode(c).Encoded? {
      var head, payload := Tag(CHECKPOINT_RECORD_TYPE), p.checkpoint.encode(c).bytes;
      var body := head + payload;
      var sum := ToBigEndian(p.sum(body), 8);
      if 4 <= k < |body| {
        CutInside(head, payload, sum, k);
        ReservedTag();
        TagRoundTrip(CHECKPOINT_RECORD_TYPE, (body + sum)[..k]);
        assert PrefixIsShort(p.checkpoint, c, k - 4);
      } else if |body| <= k < |body| + 8 {
        CheckpointDecodes(p, c, sum[..k - |body|]);
        assert (body + sum)[..k] == body + sum[..k - |body|];
      }
    }
  }

  lemma RecordBounds<A(!new), C(!new)>(p: Parts<A, C>, b: seq<Byte>)
    requires PartsOk(p)
    ensures StaysInside(RecordCodec(p), b) && RejectsZeros(RecordCodec(p), b)
  {
    assert StaysInside(p.action, b) && RejectsZeros(p.action, b);
    if |b| >= 4 {
      assert PayloadInside(p.checkpoint, b[4..]);
      if AllZero(b) {
        ZerosAreZero(b[..4]);
      }
    }
  }

  /**
   The record format is lawful whenever the user's codecs are: every record
   is decoded back whatever follows it and consumes exactly its size, every
   strict prefix reads as running out of bytes, and zeros are no record.
   */
  lemma RecordCodecIsLawful<A(!new), C(!new)>(p: Parts<A, C>)
    requires PartsOk(p)
    ensures Lawful(RecordCodec(p))
  {
    hide PartsOk, SizeIsHonest, RoundTrips, PrefixIsShort, StaysInside, RejectsZeros, RecordCodec;
    var c := RecordCodec(p);
    forall rec ensures SizeIsHonest(c, rec) {
      OneRecord(p, rec, [], 0);
    }
    forall rec, rest ensures RoundTrips(c, rec, rest) {
      OneRecord(p, rec, rest, 0);
    }
    forall rec, k: nat ensures PrefixIsShort(c, rec, k) {
      OneRecord(p, rec, [], k);
    }
    forall b ensures StaysInside(c, b) && RejectsZeros(c, b) {
      RecordBounds(p, b);
    }
  }

  lemma OneRecord<A(!new), C(!new)>(p: Parts<A, C>, rec: WALRecord<A, C>, rest: seq<Byte>, k: nat)
    requires PartsOk(p)
    ensures var c := RecordCodec(p); SizeIsHonest(c, rec) && RoundTrips(c, rec, rest) && PrefixIsShort(c, rec, k)
  {
    hide PartsOk, SizeIsHonest, RoundTrips, PrefixIsShort, RecordCodec;
    match rec
    case Action(a) => ActionLaws(p, a, rest, k);
    case Checkpoint(c) =>
      CheckpointRoundTrips(p, c, rest);
      CheckpointPrefix(p, c, k);
  }

  /** The reserved tag keeps actions and checkpoints apart, and an action that claims it is rejected. */
  lemma TagsAreDisjoint<A(!new), C(!new)>(p: Parts<A, C>, a: A, c: C, rest: seq<Byte>)
    requires PartsOk(p)
    ensures p.typeId(a) == Some(CHECKPOINT_RECORD_TYPE) ==> Encode(p, Action(a)) == Rejected([])
    ensures Encode(p, Action(a)).Encoded? ==>
              Decode(p, Encode(p, Action(a)).bytes + rest) == Decoded(Action(a), Encode(p, Action(a)).size)
    ensures Encode(p, Checkpoint(c)).Encoded? ==>
              Decode(p, Encode(p, Checkpoint(c)).bytes + rest) == Decoded(Checkpoint(c), Encode(p, Checkpoint(c)).size)
    ensures Encode(p, Action(a)).Encoded? && Encode(p, Checkpoint(c)).Encoded? ==>
              |Encode(p, Action(a)).bytes| >= 4
              && Encode(p, Action(a)).bytes[..4] != Encode(p, Checkpoint(c)).bytes[..4]
  {
    ActionLaws(p, a, rest, 0);
    CheckpointRoundTrips(p, c, rest);
    if Encode(p, Action(a)).Encoded? && Encode(p, Checkpoint(c)).Encoded? {
      ActionTag(p, a, Encode(p, Action(a)).bytes);
      ReservedTag();
      TagRoundTrip(CHECKPOINT_RECORD_TYPE, Encode(p, Checkpoint(c)).bytes);
    }
  }

  /** A checkpoint is accepted exactly when its trailer is the checksum of its tag and payload. */
  lemma ChecksumGuardsCheckpoint<A(!new), C(!new)>(p: Parts<A, C>, c: C, trailer: seq<Byte>, rest: seq<Byte>)
    requires PartsOk(p) && p.checkpoint.encode(c).Encoded? && |trailer| == 8
    ensures var body := Tag(CHECKPOINT_RECORD_TYPE) + p.checkpoint.encode(c).bytes;
            var res := Decode(p, body + trailer + rest);
            if FromBigEndian(trailer) == p.sum(body) then res == Decoded(Checkpoint(c), |body| + 8) else res == Malformed
  {
    var body := Tag(CHECKPOINT_RECORD_TYPE) + p.checkpoint.encode(c).bytes;
    CheckpointDecodes(p, c, trailer + rest);
    assert body + (trailer + rest) == body + trailer + rest && (trailer + rest)[..8] == trailer;
  }

  /** What is encoded: actions under an id of their own that their codec takes, and the states that theirs takes. */
  lemma EncodedRecords<A(!new), C(!new)>(p: Parts<A, C>, a: A, c: C)
    requires PartsOk(p)
    ensures Encode(p, Action(a)).Encoded? <==>
              p.typeId(a).Some? && p.typeId(a).value != CHECKPOINT_RECORD_TYPE && p.action.encode(a).Encoded?
    ensures Encode(p, Action(a)).Encoded? ==> Encode(p, Action(a)) == p.action.encode(a)
    ensures Encode(p, Checkpoint(c)).Encoded? <==> p.checkpoint.encode(c).Encoded?
    ensures Encode(p, Checkpoint(c)).Encoded? ==>
              var (payload, head) := (p.checkpoint.encode(c).bytes, [0, 0, 0, 5]);
              && Encode(p, Checkpoint(c)).bytes == head + payload + ToBigEndian(p.sum(head + payload), 8)
              && Encode(p, Checkpoint(c)).size == 4 + |payload| + 8
  {
    ReservedBytes();
    assert PayloadSize(p.checkpoint, c);
  }

  /**
   Why a record cannot be read. Too few bytes and bad bytes are different: a
   record of either kind is malformed if its own codec says so, an action also
   if it claims another type, and a checkpoint if its trailer is not the checksum.
   */
  lemma UnreadableRecords<A(!new), C(!new)>(p: Parts<A, C>, tag: nat, b: seq<Byte>)
    requires PartsOk(p) && tag < Capacity(4)
    ensures tag != CHECKPOINT_RECORD_TYPE ==>
              var own, res := p.action.decode(Tag(tag) + b), Decode(p, Tag(tag) + b);
              && (res.ShortRead? <==> own.ShortRead?)
              && (res.Malformed? <==> own.Malformed? || (own.Decoded? && p.typeId(own.value) != Some(tag)))
    ensures tag == CHECKPOINT_RECORD_TYPE ==>
              var own, res := p.checkpoint.decode(b), Decode(p, Tag(tag) + b);
              && (res.ShortRead? <==> own.ShortRead? || (own.Decoded? && |b| < own.used + 8))
              && (res.Malformed? <==>
                    own.Malformed?
                    || (own.Decoded? && |b| >= own.used + 8
                        && FromBigEndian(b[own.used..own.used + 8]) != p.sum(Tag(tag) + b[..own.used])))
    ensures forall few: seq<Byte> | |few| < 4 :: Decode(p, few).ShortRead?
  {
    var file := Tag(tag) + b;
    TagRoundTrip(tag, file);
    assert file[4..] == b;
    var own := p.checkpoint.decode(b);
    assert PayloadInside(p.checkpoint, b);
    if own.Decoded? && |b| >= own.used + 8 {
      assert file[4 + own.used..4 + own.used + 8] == b[own.used..own.used + 8];
      assert file[..4 + own.used] == Tag(tag) + b[..own.used];
    }
  }
}
