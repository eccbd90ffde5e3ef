/** Length-prefixed strings as actions and checkpoints: an instance that meets every hypothesis on a log. */
module StringRecords {
  import opened Bytes
  import opened Codec
  import opened Log
  import opened WalRecords

  const LENGTH_LIMIT: nat := 0x1_0000_0000

  /** A string whose length fits in its four-byte prefix. */
  type Text = s: seq<Byte> | |s| < LENGTH_LIMIT

  const ACTION_TYPE: nat := 1

  lemma Capacities()
    ensures Capacity(4) == LENGTH_LIMIT && Capacity(8) == LENGTH_LIMIT * LENGTH_LIMIT
  {
    assert Capacity(1) == 256;
    assert Capacity(2) == 256 * 256;
    assert Capacity(3) == 256 * 256 * 256;
    assert Capacity(5) == 256 * LENGTH_LIMIT;
    assert Capacity(6) == 256 * 256 * LENGTH_LIMIT;
    assert Capacity(7) == 256 * 256 * 256 * LENGTH_LIMIT;
  }

  function EncodeText(s: Text): EncodeResult {
    Encoded(ToBigEndian(|s|, 4) + s, 4 + |s|)
  }

  function DecodeText(b: seq<Byte>): DecodeResult<Text> {
    if |b| < 4 then ShortRead
    else
      var n := FromBigEndian(b[..4]);
      FitsCapacity(b[..4]);
      Capacities();
      if |b| < 4 + n then ShortRead else Decoded(b[4..4 + n], 4 + n)
  }

  function EncodeTyped(s: Text): EncodeResult {
    Encoded(Tag(ACTION_TYPE) + EncodeText(s).bytes, 4 + EncodeText(s).size)
  }

  function DecodeTyped(b: seq<Byte>): DecodeResult<Text> {
    if |b| < 4 then ShortRead
    else if FromBigEndian(b[..4]) != ACTION_TYPE then Malformed
    else match DecodeText(b[4..])
      case Decoded(s, n) => Decoded(s, 4 + n)
      case other => other
  }

  function TextCodec(): Codec<Text> {
    Coder(s => EncodeText(s), b => DecodeText(b))
  }

  function ActionCodec(): Codec<Text> {
    Coder(s => EncodeTyped(s), b => DecodeTyped(b))
  }

  /** Decoding depends only on the encoded text, whole or cut. */
  lemma TextDecodes(s: Text, rest: seq<Byte>, k: nat)
    ensures DecodeText(EncodeText(s).bytes + rest) == Decoded(s, 4 + |s|)
    ensures k < 4 + |s| ==> DecodeText(EncodeText(s).bytes[..k]) == ShortRead
  {
    Capacities();
    BigEndianRoundTrip(|s|, 4);
    var head := ToBigEndian(|s|, 4);
    var b := head + s + rest;
    assert b[..4] == head && b[4..4 + |s|] == s;
    if 4 <= k < 4 + |s| {
      assert (head + s)[..k][..4] == head;
    }
  }

  lemma ActionDecodes(s: Text, rest: seq<Byte>)
    ensures DecodeTyped(EncodeTyped(s).bytes + rest) == Decoded(s, 8 + |s|)
  {
    hide DecodeText, ToBigEndian, FromBigEndian;
    Capacities();
    var b := EncodeTyped(s).bytes + rest;
    assert b[4..] == EncodeText(s).bytes + rest;
    TagRoundTrip(ACTION_TYPE, b);
    TextDecodes(s, rest, 0);
  }

  lemma ActionIsShort(s: Text, k: nat)
    requires k < 8 + |s|
    ensures DecodeTyped(EncodeTyped(s).bytes[..k]) == ShortRead
  {
    hide DecodeText, ToBigEndian, FromBigEndian;
    if k >= 4 {
      Capacities();
      CutInside(Tag(ACTION_TYPE), EncodeText(s).bytes, [], k);
      assert EncodeTyped(s).bytes + [] == EncodeTyped(s).bytes;
      TagRoundTrip(ACTION_TYPE, EncodeTyped(s).bytes[..k]);
      TextDecodes(s, [], k - 4);
    }
  }

  lemma ActionCodecIsLawful()
    ensures Lawful(ActionCodec())
  {
    var c := ActionCodec();
    forall s, rest ensures RoundTrips(c, s, rest) {
      ActionDecodes(s, rest);
    }
    forall s, k: nat ensures PrefixIsShort(c, s, k) {
      if k < 8 + |s| {
        ActionIsShort(s, k);
      }
    }
    forall b ensures RejectsZeros(c, b) {
      if |b| >= 4 && AllZero(b) {
        ZerosAreZero(b[..4]);
      }
    }
  }

  function StringParts(sum: seq<Byte> -> nat): Parts<Text, Text> {
    Parts(ActionCodec(), _ => Some(ACTION_TYPE), TextCodec(), sum)
  }

  /** Strings meet the hypotheses of the record format. */
  lemma StringPartsOk(sum: seq<Byte> -> nat)
    requires forall b :: sum(b) < Capacity(8)
    ensures PartsOk(StringParts(sum))
  {
    var p := StringParts(sum);
    ActionCodecIsLawful();
    forall a ensures LeadsWithType(p, a) {
      Capacities();
      assert Tag(ACTION_TYPE) <= EncodeTyped(a).bytes;
    }
    forall s, rest ensures RoundTrips(p.checkpoint, s, rest) {
      TextDecodes(s, rest, 0);
    }
    forall s, k: nat ensures PrefixIsShort(p.checkpoint, s, k) {
      TextDecodes(s, [], k);
    }
  }

  type StringRecord = WALRecord<Text, Text>

  /** A log of strings whose state is the last one written. */
  function StringEnv(sum: seq<Byte> -> nat, maxRecords: nat, maxSize: nat, queueLimit: nat): Env<StringRecord, Text> {
    Env(RecordCodec(StringParts(sum)), (_, r: StringRecord) => if r.Action? then r.action else r.state,
        s => Checkpoint(s), [], maxRecords, maxSize, queueLimit)
  }

  /** The hypotheses under which the theorems about logs are stated can be met. */
  lemma StringEnvOk(sum: seq<Byte> -> nat, maxRecords: nat, maxSize: nat, queueLimit: nat)
    requires (forall b :: sum(b) < Capacity(8)) && maxRecords > 0 && maxSize > 0
    ensures EnvOk(StringEnv(sum, maxRecords, maxSize, queueLimit))
  {
    hide Lawful;
    var env := StringEnv(sum, maxRecords, maxSize, queueLimit);
    StringPartsOk(sum);
    RecordCodecIsLawful(StringParts(sum));
    forall before, s ensures Restores(env, before, s) {
    }
    forall s ensures Encodable(env.codec, env.checkpoint(s)) {
    }
  }
}
