/**
 What the log asks of the codec of its records.

 An encoder reports the bytes it wrote and the size it claims; a rejected
 record may leave a partial encoding behind. A decoder sees the rest of the
 file and reports how much of it was consumed, that it ran out of bytes, or
 that the bytes are not a record.
 */
module Codec {
  import opened Bytes

  datatype EncodeResult = Encoded(bytes: seq<Byte>, size: nat) | Rejected(partial: seq<Byte>)

  datatype DecodeResult<+R> = Decoded(value: R, used: nat) | ShortRead | Malformed

  datatype Codec<!R> = Coder(encode: R -> EncodeResult, decode: seq<Byte> -> DecodeResult<R>)

  // The laws, one instance at a time, so that a proof names the instance it needs.

  ghost predicate SizeIsHonest<R>(c: Codec<R>, r: R) {
    c.encode(r).Encoded? ==> c.encode(r).size == |c.encode(r).bytes| > 0
  }

  ghost predicate RoundTrips<R>(c: Codec<R>, r: R, rest: seq<Byte>) {
    c.encode(r).Encoded? ==> c.decode(c.encode(r).bytes + rest) == Decoded(r, |c.encode(r).bytes|)
  }

  ghost predicate PrefixIsShort<R>(c: Codec<R>, r: R, k: nat) {
    c.encode(r).Encoded? && k < |c.encode(r).bytes| ==> c.decode(c.encode(r).bytes[..k]) == ShortRead
  }

  ghost predicate StaysInside<R>(c: Codec<R>, b: seq<Byte>) {
    c.decode(b).Decoded? ==> 0 < c.decode(b).used <= |b|
  }

  ghost predicate RejectsZeros<R>(c: Codec<R>, b: seq<Byte>) {
    AllZero(b) ==> !c.decode(b).Decoded?
  }

  /** Decoding a file makes progress and never reads past its end. */
  ghost predicate Bounded<R>(c: Codec<R>) {
    forall b :: StaysInside(c, b)
  }

  ghost predicate Lawful<R(!new)>(c: Codec<R>) {
    && (forall r :: SizeIsHonest(c, r))
    && (forall r, rest :: RoundTrips(c, r, rest))
    && (forall r, k :: PrefixIsShort(c, r, k))
    && Bounded(c)
    && (forall b :: RejectsZeros(c, b))
  }

  predicate Encodable<R>(c: Codec<R>, r: R) {
    c.encode(r).Encoded?
  }

  /** The encoding of a record, empty for one the codec rejects. */
  function Bytes1<R>(c: Codec<R>, r: R): seq<Byte> {
    if c.encode(r).Encoded? then c.encode(r).bytes else []
  }

  /** The encodings of `recs` in order: the bytes a chunk holding them has. */
  function Stream<R>(c: Codec<R>, recs: seq<R>): seq<Byte> {
    if recs == [] then [] else Stream(c, recs[..|recs| - 1]) + Bytes1(c, recs[|recs| - 1])
  }

  predicate AllEncodable<R>(c: Codec<R>, recs: seq<R>) {
    forall i | 0 <= i < |recs| :: Encodable(c, recs[i])
  }

  lemma {:induction false} StreamConcat<R>(c: Codec<R>, a: seq<R>, b: seq<R>)
    ensures Stream(c, a + b) == Stream(c, a) + Stream(c, b)
  {
    if b == [] {
      assert a + b == a;
    } else {
      var b' := b[..|b| - 1];
      StreamConcat(c, a, b');
      assert (a + b)[..|a + b| - 1] == a + b';
    }
  }

  lemma StreamEmpty<R>(c: Codec<R>)
    ensures Stream(c, []) == []
  {
  }

  lemma StreamOne<R>(c: Codec<R>, r: R)
    ensures Stream(c, [r]) == Bytes1(c, r)
  {
    assert [r][..0] == [];
  }

  lemma StreamAppend<R>(c: Codec<R>, recs: seq<R>, r: R)
    ensures Stream(c, recs + [r]) == Stream(c, recs) + Bytes1(c, r)
  {
    assert (recs + [r])[..|recs|] == recs;
  }

  lemma StreamSplit<R>(c: Codec<R>, recs: seq<R>, k: nat)
    requires k <= |recs|
    ensures Stream(c, recs) == Stream(c, recs[..k]) + Stream(c, recs[k..])
  {
    assert recs == recs[..k] + recs[k..];
    StreamConcat(c, recs[..k], recs[k..]);
  }

  lemma StreamHead<R>(c: Codec<R>, recs: seq<R>)
    requires recs != []
    ensures Stream(c, recs) == Bytes1(c, recs[0]) + Stream(c, recs[1..])
  {
    StreamSplit(c, recs, 1);
    assert recs[..1] == [recs[0]];
    StreamOne(c, recs[0]);
  }

  lemma EncodedNotEmpty<R(!new)>(c: Codec<R>, recs: seq<R>, i: nat)
    requires Lawful(c) && AllEncodable(c, recs) && i < |recs|
    ensures Encodable(c, recs[i]) && |Bytes1(c, recs[i])| > 0
  {
    assert SizeIsHonest(c, recs[i]) && Encodable(c, recs[i]);
  }

  lemma StreamPrefix<R>(c: Codec<R>, recs: seq<R>, k: nat)
    requires k <= |recs|
    ensures Stream(c, recs[..k]) <= Stream(c, recs)
    ensures k < |recs| ==> Stream(c, recs[..k + 1]) == Stream(c, recs[..k]) + Bytes1(c, recs[k])
  {
    hide Stream;
    StreamSplit(c, recs, k);
    if k < |recs| {
      assert recs[..k + 1] == recs[..k] + [recs[k]];
      StreamAppend(c, recs[..k], recs[k]);
    }
  }

  /** Longer record prefixes have strictly longer streams. */
  lemma StreamGrows<R(!new)>(c: Codec<R>, recs: seq<R>, j: nat, k: nat)
    requires Lawful(c) && AllEncodable(c, recs)
    requires j <= k <= |recs|
    ensures Stream(c, recs[..j]) <= Stream(c, recs[..k]) <= Stream(c, recs)
    ensures j < k ==> |Stream(c, recs[..j])| < |Stream(c, recs[..k])|
  {
    hide Stream, Lawful, AllEncodable;
    StreamPrefix(c, recs, k);
    assert recs[..k][..j] == recs[..j];
    StreamPrefix(c, recs[..k], j);
    if j < k {
      assert recs[..k][..j + 1] == recs[..j + 1];
      StreamPrefix(c, recs[..k], j + 1);
      EncodedNotEmpty(c, recs, j);
    }
  }

  /** The record boundary at or below a position of the stream. */
  lemma {:induction false} BoundaryBelow<R(!new)>(c: Codec<R>, recs: seq<R>, pos: nat) returns (k: nat)
    requires Lawful(c) && AllEncodable(c, recs)
    requires pos <= |Stream(c, recs)|
    ensures k <= |recs|
    ensures |Stream(c, recs[..k])| <= pos
    ensures k < |recs| ==> pos < |Stream(c, recs[..k + 1])|
  {
    if pos == |Stream(c, recs)| {
      k := |recs|;
      assert recs[..k] == recs;
    } else {
      hide Lawful, Bytes1;
      var shorter := recs[..|recs| - 1];
      if |Stream(c, shorter)| <= pos {
        k := |recs| - 1;
        assert recs[..k + 1] == recs;
      } else {
        k := BoundaryBelow(c, shorter, pos);
        assert shorter[..k] == recs[..k];
        assert k < |shorter| ==> shorter[..k + 1] == recs[..k + 1];
      }
    }
  }
}
