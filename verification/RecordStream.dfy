/** Reading a chunk file back as records: the parse, and what it does on every cut of a log. */
module RecordStream {
  import opened Bytes
  import opened Codec

  datatype Segment = Segment(offset: nat, size: nat) {
    function End(): nat {
      offset + size
    }
  }

  datatype Item<+R> = Item(seg: Segment, rec: R)

  /** How a parse ends: at the end of the file, out of bytes, or on bytes that are no record. */
  datatype Tail = Clean | Torn | Damaged

  datatype Parsed<+R> = Parsed(items: seq<Item<R>>, tail: Tail)

  function Parse<R>(c: Codec<R>, b: seq<Byte>, pos: nat): Parsed<R>
    requires Bounded(c) && pos <= |b|
    decreases |b| - pos
  {
    if pos == |b| then Parsed([], Clean)
    else
      assert StaysInside(c, b[pos..]);
      match c.decode(b[pos..])
      case ShortRead => Parsed([], Torn)
      case Malformed => Parsed([], Damaged)
      case Decoded(r, n) =>
        Then([Item(Segment(pos, n), r)], Parse(c, b, pos + n))
  }

  /** The parse that yields `items` before `after`. */
  function Then<R>(items: seq<Item<R>>, after: Parsed<R>): Parsed<R> {
    Parsed(items + after.items, after.tail)
  }

  lemma ThenTwice<R>(a: seq<Item<R>>, b: seq<Item<R>>, after: Parsed<R>)
    ensures Then(a, Then(b, after)) == Then(a + b, after)
  {
    assert a + (b + after.items) == a + b + after.items;
  }

  lemma ThenNothing<R>(after: Parsed<R>)
    ensures Then([], after) == after
  {
    assert [] + after.items == after.items;
  }

  /** The records of a parse. */
  function Records<R>(items: seq<Item<R>>): (recs: seq<R>)
    ensures |recs| == |items|
    ensures forall i | 0 <= i < |items| :: recs[i] == items[i].rec
  {
    if items == [] then [] else [items[0].rec] + Records(items[1..])
  }

  /** `recs` laid out back to back from `start`. */
  function Layout<R>(c: Codec<R>, start: nat, recs: seq<R>): (items: seq<Item<R>>)
    ensures |items| == |recs|
    decreases |recs|
  {
    if recs == [] then []
    else
      var n := |Bytes1(c, recs[0])|;
      [Item(Segment(start, n), recs[0])] + Layout(c, start + n, recs[1..])
  }

  lemma PrefixHead<R>(c: Codec<R>, recs: seq<R>, k: nat)
    requires 0 < k <= |recs|
    ensures |Stream(c, recs[..k])| == |Bytes1(c, recs[0])| + |Stream(c, recs[1..][..k - 1])|
  {
    StreamHead(c, recs[..k]);
    assert recs[..k][1..] == recs[1..][..k - 1];
  }

  /** Segments of a layout sit at the prefix sums of the encoded sizes. */
  lemma {:induction false} LayoutAt<R>(c: Codec<R>, start: nat, recs: seq<R>, i: nat)
    requires i < |recs|
    ensures var it := Layout(c, start, recs)[i];
            it.rec == recs[i]
            && it.seg.offset == start + |Stream(c, recs[..i])|
            && it.seg.End() == start + |Stream(c, recs[..i + 1])|
    decreases i
  {
    var n := |Bytes1(c, recs[0])|;
    PrefixHead(c, recs, i + 1);
    if i == 0 {
      assert recs[..0] == recs[1..][..0] == [];
    } else {
      LayoutAt(c, start + n, recs[1..], i - 1);
      PrefixHead(c, recs, i);
    }
  }

  lemma {:induction false} LayoutRecords<R>(c: Codec<R>, start: nat, recs: seq<R>)
    ensures Records(Layout(c, start, recs)) == recs
  {
    forall i | 0 <= i < |recs| ensures Records(Layout(c, start, recs))[i] == recs[i] {
      LayoutAt(c, start, recs, i);
    }
  }

  /** One encoded record is parsed back in place. */
  lemma ParseOne<R(!new)>(c: Codec<R>, b: seq<Byte>, pos: nat, r: R, tail: seq<Byte>)
    requires Lawful(c) && Encodable(c, r)
    requires pos <= |b| && b[pos..] == Bytes1(c, r) + tail
    ensures pos + |Bytes1(c, r)| <= |b|
    ensures Parse(c, b, pos) ==
            Then([Item(Segment(pos, |Bytes1(c, r)|), r)], Parse(c, b, pos + |Bytes1(c, r)|))
  {
    assert |b| - pos == |Bytes1(c, r)| + |tail|;
    assert SizeIsHonest(c, r);
    assert RoundTrips(c, r, tail);
  }

  lemma SplitAt(b: seq<Byte>, pos: nat, first: seq<Byte>, mid: seq<Byte>, rest: seq<Byte>)
    requires pos <= |b| && b[pos..] == first + mid + rest
    ensures pos + |first| + |mid| + |rest| == |b|
    ensures b[pos..] == first + (mid + rest)
    ensures b[pos + |first|..] == mid + rest
  {
    assert |b| - pos == |first| + |mid| + |rest|;
    assert b[pos + |first|..] == b[pos..][|first|..];
  }

  /** Encoded records are parsed back in place, whatever stands before and after them. */
  lemma {:induction false} ParseRecords<R(!new)>(c: Codec<R>, b: seq<Byte>, pos: nat, recs: seq<R>, rest: seq<Byte>)
    requires Lawful(c) && Bounded(c) && AllEncodable(c, recs)
    requires pos <= |b| && b[pos..] == Stream(c, recs) + rest
    ensures pos + |Stream(c, recs)| <= |b|
    ensures Parse(c, b, pos) == Then(Layout(c, pos, recs), Parse(c, b, pos + |Stream(c, recs)|))
    decreases |recs|
  {
    hide Parse, Then, Lawful, Bytes1, Stream;
    StreamEmpty(c);
    if recs == [] {
      SplitAt(b, pos, [], [], rest);
      ThenNothing(Parse(c, b, pos));
    } else {
      var enc, more := Bytes1(c, recs[0]), Stream(c, recs[1..]);
      StreamHead(c, recs);
      SplitAt(b, pos, enc, more, rest);
      ParseOne(c, b, pos, recs[0], more + rest);
      ParseRecords(c, b, pos + |enc|, recs[1..], rest);
      ThenTwice([Item(Segment(pos, |enc|), recs[0])], Layout(c, pos + |enc|, recs[1..]),
                Parse(c, b, pos + |Stream(c, recs)|));
    }
  }

  /**
   What a power cut or a crash can leave after the last whole record: nothing,
   part of the next record, or zeros that stand in for unwritten blocks.
   */
  ghost predicate CrashTail<R>(c: Codec<R>, recs: seq<R>, m: nat, rest: seq<Byte>) {
    || rest == []
    || AllZero(rest)
    || (m < |recs| && rest < Bytes1(c, recs[m]))
  }

  /** A file that holds the first `m` of `recs` and then a crash tail. */
  ghost predicate HoldsPrefix<R>(c: Codec<R>, recs: seq<R>, m: nat, b: seq<Byte>) {
    && m <= |recs|
    && Stream(c, recs[..m]) <= b
    && CrashTail(c, recs, m, b[|Stream(c, recs[..m])|..])
  }

  lemma TailDoesNotParse<R(!new)>(c: Codec<R>, recs: seq<R>, m: nat, rest: seq<Byte>)
    requires Lawful(c) && AllEncodable(c, recs) && CrashTail(c, recs, m, rest)
    ensures !c.decode(rest).Decoded? || rest == []
    ensures c.decode(rest).Malformed? ==> rest == [] || AllZero(rest)
  {
    assert RejectsZeros(c, rest);
    if rest != [] && !AllZero(rest) {
      assert Encodable(c, recs[m]);
      assert PrefixIsShort(c, recs[m], |rest|);
      assert rest == c.encode(recs[m]).bytes[..|rest|];
    }
  }

  /**
   The parse of a file that holds a prefix of a log: exactly the whole
   records, at the prefix sums, and a clean end exactly when nothing follows.
   */
  lemma ParseHoldsPrefix<R(!new)>(c: Codec<R>, recs: seq<R>, m: nat, b: seq<Byte>)
    requires Lawful(c) && AllEncodable(c, recs) && HoldsPrefix(c, recs, m, b)
    ensures Parse(c, b, 0).items == Layout(c, 0, recs[..m])
    ensures Parse(c, b, 0).tail == Clean <==> b == Stream(c, recs[..m])
    ensures Parse(c, b, 0).tail == Damaged ==> AllZero(b[|Stream(c, recs[..m])|..])
  {
    var body := Stream(c, recs[..m]);
    var rest := b[|body|..];
    assert b[0..] == body + rest;
    ParseRecords(c, b, 0, recs[..m], rest);
    TailDoesNotParse(c, recs, m, rest);
  }

  /** Parsing undoes appending. */
  lemma ParseUndoesAppend<R(!new)>(c: Codec<R>, recs: seq<R>)
    requires Lawful(c) && AllEncodable(c, recs)
    ensures Parse(c, Stream(c, recs), 0) == Parsed(Layout(c, 0, recs), Clean)
  {
    assert recs[..|recs|] == recs;
    ParseHoldsPrefix(c, recs, |recs|, Stream(c, recs));
  }

  lemma StrictPrefix(s: seq<Byte>, a: seq<Byte>, b: seq<Byte>, cut: nat)
    requires a + b <= s && |a| <= cut < |a| + |b|
    ensures s[|a|..cut] < b
  {
    assert s[..|a| + |b|] == a + b;
    assert s[|a|..cut] == (a + b)[|a|..cut] == b[..cut - |a|];
  }

  /** The part of a cut that follows its last whole record. */
  lemma CutTail<R(!new)>(c: Codec<R>, recs: seq<R>, cut: nat, m: nat) returns (rest: seq<Byte>)
    requires Lawful(c) && AllEncodable(c, recs) && cut <= |Stream(c, recs)|
    requires m <= |recs| && |Stream(c, recs[..m])| <= cut
    requires m < |recs| ==> cut < |Stream(c, recs[..m + 1])|
    ensures Stream(c, recs)[..cut] == Stream(c, recs[..m]) + rest
    ensures rest == [] || (m < |recs| && rest < Bytes1(c, recs[m]))
  {
    hide Stream, Lawful, AllEncodable;
    StreamPrefix(c, recs, m);
    rest := Stream(c, recs)[|Stream(c, recs[..m])|..cut];
    if m < |recs| {
      StreamPrefix(c, recs, m + 1);
      StrictPrefix(Stream(c, recs), Stream(c, recs[..m]), Bytes1(c, recs[m]), cut);
    } else {
      assert recs[..m] == recs;
    }
  }

  lemma CountBelow<R(!new)>(c: Codec<R>, recs: seq<R>, cut: nat, m: nat, k: nat)
    requires Lawful(c) && AllEncodable(c, recs)
    requires m <= |recs| && |Stream(c, recs[..m])| <= cut
    requires m < |recs| ==> cut < |Stream(c, recs[..m + 1])|
    requires k <= |recs|
    ensures k <= m <==> |Stream(c, recs[..k])| <= cut
  {
    if k <= m {
      StreamGrows(c, recs, k, m);
    } else {
      StreamGrows(c, recs, m + 1, k);
    }
  }

  /** Part of a record after whole records reads as running out of bytes. */
  lemma TornTail<R(!new)>(c: Codec<R>, b: seq<Byte>, recs: seq<R>, r: R, rest: seq<Byte>)
    requires Lawful(c) && Bounded(c) && AllEncodable(c, recs) && Encodable(c, r)
    requires b == Stream(c, recs) + rest && rest != [] && rest < Bytes1(c, r)
    ensures Parse(c, b, 0).tail == Torn
  {
    hide Stream;
    assert b[0..] == b;
    ParseRecords(c, b, 0, recs, rest);
    assert PrefixIsShort(c, r, |rest|);
    assert b[|Stream(c, recs)|..] == rest == Bytes1(c, r)[..|rest|];
  }

  /**
   For any cut of a log's bytes, the parse yields exactly the records that
   the cut contains whole, and then runs out of bytes unless the cut is on a
   record boundary.
   */
  lemma ParseCut<R(!new)>(c: Codec<R>, recs: seq<R>, cut: nat) returns (m: nat)
    requires Lawful(c) && AllEncodable(c, recs) && cut <= |Stream(c, recs)|
    ensures m <= |recs| && HoldsPrefix(c, recs, m, Stream(c, recs)[..cut])
    ensures forall k | 0 <= k <= |recs| :: k <= m <==> |Stream(c, recs[..k])| <= cut
    ensures Parse(c, Stream(c, recs)[..cut], 0) ==
            Parsed(Layout(c, 0, recs[..m]), if cut == |Stream(c, recs[..m])| then Clean else Torn)
  {
    hide Parse, Stream;
    m := BoundaryBelow(c, recs, cut);
    var rest := CutTail(c, recs, cut, m);
    var b := Stream(c, recs)[..cut];
    assert b[|Stream(c, recs[..m])|..] == rest;
    ParseHoldsPrefix(c, recs, m, b);
    if rest != [] {
      EncodedNotEmpty(c, recs, m);
      TornTail(c, b, recs[..m], recs[m], rest);
    }
    forall k | 0 <= k <= |recs| ensures k <= m <==> |Stream(c, recs[..k])| <= cut {
      CountBelow(c, recs, cut, m, k);
    }
  }

  /** A reader that counts the bytes taken from a file. */
  class OffsetReader {
    const inner: seq<Byte>
    var offset: nat

    constructor (inner: seq<Byte>)
      ensures this.inner == inner && offset == 0
    {
      this.inner := inner;
      offset := 0;
    }

    ghost predicate Valid()
      reads this
    {
      offset <= |inner|
    }

    /** One `read` call: at most `max` bytes, fewer at the end of the file. */
    method Read(max: nat) returns (got: seq<Byte>)
      requires Valid()
      modifies this
      ensures Valid() && offset == old(offset) + |got|
      ensures got == inner[old(offset)..offset]
      ensures |got| == if old(offset) + max <= |inner| then max else |inner| - old(offset)
    {
      var n := if offset + max <= |inner| then max else |inner| - offset;
      got := inner[offset..offset + n];
      offset := offset + n;
    }
  }

  datatype Fetched<+R> = Done | Yield(item: Item<R>) | Broken(tail: Tail)

  /** Walks the records of a file and stops for good at the first error. */
  class RecordIterator<R> {
    const codec: Codec<R>
    const reader: OffsetReader
    const totalSize: nat
    var error: Tail  // `Clean` while no error has been seen

    constructor (codec: Codec<R>, file: seq<Byte>)
      ensures Valid() && fresh(reader) && reader.offset == 0
      ensures this.codec == codec && reader.inner == file && error == Clean
    {
      this.codec := codec;
      reader := new OffsetReader(file);
      totalSize := |file|;
      error := Clean;
    }

    ghost predicate Valid()
      reads this, reader
    {
      reader.Valid() && totalSize == |reader.inner|
    }

    method Next() returns (res: Fetched<R>)
      requires Valid() && Bounded(codec)
      modifies this, reader
      ensures Valid()
      ensures old(error) != Clean ==> res == Done && error == old(error)
      ensures old(error) == Clean ==>
                var before := Parse(codec, reader.inner, old(reader.offset));
                match res
                case Done => before == Parsed([], Clean) && error == Clean
                case Broken(t) => t != Clean && before == Parsed([], t) && error == t
                case Yield(it) =>
                  && error == Clean && it.seg.End() == reader.offset > old(reader.offset)
                  && before.items == [it] + Parse(codec, reader.inner, reader.offset).items
                  && before.tail == Parse(codec, reader.inner, reader.offset).tail
    {
      if error != Clean {
        return Done;
      }
      var start := reader.offset;
      if start == totalSize {
        return Done;
      }
      assert StaysInside(codec, reader.inner[start..]);
      match codec.decode(reader.inner[start..])
      case Decoded(r, n) =>
        var taken := reader.Read(n);
        return Yield(Item(Segment(start, reader.offset - start), r));
      case ShortRead =>
        var taken := reader.Read(|reader.inner|);
        error := Torn;
        return Broken(Torn);
      case Malformed =>
        error := Damaged;
        return Broken(Damaged);
    }
  }
}
