/** Chunk file names: a padded, grouped number that sorts like the id and parses back to it. */
module FileNames {

  const U64_LIMIT: nat := 0x1_0000_0000_0000_0000

  // Decimal numbers

  function DigitChar(d: nat): (c: char)
    requires d < 10
    ensures '0' <= c <= '9'
  {
    '0' + d as char
  }

  predicate IsDigit(c: char) {
    '0' <= c <= '9'
  }

  predicate AllDigits(s: string) {
    forall i | 0 <= i < |s| :: IsDigit(s[i])
  }

  /** Decimal digits of `n`, without padding. */
  function Decimal(n: nat): string {
    if n < 10 then [DigitChar(n)] else Decimal(n / 10) + [DigitChar(n % 10)]
  }

  function Repeat(c: char, n: int): string {
    if n <= 0 then [] else Repeat(c, n - 1) + [c]
  }

  /** At least `width` digits, padded with zeros. */
  function Padded(n: nat, width: nat): string {
    Repeat('0', width - |Decimal(n)|) + Decimal(n)
  }

  /** The number a digit string stands for. */
  function Value(s: string): nat
    requires AllDigits(s)
  {
    if s == [] then 0 else Value(s[..|s| - 1]) * 10 + (s[|s| - 1] - '0') as nat
  }

  /** The last `width` digits of `n`. */
  function Digits(n: nat, width: nat): (s: string)
    ensures |s| == width && AllDigits(s)
  {
    if width == 0 then [] else Digits(n / 10, width - 1) + [DigitChar(n % 10)]
  }

  function Power10(k: nat): nat {
    if k == 0 then 1 else 10 * Power10(k - 1)
  }

  lemma {:induction false} PadGrows(n: int, s: string, c: char)
    ensures Repeat('0', n) + (s + [c]) == (Repeat('0', n) + s) + [c]
  {
  }

  lemma {:induction false} ZeroDigits(width: nat)
    ensures Digits(0, width) == Repeat('0', width)
  {
    if width > 0 {
      ZeroDigits(width - 1);
    }
  }

  /** Padding a number that fits gives exactly `width` digits. */
  lemma {:induction false} PaddedIsDigits(n: nat, width: nat)
    requires n < Power10(width) && width > 0
    ensures |Decimal(n)| <= width && Padded(n, width) == Digits(n, width)
    decreases width
  {
    if n < 10 {
      ZeroDigits(width - 1);
    } else {
      assert n / 10 < Power10(width - 1);
      PaddedIsDigits(n / 10, width - 1);
      PadGrows(width - |Decimal(n)|, Decimal(n / 10), DigitChar(n % 10));
    }
  }

  lemma {:induction false} ValueOfDigits(n: nat, width: nat)
    requires n < Power10(width)
    ensures Value(Digits(n, width)) == n
  {
    if width > 0 {
      ValueOfDigits(n / 10, width - 1);
      var s := Digits(n, width);
      assert s[..width - 1] == Digits(n / 10, width - 1);
    }
  }

  lemma SixtyFourBits()
    ensures U64_LIMIT < Power10(20)
  {
    assert Power10(5) == 100_000;
    assert Power10(10) == 10_000_000_000;
    assert Power10(15) == 1_000_000_000_000_000;
  }

  // Grouping

  /** The separator before the character at `i` of a string of length `len`. */
  function Separator(len: nat, i: nat): string {
    if i > 0 && (len - i) % 3 == 0 then "_" else ""
  }

  /** The first `k` characters with a separator before each group of three, counted from the end. */
  function GroupedUpto(s: string, k: nat): string
    requires k <= |s|
  {
    if k == 0 then "" else GroupedUpto(s, k - 1) + Separator(|s|, k - 1) + [s[k - 1]]
  }

  function Grouped(s: string): string {
    GroupedUpto(s, |s|)
  }

  /** In a number, and only there: every fourth character from the end is a separator. */
  predicate InThrees(s: string) {
    forall j | 0 <= j < |s| :: s[|s| - 1 - j] == '_' <==> j % 4 == 3
  }

  lemma {:induction false} DecimalDigits(n: nat)
    ensures AllDigits(Decimal(n)) && Decimal(n) != ""
  {
    if n >= 10 {
      DecimalDigits(n / 10);
    }
  }

  lemma {:induction false} ZerosAreDigits(n: int)
    ensures AllDigits(Repeat('0', n))
  {
    if n > 0 {
      ZerosAreDigits(n - 1);
    }
  }

  lemma PaddedDigits(n: nat, width: nat)
    ensures AllDigits(Padded(n, width)) && Padded(n, width) != ""
  {
    DecimalDigits(n);
    ZerosAreDigits(width - |Decimal(n)|);
  }

  /** A separator, if there is one, in a fourth place from the end, and a digit in another. */
  lemma AddPlaces(front: string, sep: string, c: char, total: int)
    requires forall p | 0 <= p < |front| :: front[p] == '_' <==> (total - p) % 4 == 0
    requires sep == "" || (sep == "_" && (total - |front|) % 4 == 0)
    requires c != '_' && (total - |front| - |sep|) % 4 != 0
    ensures var s := front + sep + [c]; forall p | 0 <= p < |s| :: s[p] == '_' <==> (total - p) % 4 == 0
  {
  }

  /** Where the separators are among the first `k` characters, in a string that has `total` characters in the end. */
  lemma {:induction false} GroupedPlaces(s: string, k: nat, total: nat)
    requires 0 < k <= |s| && AllDigits(s) && total == |s| + (|s| - 1) / 3
    ensures |GroupedUpto(s, k)| == k + (|s| - 1) / 3 - (|s| - k) / 3
    ensures forall p | 0 <= p < |GroupedUpto(s, k)| :: GroupedUpto(s, k)[p] == '_' <==> (total - p) % 4 == 0
    decreases k
  {
    var sep, c, d := Separator(|s|, k - 1), s[k - 1], |s| - k;
    assert IsDigit(c);
    LastPlace(d);
    if k == 1 {
      assert GroupedUpto(s, 0) == "" && GroupedUpto(s, 1) == [c];
    } else {
      GroupedPlaces(s, k - 1, total);
      SeparatorPlace(d);
      var front := GroupedUpto(s, k - 1);
      assert total - |front| == d + 1 + (d + 1) / 3;
      hide GroupedUpto;
      AddPlaces(front, sep, c, total);
      GroupedNext(s, k);
    }
  }

  lemma GroupedNext(s: string, k: nat)
    requires 0 < k <= |s|
    ensures GroupedUpto(s, k) == GroupedUpto(s, k - 1) + Separator(|s|, k - 1) + [s[k - 1]]
  {
  }

  /** Counted from the end, a digit with `d` digits after it is not in a fourth place, and a separator before it is. */
  lemma LastPlace(d: nat)
    ensures (d + d / 3 + 1) % 4 != 0
  {
  }

  lemma SeparatorPlace(d: nat)
    ensures (d + 1) % 3 == 0 ==> (d + d / 3 + 2) % 4 == 0 && (d + 1) / 3 == d / 3 + 1
    ensures (d + 1) % 3 != 0 ==> (d + 1) / 3 == d / 3
  {
  }

  lemma GroupsOfThree(s: string)
    requires AllDigits(s) && s != ""
    ensures |Grouped(s)| == |s| + (|s| - 1) / 3 && InThrees(Grouped(s))
  {
    hide GroupedUpto;
    GroupedPlaces(s, |s|, |s| + (|s| - 1) / 3);
  }

  /** The digits of the number, at least `minWidth`, in groups of three counted from the end. */
  method FormatGrouped(n: nat, minWidth: nat) returns (acc: string)
    ensures acc == Grouped(Padded(n, minWidth))
    ensures InThrees(acc) && OnlyDigits(acc) == Padded(n, minWidth)
  {
    var s := Padded(n, minWidth);
    PaddedDigits(n, minWidth);
    GroupsOfThree(s);
    GroupedKeepsDigits(s, |s|);
    assert s[..|s|] == s;
    acc := "";
    for i := 0 to |s|
      invariant acc == GroupedUpto(s, i)
    {
      if i > 0 && (|s| - i) % 3 == 0 {
        acc := acc + "_";
      }
      acc := acc + [s[i]];
    }
  }

  function OnlyDigits(s: string): (r: string)
    ensures AllDigits(r)
  {
    if s == [] then []
    else OnlyDigits(s[..|s| - 1]) + (if IsDigit(s[|s| - 1]) then [s[|s| - 1]] else [])
  }

  function Count(s: string, c: char): nat {
    if s == [] then 0 else Count(s[..|s| - 1], c) + (if s[|s| - 1] == c then 1 else 0)
  }

  lemma {:induction false} OnlyDigitsConcat(a: string, b: string)
    ensures OnlyDigits(a + b) == OnlyDigits(a) + OnlyDigits(b)
    decreases |b|
  {
    if b == [] {
      assert a + b == a;
    } else {
      assert (a + b)[..|a + b| - 1] == a + b[..|b| - 1];
      OnlyDigitsConcat(a, b[..|b| - 1]);
    }
  }

  lemma {:induction false} CountConcat(a: string, b: string, c: char)
    ensures Count(a + b, c) == Count(a, c) + Count(b, c)
    decreases |b|
  {
    if b == [] {
      assert a + b == a;
    } else {
      assert (a + b)[..|a + b| - 1] == a + b[..|b| - 1];
      CountConcat(a, b[..|b| - 1], c);
    }
  }

  lemma OneChar(c: char)
    ensures OnlyDigits([c]) == if IsDigit(c) then [c] else []
    ensures Count([c], '_') == if c == '_' then 1 else 0
  {
    assert [c][..0] == [];
  }

  lemma SeparatorLaws(len: nat, i: nat)
    ensures OnlyDigits(Separator(len, i)) == "" && Count(Separator(len, i), '_') == |Separator(len, i)|
  {
    OneChar('_');
  }

  /** Dropping the separators gives the digits back; there are as many separators as extra characters. */
  lemma {:induction false} GroupedKeepsDigits(s: string, k: nat)
    requires k <= |s| && AllDigits(s)
    ensures OnlyDigits(GroupedUpto(s, k)) == s[..k]
    ensures |GroupedUpto(s, k)| == k + Count(GroupedUpto(s, k), '_')
    decreases k
  {
    hide OnlyDigits, Count, Separator;
    if k == 0 {
      NoChars();
    } else {
      var front, sep, c := GroupedUpto(s, k - 1), Separator(|s|, k - 1), s[k - 1];
      GroupedKeepsDigits(s, k - 1);
      SeparatorLaws(|s|, k - 1);
      OneChar(c);
      OnlyDigitsConcat(front + sep, [c]);
      OnlyDigitsConcat(front, sep);
      CountConcat(front + sep, [c], '_');
      CountConcat(front, sep, '_');
      assert s[..k] == s[..k - 1] + [c];
    }
  }

  lemma NoChars()
    ensures OnlyDigits("") == "" && Count("", '_') == 0
  {
  }

  /** The number of separators among the first `k` characters. */
  function Separators(len: nat, k: nat): nat {
    if k == 0 then 0 else Separators(len, k - 1) + |Separator(len, k - 1)|
  }

  lemma {:induction false} GroupedLength(s: string, k: nat)
    requires k <= |s|
    ensures |GroupedUpto(s, k)| == k + Separators(|s|, k)
    decreases k
  {
    if k > 0 {
      GroupedLength(s, k - 1);
    }
  }

  lemma TwentyDigits()
    ensures Separators(20, 20) == 6
  {
    assert Separators(20, 5) == 1;
    assert Separators(20, 10) == 3;
    assert Separators(20, 15) == 5;
  }

  // File names

  const PREFIX := "r-"
  const SUFFIX := ".wal"

  function ChunkFileName(id: nat): string {
    PREFIX + Grouped(Padded(id, 20)) + SUFFIX
  }

  datatype ParseResult = Parsed(id: nat) | Invalid

  /** The length of a character in bytes. */
  function Utf8Length(c: char): nat {
    if c as int < 0x80 then 1 else if c as int < 0x800 then 2 else if c as int < 0x10000 then 3 else 4
  }

  function ByteLength(s: string): nat {
    if s == [] then 0 else ByteLength(s[..|s| - 1]) + Utf8Length(s[|s| - 1])
  }

  function ParseU64(digits: string): ParseResult
    requires AllDigits(digits)
  {
    if digits == [] || Value(digits) >= U64_LIMIT then Invalid else Parsed(Value(digits))
  }

  function ParseChunkFileName(name: string): ParseResult {
    if |name| < 4 || name[|name| - 4..] != SUFFIX then Invalid
    else
      var rest := name[..|name| - 4];
      if |rest| < 2 || rest[..2] != PREFIX || ByteLength(rest[2..]) != 26 then Invalid
      else ParseU64(OnlyDigits(rest[2..]))
  }

  predicate Ascii(s: string) {
    forall i | 0 <= i < |s| :: s[i] as int < 0x80
  }

  lemma {:induction false} AsciiLength(s: string)
    requires Ascii(s)
    ensures ByteLength(s) == |s|
  {
    if s != [] {
      AsciiLength(s[..|s| - 1]);
    }
  }

  /** The length is in bytes: it is the number of characters exactly when all of them are ASCII. */
  lemma {:induction false} LengthInBytes(s: string)
    ensures |s| <= ByteLength(s) && (ByteLength(s) == |s| <==> Ascii(s))
  {
    if s != [] {
      var front := s[..|s| - 1];
      LengthInBytes(front);
      assert s == front + [s[|s| - 1]];
      assert Ascii(s) <==> Ascii(front) && s[|s| - 1] as int < 0x80;
    }
  }

  lemma {:induction false} GroupedIsAscii(s: string, k: nat)
    requires k <= |s| && AllDigits(s)
    ensures Ascii(GroupedUpto(s, k))
    decreases k
  {
    if k > 0 {
      GroupedIsAscii(s, k - 1);
      assert IsDigit(s[k - 1]);
    }
  }

  /** The middle of a file name: 20 digits, 6 separators, and the digits are those of the id. */
  lemma NameShape(id: nat)
    requires id < U64_LIMIT
    ensures var mid := Grouped(Padded(id, 20));
            && |mid| == 26 && Ascii(mid) && Count(mid, '_') == 6
            && OnlyDigits(mid) == Digits(id, 20) && |Padded(id, 20)| == 20
            && ChunkFileName(id) == "r-" + mid + ".wal"
            && forall j | 0 <= j < 26 :: mid[25 - j] == '_' <==> j % 4 == 3
  {
    hide OnlyDigits, Count, Separator, Separators, GroupedUpto, Digits, Padded;
    SixtyFourBits();
    PaddedIsDigits(id, 20);
    var s := Digits(id, 20);
    GroupedKeepsDigits(s, 20);
    GroupedLength(s, 20);
    TwentyDigits();
    GroupedIsAscii(s, 20);
    GroupsOfThree(s);
    assert s[..20] == s;
  }

  /** Every id is read back from its file name. */
  lemma NameRoundTrip(id: nat)
    requires id < U64_LIMIT
    ensures ParseChunkFileName(ChunkFileName(id)) == Parsed(id)
    ensures |ChunkFileName(id)| == 32
  {
    hide OnlyDigits, Count, ByteLength, GroupedUpto, Digits, Padded, Value;
    var mid := Grouped(Padded(id, 20));
    NameShape(id);
    AsciiLength(mid);
    SixtyFourBits();
    ValueOfDigits(id, 20);
    var name := ChunkFileName(id);
    assert name[..|name| - 4] == PREFIX + mid && name[|name| - 4..] == SUFFIX;
    assert (PREFIX + mid)[2..] == mid && (PREFIX + mid)[..2] == PREFIX;
  }

  /**
   The names that are read as an id: the parts around a middle of 26 bytes
   whose digits, wherever they stand, are a 64-bit number.
   */
  lemma AcceptedNames(name: string, mid: string)
    ensures name == "r-" + mid + ".wal" ==>
              ParseChunkFileName(name) ==
              if ByteLength(mid) == 26 && OnlyDigits(mid) != "" && Value(OnlyDigits(mid)) < U64_LIMIT
              then Parsed(Value(OnlyDigits(mid))) else Invalid
    ensures ParseChunkFileName(name).Parsed? ==> |name| >= 6 && name == "r-" + name[2..|name| - 4] + ".wal"
  {
    hide ByteLength, OnlyDigits, Value;
    if name == "r-" + mid + ".wal" {
      assert name[..|name| - 4] == "r-" + mid && name[|name| - 4..] == ".wal";
      assert ("r-" + mid)[..2] == "r-" && ("r-" + mid)[2..] == mid;
    }
    if ParseChunkFileName(name).Parsed? {
      var rest := name[..|name| - 4];
      assert name == rest + name[|name| - 4..] && rest == rest[..2] + rest[2..];
      assert rest[2..] == name[2..|name| - 4];
    }
  }

  /** So the name of a chunk is not the only one that is read as its id. */
  lemma OtherNames(id: nat) returns (name: string)
    requires id < U64_LIMIT
    ensures name != ChunkFileName(id) && ParseChunkFileName(name) == Parsed(id)
  {
    hide OnlyDigits, ByteLength, GroupedUpto, Digits, Padded, Value, Count, ParseChunkFileName;
    var digits, seps := Digits(id, 20), "______";
    var mid := digits + seps;
    name := "r-" + mid + ".wal";
    AsciiLength(mid);
    OnlyDigitsConcat(digits, seps);
    AreDigits(digits);
    NoDigits();
    assert OnlyDigits(mid) == digits + "" == digits;
    SixtyFourBits();
    ValueOfDigits(id, 20);
    AcceptedNames(name, mid);
    NameShape(id);
    EndsInDigit(Grouped(Padded(id, 20)));
    assert name[27] == mid[25] == '_' && ChunkFileName(id)[27] == Grouped(Padded(id, 20))[25];
  }

  lemma EndsInDigit(mid: string)
    requires |mid| == 26 && forall j | 0 <= j < 26 :: mid[25 - j] == '_' <==> j % 4 == 3
    ensures mid[25] != '_'
  {
    var j := 0;
    assert mid[25 - j] == '_' <==> j % 4 == 3;
  }

  lemma {:induction false} AreDigits(s: string)
    requires AllDigits(s)
    ensures OnlyDigits(s) == s
  {
    if s != "" {
      AreDigits(s[..|s| - 1]);
      assert IsDigit(s[|s| - 1]);
    }
  }

  lemma NoDigits()
    ensures OnlyDigits("______") == ""
  {
    assert "______"[..5] == "_____";
    assert "_____"[..4] == "____";
    assert "____"[..3] == "___";
    assert "___"[..2] == "__";
    assert "__"[..1] == "_";
    assert "_"[..0] == "";
  }

  // Order

  /** The order in which a directory listing sorts names. */
  predicate LexLess(s: string, t: string) {
    t != [] && (s == [] || s[0] < t[0] || (s[0] == t[0] && LexLess(s[1..], t[1..])))
  }

  lemma {:induction false} LexConcat(s: string, t: string, x: string, y: string)
    requires |s| == |t|
    ensures LexLess(s + x, t + y) <==> LexLess(s, t) || (s == t && LexLess(x, y))
    decreases |s|
  {
    if s == [] {
      assert s + x == x && t + y == y;
    } else {
      LexConcat(s[1..], t[1..], x, y);
      assert (s + x)[1..] == s[1..] + x && (t + y)[1..] == t[1..] + y;
      assert s == [s[0]] + s[1..] && t == [t[0]] + t[1..];
    }
  }

  lemma {:induction false} LexIrreflexive(s: string)
    ensures !LexLess(s, s)
  {
    if s != [] {
      LexIrreflexive(s[1..]);
    }
  }

  lemma LexOne(c: char, d: char)
    ensures LexLess([c], [d]) <==> c < d
  {
  }

  /** Digit strings of one width sort like their numbers. */
  lemma {:induction false} DigitsSort(a: nat, b: nat, width: nat)
    requires a < Power10(width) && b < Power10(width)
    ensures LexLess(Digits(a, width), Digits(b, width)) <==> a < b
    ensures Digits(a, width) == Digits(b, width) <==> a == b
  {
    hide LexLess;
    ValueOfDigits(a, width);
    ValueOfDigits(b, width);
    if width == 0 {
      LexIrreflexive("");
    } else {
      DigitsSort(a / 10, b / 10, width - 1);
      LexConcat(Digits(a / 10, width - 1), Digits(b / 10, width - 1), [DigitChar(a % 10)], [DigitChar(b % 10)]);
      LexOne(DigitChar(a % 10), DigitChar(b % 10));
    }
  }

  lemma LexAfterSame(sep: string, c: char, d: char)
    ensures LexLess(sep + [c], sep + [d]) <==> c < d
  {
    LexConcat(sep, sep, [c], [d]);
    LexIrreflexive(sep);
    LexOne(c, d);
  }

  /** Grouping does not change the order of strings of one length. */
  lemma {:induction false} GroupedSort(s: string, t: string, k: nat)
    requires |s| == |t| && k <= |s|
    ensures |GroupedUpto(s, k)| == |GroupedUpto(t, k)|
    ensures GroupedUpto(s, k) == GroupedUpto(t, k) <==> s[..k] == t[..k]
    ensures LexLess(GroupedUpto(s, k), GroupedUpto(t, k)) <==> LexLess(s[..k], t[..k])
    decreases k
  {
    hide LexLess, Separator;
    if k > 0 {
      GroupedSort(s, t, k - 1);
      var sep, c, d := Separator(|s|, k - 1), s[k - 1], t[k - 1];
      var gs, gt := GroupedUpto(s, k - 1), GroupedUpto(t, k - 1);
      LexAfterSame(sep, c, d);
      LexConcat(gs, gt, sep + [c], sep + [d]);
      assert gs + (sep + [c]) == gs + sep + [c] && gt + (sep + [d]) == gt + sep + [d];
      assert s[..k] == s[..k - 1] + [c] && t[..k] == t[..k - 1] + [d];
      LexConcat(s[..k - 1], t[..k - 1], [c], [d]);
      LexOne(c, d);
      SameEnds(gs, gt, sep, c, d);
    }
  }

  lemma SameEnds(a: string, b: string, sep: string, c: char, d: char)
    requires |a| == |b|
    ensures a + sep + [c] == b + sep + [d] <==> a == b && c == d
  {
    var x, y := a + sep + [c], b + sep + [d];
    if x == y {
      assert a == x[..|a|] && b == y[..|a|];
      assert c == x[|x| - 1] && d == y[|y| - 1];
    }
  }

  /** File names sort in the order of their ids. */
  lemma NamesSort(a: nat, b: nat)
    requires a < U64_LIMIT && b < U64_LIMIT
    ensures LexLess(ChunkFileName(a), ChunkFileName(b)) <==> a < b
  {
    hide LexLess, GroupedUpto, Padded, Digits;
    SixtyFourBits();
    PaddedIsDigits(a, 20);
    PaddedIsDigits(b, 20);
    DigitsSort(a, b, 20);
    var s, t := Digits(a, 20), Digits(b, 20);
    GroupedSort(s, t, 20);
    assert s[..20] == s && t[..20] == t;
    var gs, gt := Grouped(s), Grouped(t);
    LexIrreflexive(PREFIX);
    LexIrreflexive(SUFFIX);
    LexConcat(gs, gt, SUFFIX, SUFFIX);
    LexConcat(PREFIX, PREFIX, gs + SUFFIX, gt + SUFFIX);
    assert PREFIX + (gs + SUFFIX) == ChunkFileName(a) && PREFIX + (gt + SUFFIX) == ChunkFileName(b);
  }
}
