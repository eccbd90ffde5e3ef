/** Byte strings and the big-endian integers that the record format is made of. */
module Bytes {

  type Byte = b: int | 0 <= b < 256

  predicate AllZero(s: seq<Byte>) {
    forall i | 0 <= i < |s| :: s[i] == 0
  }

  /** Number of values that `width` bytes can hold. */
  function Capacity(width: nat): nat {
    if width == 0 then 1 else 256 * Capacity(width - 1)
  }

  /** The low `width` bytes of `n`, most significant first. */
  function ToBigEndian(n: nat, width: nat): (s: seq<Byte>)
    ensures |s| == width
  {
    if width == 0 then [] else ToBigEndian(n / 256, width - 1) + [n % 256]
  }

  function FromBigEndian(s: seq<Byte>): nat {
    if s == [] then 0 else FromBigEndian(s[..|s| - 1]) * 256 + s[|s| - 1]
  }

  lemma {:induction false} BigEndianRoundTrip(n: nat, width: nat)
    requires n < Capacity(width)
    ensures FromBigEndian(ToBigEndian(n, width)) == n
  {
    if width > 0 {
      var s := ToBigEndian(n, width);
      BigEndianRoundTrip(n / 256, width - 1);
      assert s[..|s| - 1] == ToBigEndian(n / 256, width - 1);
    }
  }

  /** Conversely, bytes are those of the number they stand for. */
  lemma {:induction false} BytesRoundTrip(s: seq<Byte>)
    ensures ToBigEndian(FromBigEndian(s), |s|) == s
  {
    if s != [] {
      BytesRoundTrip(s[..|s| - 1]);
      var high, low := FromBigEndian(s[..|s| - 1]), s[|s| - 1];
      assert (high * 256 + low) / 256 == high && (high * 256 + low) % 256 == low;
    }
  }

  /** The most significant byte comes first: byte `i` stands for multiples of the capacity of those after it. */
  lemma {:induction false} DigitAt(n: nat, width: nat, i: nat) returns (high: nat, low: nat)
    requires i < width
    ensures low < Capacity(width - 1 - i)
    ensures n == (high * 256 + ToBigEndian(n, width)[i]) * Capacity(width - 1 - i) + low
    decreases width
  {
    if i == width - 1 {
      high, low := n / 256, 0;
    } else {
      high, low := DigitAt(n / 256, width - 1, i);
      var x, c := high * 256 + ToBigEndian(n / 256, width - 1)[i], Capacity(width - 2 - i);
      OneMoreDigit(n, x, c, low);
      low := 256 * low + n % 256;
    }
  }

  lemma OneMoreDigit(n: nat, x: nat, c: nat, low: nat)
    requires n / 256 == x * c + low && low < c
    ensures n == x * (256 * c) + (256 * low + n % 256) && 256 * low + n % 256 < 256 * c
  {
    Scaled(x, c);
    assert n == 256 * (n / 256) + n % 256;
  }

  lemma Scaled(x: nat, c: nat)
    ensures 256 * (x * c) == x * (256 * c)
  {
  }

  lemma {:induction false} ZerosAreZero(s: seq<Byte>)
    requires AllZero(s)
    ensures FromBigEndian(s) == 0
  {
    if s != [] {
      ZerosAreZero(s[..|s| - 1]);
    }
  }

  lemma {:induction false} FitsCapacity(s: seq<Byte>)
    ensures FromBigEndian(s) < Capacity(|s|)
  {
    if s != [] {
      FitsCapacity(s[..|s| - 1]);
    }
  }
}
