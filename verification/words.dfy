/** Fixed-width unsigned words, their little-endian byte encodings, and byte buffers. */
module Words {
  const TWO32: int := 0x1_0000_0000

  type Byte = x: int | 0 <= x < 0x100
  type U16 = x: int | 0 <= x < 0x1_0000
  type U32 = x: int | 0 <= x < 0x1_0000_0000

  /** Wrapping addition: one turn is dropped when the sum does not fit. */
  function WrapAdd(a: U32, b: U32): U32 {
    var sum: int := a as int + b as int;
    if sum >= TWO32 then sum - TWO32 else sum
  }

  function WrapSub(a: U32, b: U32): U32 {
    var difference: int := a as int - b as int;
    if difference < 0 then difference + TWO32 else difference
  }

  function WrapMul(a: int, b: int): U32 { (a * b) % TWO32 }

  function Le16(x: U16): (s: seq<Byte>)
    ensures |s| == 2
  {
    [x % 0x100, x / 0x100]
  }

  function FromLe16(s: seq<Byte>): U16
    requires |s| == 2
  {
    var low: int := s[0];
    var high: int := s[1];
    low + 0x100 * high
  }

  function Le32(x: U32): (s: seq<Byte>)
    ensures |s| == 4
  {
    Le16(x % 0x1_0000) + Le16(x / 0x1_0000)
  }

  function FromLe32(s: seq<Byte>): U32
    requires |s| == 4
  {
    var low: int := FromLe16(s[..2]);
    var high: int := FromLe16(s[2..]);
    low + 0x1_0000 * high
  }

  lemma Le16RoundTrip(x: U16)
    ensures FromLe16(Le16(x)) == x
  {}

  lemma FromLe16RoundTrip(s: seq<Byte>)
    requires |s| == 2
    ensures Le16(FromLe16(s)) == s
  {}

  lemma Le32RoundTrip(x: U32)
    ensures FromLe32(Le32(x)) == x
  {
    var s := Le32(x);
    assert s[..2] == Le16(x % 0x1_0000) && s[2..] == Le16(x / 0x1_0000);
  }

  lemma FromLe32RoundTrip(s: seq<Byte>)
    requires |s| == 4
    ensures Le32(FromLe32(s)) == s
  {
    var low, high := s[..2], s[2..];
    UniqueRemainder(FromLe32(s), FromLe16(high), FromLe16(low), 0x1_0000);
    FromLe16RoundTrip(low);
    FromLe16RoundTrip(high);
    assert s == low + high;
  }

  /** Quotient and remainder are determined by the division equation. */
  lemma UniqueRemainder(x: int, q: int, r: int, m: int)
    requires m > 0 && x == q * m + r && 0 <= r < m
    ensures x / m == q && x % m == r
  {
    var d := x / m - q;
    assert d * m == r - x % m;
    assert -m < d * m < m;
    assert d < 1 by { if d >= 1 { MulAtLeast(d, m); } }
    assert d > -1 by { if d <= -1 { MulAtLeast(-d, m); } }
  }

  lemma MulAtLeast(d: int, m: int)
    requires d >= 1 && m > 0
    ensures d * m >= m
  {}

  /** A sum with a multiple of the modulus leaves the remainder alone. */
  lemma ModPlusMultiple(x: int, q: int, m: int)
    requires m > 0
    ensures (x + q * m) % m == x % m
  {
    assert x + q * m == (x / m + q) * m + x % m;
    UniqueRemainder(x + q * m, x / m + q, x % m, m);
  }

  lemma ModMul(k: int, x: int, m: int)
    requires m > 0
    ensures (k * (x % m)) % m == (k * x) % m
  {
    var q := x / m;
    assert k * (x % m) == k * x + (-(k * q)) * m;
    ModPlusMultiple(k * x, -(k * q), m);
  }

  lemma SumOfRemainders(x: int, y: int, m: int)
    requires m > 0
    ensures (x % m + y % m) % m == (x + y) % m
  {
    var q, r := x / m, y / m;
    assert x % m == x - q * m && y % m == y - r * m;
    assert -(q * m) - r * m == (-q - r) * m;
    ModPlusMultiple(x + y, -q - r, m);
  }

  lemma WrapAddIsMod(a: U32, b: U32)
    ensures WrapAdd(a, b) == (a as int + b as int) % TWO32
  {}

  /** Wrapping multiplication distributes over wrapping addition. */
  lemma MulOverAdd(k: U32, a: U32, b: U32)
    ensures WrapAdd(WrapMul(k, a), WrapMul(k, b)) == WrapMul(k, WrapAdd(a, b))
  {
    SumOfRemainders(k * a, k * b, TWO32);
    ModMul(k, a as int + b as int, TWO32);
    WrapAddIsMod(a, b);
    WrapAddIsMod(WrapMul(k, a), WrapMul(k, b));
    assert k * a + k * b == k * (a as int + b as int);
  }

  /** Multiplication as repeated addition, so that proofs about it stay linear. */
  function Times(a: nat, b: nat): nat { if a == 0 then 0 else Times(a - 1, b) + b }

  lemma {:induction false} TimesIsProduct(a: nat, b: nat)
    ensures Times(a, b) == a * b
  {
    if a > 0 {
      TimesIsProduct(a - 1, b);
      assert a * b == (a - 1) * b + b;
    }
  }

  lemma {:induction false} TimesSum(a: nat, c: nat, b: nat)
    ensures Times(a + c, b) == Times(a, b) + Times(c, b)
  {
    if a > 0 {
      TimesSum(a - 1, c, b);
      assert a + c - 1 == a - 1 + c;
    }
  }

  lemma TimesMonotone(a: nat, c: nat, b: nat)
    requires a <= c
    ensures Times(a, b) <= Times(c, b)
  {
    TimesSum(a, c - a, b);
  }

  /** Bytes with those from `at` on replaced. */
  function Replaced(data: seq<Byte>, at: nat, bytes: seq<Byte>): (r: seq<Byte>)
    requires at + |bytes| <= |data|
    ensures |r| == |data|
  {
    data[..at] + bytes + data[at + |bytes|..]
  }

  method Put(buffer: array<Byte>, at: nat, bytes: seq<Byte>)
    requires at + |bytes| <= buffer.Length
    modifies buffer
    ensures buffer[..] == Replaced(old(buffer[..]), at, bytes)
  {
    forall i | 0 <= i < |bytes| {
      buffer[at + i] := bytes[i];
    }
  }
}
