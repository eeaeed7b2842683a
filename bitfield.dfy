/**
 The bit-field packer of the HAL header: insert the low c bits of b into a at
 bit position d, by OR. A 32-bit unsigned word is modelled as its 32 bits,
 least significant first; the C shifts (by less than the width), OR and AND
 act on it position by position. Field widths are 1..32 and positions 0..31,
 where every shift the packer performs is defined in C.
 */
module BitField {
  import opened Layout

  const WIDTH: nat := 32

  /** An unsigned 32-bit word: bit i is the coefficient of 2^i. */
  type Word32 = s: seq<bool> | |s| == WIDTH witness seq(WIDTH, _ => false)

  function Zeros(n: nat): seq<bool>
  {
    seq(n, _ => false)
  }

  /** x << s for s < 32: bits move up by s, zeros come in at the bottom, the top s bits fall off. */
  function Shl(x: Word32, s: nat): (r: Word32)
    requires s < WIDTH
    ensures forall i :: 0 <= i < WIDTH ==> r[i] == (s <= i && x[i - s])
  {
    Zeros(s) + x[..WIDTH - s]
  }

  /** x >> s for s < 32 on an unsigned word: bits move down by s, zeros come in at the top. */
  function Shr(x: Word32, s: nat): (r: Word32)
    requires s < WIDTH
    ensures forall i :: 0 <= i < WIDTH ==> r[i] == (i + s < WIDTH && x[i + s])
  {
    x[s..] + Zeros(s)
  }

  function Or(x: Word32, y: Word32): (r: Word32)
  {
    seq(WIDTH, i requires 0 <= i < WIDTH => x[i] || y[i])
  }

  function And(x: Word32, y: Word32): (r: Word32)
  {
    seq(WIDTH, i requires 0 <= i < WIDTH => x[i] && y[i])
  }

  /** 2^c - 1: the c low bits set. */
  function LowMask(c: nat): (m: Word32)
    requires c <= WIDTH
  {
    seq(WIDTH, i requires 0 <= i < WIDTH => i < c)
  }

  /** 2^n. */
  function Pow2(n: nat): (p: nat)
    ensures p >= 1
  {
    if n == 0 then 1 else 2 * Pow2(n - 1)
  }

  /** The unsigned number a sequence of bits stands for, bit 0 weighing 1. */
  function Value(s: seq<bool>): nat
  {
    if s == [] then 0 else (if s[0] then 1 else 0) + 2 * Value(s[1..])
  }

  /** A 32-bit pattern is an unsigned number below 2^32: the range of a register word. */
  function ToWord(x: Word32): (w: Word)
    ensures w == Value(x)
  {
    ValueBound(x);
    Pow2Width();
    Value(x)
  }

  lemma Pow2Width()
    ensures Pow2(WIDTH) == 0x1_0000_0000
  {
    assert Pow2(4) == 16;
    PowAdd(4, 4);
    assert Pow2(8) == 256;
    PowAdd(8, 8);
    assert Pow2(16) == 0x1_0000;
    PowAdd(16, 16);
  }

  lemma {:induction false} PowAdd(m: nat, n: nat)
    ensures Pow2(m + n) == Pow2(m) * Pow2(n)
  {
    if m > 0 {
      PowAdd(m - 1, n);
      MulAssoc(2, Pow2(m - 1), Pow2(n));
    }
  }

  /** n bits stand for less than 2^n. */
  lemma {:induction false} ValueBound(s: seq<bool>)
    ensures Value(s) < Pow2(|s|)
    decreases |s|
  {
    if s != [] {
      ValueBound(s[1..]);
    }
  }

  /** The low k bits and the high bits of a sequence, weighed by their place. */
  lemma {:induction false} ValueSplit(s: seq<bool>, k: nat)
    requires k <= |s|
    ensures Value(s) == Value(s[..k]) + Pow2(k) * Value(s[k..])
    decreases k
  {
    if k == 0 {
      assert s[..k] == [] && s[k..] == s;
    } else {
      var t := s[1..];
      ValueSplit(t, k - 1);
      assert t[..k - 1] == s[..k][1..];
      assert t[k - 1..] == s[k..];
      var bit := if s[0] then 1 else 0;
      var low, p, high := Value(t[..k - 1]), Pow2(k - 1), Value(s[k..]);
      assert Value(s[..k]) == bit + 2 * low;
      assert Value(s) == bit + 2 * (low + p * high);
      MulAssoc(2, p, high);
    }
  }

  /** Zero bits at the bottom multiply by a power of two. */
  lemma {:induction false} ValueZerosBelow(n: nat, x: seq<bool>)
    ensures Value(Zeros(n) + x) == Pow2(n) * Value(x)
    decreases n
  {
    if n == 0 {
      assert Zeros(n) + x == x;
    } else {
      assert (Zeros(n) + x)[1..] == Zeros(n - 1) + x;
      ValueZerosBelow(n - 1, x);
      MulAssoc(2, Pow2(n - 1), Value(x));
    }
  }

  /** Zero bits at the top add nothing. */
  lemma ValueZerosAbove(x: seq<bool>, n: nat)
    ensures Value(x + Zeros(n)) == Value(x)
  {
    ValueSplit(x + Zeros(n), |x|);
    assert (x + Zeros(n))[..|x|] == x;
    assert (x + Zeros(n))[|x|..] == Zeros(n) + [];
    ValueZerosBelow(n, []);
  }

  lemma MulAssoc(a: int, b: int, c: int)
    ensures a * (b * c) == (a * b) * c
  {
  }

  lemma MulMonotone(a: int, b: int, c: int)
    requires a <= b && c >= 0
    ensures c * a <= c * b
  {
    assert c * b == c * a + c * (b - a);
  }

  /** Euclidean division is determined by quotient and remainder. */
  lemma DivModUnique(v: int, m: int, q: int, r: int)
    requires m > 0 && v == r + m * q && 0 <= r < m
    ensures v / m == q && v % m == r
  {
    var q', r' := v / m, v % m;
    assert v == r' + m * q';
    if q > q' {
      assert m * (q' + 1) == m * q' + m;
      MulMonotone(q' + 1, q, m);
    } else if q < q' {
      assert m * (q + 1) == m * q + m;
      MulMonotone(q + 1, q', m);
    }
  }

  /** A number below 2^k, shifted up by p places within k + p bits, keeps all its bits. */
  lemma ShiftedMod(v: int, lo: int, hi: int, pk: int, ps: int, m: int)
    requires v == lo + pk * hi && m == pk * ps
    requires 0 <= lo < pk && ps >= 1
    ensures v * ps % m == ps * lo
  {
    var r := ps * lo;
    assert v * ps == r + m * hi;
    MulMonotone(lo + 1, pk, ps);
    assert ps * (lo + 1) == r + ps;
    MulMonotone(0, lo, ps);
    DivModUnique(v * ps, m, hi, r);
  }

  /** Shl is C's `<<` on an unsigned word: multiplication by 2^s, modulo 2^32. */
  lemma ShlValue(x: Word32, s: nat)
    requires s < WIDTH
    ensures Value(Shl(x, s)) == Value(x) * Pow2(s) % Pow2(WIDTH)
  {
    var k := WIDTH - s;
    var lo, hi, pk, ps := Value(x[..k]), Value(x[k..]), Pow2(k), Pow2(s);
    ValueZerosBelow(s, x[..k]);
    assert Value(Shl(x, s)) == ps * lo;
    ValueSplit(x, k);
    ValueBound(x[..k]);
    PowAdd(k, s);
    assert Pow2(WIDTH) == pk * ps;
    ShiftedMod(Value(x), lo, hi, pk, ps, Pow2(WIDTH));
  }

  /** Shr is C's `>>` on an unsigned word: division by 2^s. */
  lemma ShrValue(x: Word32, s: nat)
    requires s < WIDTH
    ensures Value(Shr(x, s)) == Value(x) / Pow2(s)
  {
    ValueZerosAbove(x[s..], s);
    ValueSplit(x, s);
    ValueBound(x[..s]);
    DivModUnique(Value(x), Pow2(s), Value(x[s..]), Value(x[..s]));
  }

  /** The mask the shift pair stands for is 2^c - 1. */
  lemma LowMaskValue(c: nat)
    requires c <= WIDTH
    ensures Value(LowMask(c)) == Pow2(c) - 1
  {
    var ones := seq(c, _ => true);
    assert LowMask(c) == ones + Zeros(WIDTH - c);
    ValueZerosAbove(ones, WIDTH - c);
    AllOnes(c);
  }

  lemma {:induction false} AllOnes(c: nat)
    ensures Value(seq(c, _ => true)) == Pow2(c) - 1
  {
    if c > 0 {
      assert seq(c, _ => true)[1..] == seq(c - 1, _ => true);
      AllOnes(c - 1);
    }
  }

  /**
   The macro's inner shift pair `(b << (32 - c)) >> (32 - c)`: b's bits from c
   up are shifted out at the top and the rest brought back, so exactly the c
   low bits of b remain.
   */
  function KeepLow(b: Word32, c: nat): (r: Word32)
    requires 1 <= c <= WIDTH
    ensures r == And(b, LowMask(c))
  {
    ShiftPairMasks(b, c);
    Shr(Shl(b, WIDTH - c), WIDTH - c)
  }

  /**
   The macro as written: OR into a the kept field of b, shifted up to position d.
   It is a OR ((b AND (2^c - 1)) << d), and bit by bit it keeps a's bit and adds
   b's bit i - d inside the field [d, d + c).
   */
  function BitInsert(a: Word32, b: Word32, c: nat, d: nat): (r: Word32)
    requires 1 <= c <= WIDTH && d < WIDTH
    ensures r == Or(a, Shl(And(b, LowMask(c)), d))
    ensures forall i :: 0 <= i < WIDTH ==> r[i] == (a[i] || (d <= i < d + c && b[i - d]))
  {
    Or(a, Shl(KeepLow(b, c), d))
  }

  /** The shift pair keeps exactly the c low bits of b. */
  lemma ShiftPairMasks(b: Word32, c: nat)
    requires 1 <= c <= WIDTH
    ensures Shr(Shl(b, WIDTH - c), WIDTH - c) == And(b, LowMask(c))
  {
    var s := WIDTH - c;
    var kept := Shr(Shl(b, s), s);
    forall i | 0 <= i < WIDTH
      ensures kept[i] == And(b, LowMask(c))[i]
    {
      assert kept[i] == (i + s < WIDTH && Shl(b, s)[i + s]);
    }
  }

  /** Every bit set in a stays set. */
  lemma BitInsertKeepsA(a: Word32, b: Word32, c: nat, d: nat)
    requires 1 <= c <= WIDTH && d < WIDTH
    ensures And(BitInsert(a, b, c, d), a) == a
  {
    var r := BitInsert(a, b, c, d);
    forall i | 0 <= i < WIDTH
      ensures And(r, a)[i] == a[i]
    {
      assert r[i] == (a[i] || (d <= i < d + c && b[i - d]));
    }
  }

  /** Bits outside the field [d, d + c) are those of a. */
  lemma BitInsertOutsideField(a: Word32, b: Word32, c: nat, d: nat, i: nat)
    requires 1 <= c <= WIDTH && d < WIDTH
    requires i < WIDTH && (i < d || i >= d + c)
    ensures BitInsert(a, b, c, d)[i] == a[i]
  {
  }

  /** Inserting the same field twice is inserting it once. */
  lemma BitInsertIdempotent(a: Word32, b: Word32, c: nat, d: nat)
    requires 1 <= c <= WIDTH && d < WIDTH
    ensures BitInsert(BitInsert(a, b, c, d), b, c, d) == BitInsert(a, b, c, d)
  {
    var once := BitInsert(a, b, c, d);
    var twice := BitInsert(once, b, c, d);
    forall i | 0 <= i < WIDTH
      ensures twice[i] == once[i]
    {
      assert once[i] == (a[i] || (d <= i < d + c && b[i - d]));
      assert twice[i] == (once[i] || (d <= i < d + c && b[i - d]));
    }
  }
}
