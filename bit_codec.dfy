/** The bit-level view of a command and the N-bit field codec built on it.

    A command dword is seen as its 32 bits (index 0 is the least significant
    bit). The command base class reads and writes one bit at a time (its
    GetBit and SetBit, whose bodies are not part of this model): a read yields
    the bit, a write sets or clears it and changes no other bit. `FieldOf` and
    `DepositField` are the reference definitions of a `width`-bit field at bit
    offset `lo`: read it as a number, and write the low `width` bits of a
    number into it one bit at a time, lowest bit first. */
module BitCodec {

  const DWORD_BITS: nat := 32

  /** One 32-bit command dword, bit 0 first. */
  type Dword = s: seq<bool> | |s| == DWORD_BITS witness ZeroDword()

  function ZeroDword(): (w: seq<bool>)
    ensures |w| == DWORD_BITS
  {
    seq(DWORD_BITS, _ => false)
  }

  /** An 8-bit unsigned value, the type of the command's field arguments. */
  type U8 = x: nat | x < 256

  function Pow2(n: nat): (p: nat)
    ensures p >= 1
  {
    if n == 0 then 1 else 2 * Pow2(n - 1)
  }

  /** Bit `k` of the number `v`: whether `v & (1 << k)` is nonzero, which is
      what passing that value where a bool is expected tests. */
  function ValueBit(v: nat, k: nat): (b: bool)
    ensures b <==> v % Pow2(k + 1) >= Pow2(k)
  {
    ModDoubleSplit(v, Pow2(k));
    (v / Pow2(k)) % 2 == 1
  }

  /** 0 or 1: the integer a bit read stands for once shifted or or-ed. */
  function BitValue(b: bool): (n: nat)
    ensures n <= 1
    ensures n == 1 <==> b
  {
    if b then 1 else 0
  }

  /** The number held in bits `lo` .. `lo + width - 1` of `w`, right-aligned. */
  function FieldOf(w: Dword, lo: nat, width: nat): (r: nat)
    requires lo + width <= DWORD_BITS
    ensures r < Pow2(width)
    decreases width
  {
    if width == 0 then 0
    else FieldOf(w, lo, width - 1) + BitValue(w[lo + width - 1]) * Pow2(width - 1)
  }

  /** `w` with bits `lo` .. `lo + width - 1` replaced by the low `width` bits
      of `v`, one single-bit write per bit, lowest bit first. */
  function DepositField(w: Dword, lo: nat, width: nat, v: nat): (r: Dword)
    requires lo + width <= DWORD_BITS
    ensures forall k | 0 <= k < DWORD_BITS ::
      r[k] == if lo <= k < lo + width then ValueBit(v, k - lo) else w[k]
    decreases width
  {
    if width == 0 then w
    else DepositField(w, lo, width - 1, v)[lo + width - 1 := ValueBit(v, width - 1)]
  }

  /** Division and remainder by `m` are determined by any decomposition
      `v == q * m + r` with `0 <= r < m`. */
  lemma DivModUnique(v: nat, m: nat, q: nat, r: nat)
    requires 0 <= r < m && v == q * m + r
    ensures v / m == q && v % m == r
  {
    var q', r' := v / m, v % m;
    assert q' * m + r' == q * m + r;
    if q' < q {
      MulDistance(q', q, m);
    } else if q < q' {
      MulDistance(q, q', m);
    }
  }

  /** Two multiples of `m` with different factors are at least `m` apart. */
  lemma {:induction false} MulDistance(a: nat, b: nat, m: nat)
    requires a < b
    ensures a * m + m <= b * m
    decreases b - a
  {
    assert (a + 1) * m == a * m + m;
    if a + 1 < b {
      MulDistance(a + 1, b, m);
    }
  }

  /** The remainder modulo `2 * p` is the remainder modulo `p` plus `p` times
      the next binary digit of `v / p`. */
  lemma ModDoubleSplit(v: nat, p: nat)
    requires p >= 1
    ensures v % (2 * p) == v % p + ((v / p) % 2) * p
  {
    var q, r := v / p, v % p;
    var hi, b := q / 2, q % 2;
    assert v == q * p + r;
    assert q == hi * 2 + b;
    assert v == hi * (2 * p) + (b * p + r) by {
      calc {
        v;
        q * p + r;
        (hi * 2 + b) * p + r;
        hi * (2 * p) + (b * p + r);
      }
    }
    assert b * p + r < 2 * p;
    DivModUnique(v, 2 * p, hi, b * p + r);
  }

  /** Taking one more low bit of `v` adds bit `n` of `v` at weight 2^n. */
  lemma ModPow2Step(v: nat, n: nat)
    ensures v % Pow2(n + 1) == v % Pow2(n) + BitValue(ValueBit(v, n)) * Pow2(n)
  {
    ModDoubleSplit(v, Pow2(n));
  }

  /** The field depends on the bits inside it and on no other bit. */
  lemma {:induction false} FieldOfOnlyReadsField(w1: Dword, w2: Dword, lo: nat, width: nat)
    requires lo + width <= DWORD_BITS
    requires forall k | lo <= k < lo + width :: w1[k] == w2[k]
    ensures FieldOf(w1, lo, width) == FieldOf(w2, lo, width)
    decreases width
  {
    if width > 0 {
      FieldOfOnlyReadsField(w1, w2, lo, width - 1);
    }
  }

  /** A field whose bits are the low bits of `v` reads back as `v` masked to
      the field's width. */
  lemma {:induction false} FieldOfValueBits(w: Dword, lo: nat, width: nat, v: nat)
    requires lo + width <= DWORD_BITS
    requires forall k | 0 <= k < width :: w[lo + k] == ValueBit(v, k)
    ensures FieldOf(w, lo, width) == v % Pow2(width)
    decreases width
  {
    if width > 0 {
      FieldOfValueBits(w, lo, width - 1, v);
      assert w[lo + (width - 1)] == ValueBit(v, width - 1);
      ModPow2Step(v, width - 1);
    }
  }

  /** Round trip: a field read back after writing `v` into it is `v` masked
      to the field's width, whatever the dword held before. */
  lemma FieldRoundTrip(w: Dword, lo: nat, width: nat, v: nat)
    requires lo + width <= DWORD_BITS
    ensures FieldOf(DepositField(w, lo, width, v), lo, width) == v % Pow2(width)
  {
    var d := DepositField(w, lo, width, v);
    forall k | 0 <= k < width
      ensures d[lo + k] == ValueBit(v, k)
    {
    }
    FieldOfValueBits(d, lo, width, v);
  }

  /** Writing one field leaves every field that does not overlap it unchanged. */
  lemma DisjointFieldUnchanged(w: Dword, lo: nat, width: nat, v: nat, lo2: nat, width2: nat)
    requires lo + width <= DWORD_BITS && lo2 + width2 <= DWORD_BITS
    requires lo + width <= lo2 || lo2 + width2 <= lo
    ensures FieldOf(DepositField(w, lo, width, v), lo2, width2) == FieldOf(w, lo2, width2)
  {
    FieldOfOnlyReadsField(DepositField(w, lo, width, v), w, lo2, width2);
  }

  /** Writing one bit outside a field leaves that field unchanged. */
  lemma OtherBitLeavesField(w: Dword, i: nat, b: bool, lo: nat, width: nat)
    requires i < DWORD_BITS && lo + width <= DWORD_BITS
    requires i < lo || lo + width <= i
    ensures FieldOf(w[i := b], lo, width) == FieldOf(w, lo, width)
  {
    FieldOfOnlyReadsField(w[i := b], w, lo, width);
  }

  /** A later write of a field fully overwrites an earlier one. */
  lemma LastDepositWins(w: Dword, lo: nat, width: nat, u: nat, v: nat)
    requires lo + width <= DWORD_BITS
    ensures DepositField(DepositField(w, lo, width, u), lo, width, v) == DepositField(w, lo, width, v)
  {
    var twice, once := DepositField(DepositField(w, lo, width, u), lo, width, v), DepositField(w, lo, width, v);
    assert forall k | 0 <= k < DWORD_BITS :: twice[k] == once[k];
  }

  /** Writing the same value into a field twice is the same as writing it once. */
  lemma DepositIdempotent(w: Dword, lo: nat, width: nat, v: nat)
    requires lo + width <= DWORD_BITS
    ensures DepositField(DepositField(w, lo, width, v), lo, width, v) == DepositField(w, lo, width, v)
  {
    LastDepositWins(w, lo, width, v, v);
  }
}
