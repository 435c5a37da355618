/** Binary arithmetic without multiplication: shifting, bit streams, and the numbers they denote. */
module Numerals {

  /** `n * 2^k` */
  function Scale(n: int, k: nat): int
    decreases k, n
  {
    if k == 0 then n else 2 * Scale(n, k - 1)
  }

  /** `n / 2^k`, rounded down. */
  function High(n: int, k: nat): int
    decreases k, n
  {
    if k == 0 then n else High(n / 2, k - 1)
  }

  lemma {:induction false} ScaleSum(a: int, b: int, k: nat)
    ensures Scale(a + b, k) == Scale(a, k) + Scale(b, k)
  {
    if k != 0 {
      ScaleSum(a, b, k - 1);
    }
  }

  lemma {:induction false} ScaleScale(n: int, j: nat, k: nat)
    ensures Scale(Scale(n, j), k) == Scale(n, j + k)
  {
    if k != 0 {
      ScaleScale(n, j, k - 1);
    }
  }

  lemma {:induction false} HighHigh(n: int, j: nat, k: nat)
    ensures High(High(n, j), k) == High(n, j + k)
    decreases j
  {
    if j != 0 {
      HighHigh(n / 2, j - 1, k);
    }
  }

  /** The low `w` bits of `v` are zero. */
  ghost predicate Clear(v: int, w: nat) { exists q :: v == Scale(q, w) }

  // ---- The widths in use ----

  lemma Octet(n: int)
    ensures Scale(n, 5) == 32 * n && High(n, 5) == n / 32
    ensures Scale(n, 8) == 256 * n && High(n, 8) == n / 256
  {
    assert Scale(n, 1) == 2 * n && Scale(n, 2) == 4 * n;
    assert Scale(n, 3) == 8 * n && Scale(n, 4) == 16 * n;
    assert Scale(n, 5) == 32 * n && Scale(n, 6) == 64 * n && Scale(n, 7) == 128 * n;
    HighHigh(n, 1, 1);
    HighHigh(n, 2, 1);
    HighHigh(n, 3, 1);
    HighHigh(n, 4, 1);
    HighHigh(n, 5, 1);
    HighHigh(n, 6, 1);
    HighHigh(n, 7, 1);
  }

  lemma Scale16(n: int)
    ensures Scale(n, 16) == 0x1_0000 * n
  {
    Octet(n);
    Octet(256 * n);
    ScaleScale(n, 8, 8);
  }

  lemma Scale24(n: int)
    ensures Scale(n, 24) == 0x100_0000 * n
  {
    Scale16(n);
    Octet(0x1_0000 * n);
    ScaleScale(n, 16, 8);
  }

  lemma Scale32(n: int)
    ensures Scale(n, 32) == 0x1_0000_0000 * n
  {
    Scale24(n);
    Octet(0x100_0000 * n);
    ScaleScale(n, 24, 8);
  }

  // ---- Bit streams, most significant bit first ----

  datatype Bits = Nil | Snoc(init: Bits, last: bool)

  function Len(bits: Bits): nat
  {
    match bits
    case Nil => 0
    case Snoc(init, _) => Len(init) + 1
  }

  /** One stream behind another. */
  function Join(xs: Bits, ys: Bits): Bits
    decreases ys
  {
    match ys
    case Nil => xs
    case Snoc(init, last) => Snoc(Join(xs, init), last)
  }

  lemma {:induction false} LenJoin(xs: Bits, ys: Bits)
    ensures Len(Join(xs, ys)) == Len(xs) + Len(ys)
    decreases ys
  {
    if ys.Snoc? {
      LenJoin(xs, ys.init);
    }
  }

  lemma {:induction false} JoinAssociates(xs: Bits, ys: Bits, zs: Bits)
    ensures Join(Join(xs, ys), zs) == Join(xs, Join(ys, zs))
    decreases zs
  {
    if zs.Snoc? {
      JoinAssociates(xs, ys, zs.init);
    }
  }

  /** The stream without its last `k` bits. */
  function Front(bits: Bits, k: nat): (r: Bits)
    requires k <= Len(bits)
    ensures Len(r) == Len(bits) - k
  {
    if k == 0 then bits else Front(bits.init, k - 1)
  }

  /** The last `k` bits of the stream. */
  function Back(bits: Bits, k: nat): (r: Bits)
    requires k <= Len(bits)
    ensures Len(r) == k
  {
    if k == 0 then Nil else Snoc(Back(bits.init, k - 1), bits.last)
  }

  lemma {:induction false} FrontBack(bits: Bits, k: nat)
    requires k <= Len(bits)
    ensures Join(Front(bits, k), Back(bits, k)) == bits
  {
    if k != 0 {
      FrontBack(bits.init, k - 1);
    }
  }

  lemma {:induction false} JoinParts(xs: Bits, ys: Bits)
    ensures Len(Join(xs, ys)) == Len(xs) + Len(ys)
    ensures Front(Join(xs, ys), Len(ys)) == xs && Back(Join(xs, ys), Len(ys)) == ys
    decreases ys
  {
    if ys.Snoc? {
      JoinParts(xs, ys.init);
    }
  }

  function Zeros(k: nat): Bits { if k == 0 then Nil else Snoc(Zeros(k - 1), false) }

  lemma {:induction false} LenZeros(k: nat)
    ensures Len(Zeros(k)) == k
  {
    if k != 0 {
      LenZeros(k - 1);
    }
  }

  // ---- Numbers as bits ----

  /** The low `k` bits of `n` in two's complement. */
  function BitsOf(n: int, k: nat): Bits
    decreases k, n
  {
    if k == 0 then Nil else Snoc(BitsOf(n / 2, k - 1), n % 2 == 1)
  }

  lemma {:induction false} LenBits(n: int, k: nat)
    ensures Len(BitsOf(n, k)) == k
    decreases k
  {
    if k != 0 {
      LenBits(n / 2, k - 1);
    }
  }

  /** The number a bit stream denotes. */
  function ValueOf(bits: Bits): nat
  {
    match bits
    case Nil => 0
    case Snoc(init, last) => 2 * ValueOf(init) + if last then 1 else 0
  }

  /** `n & (2^k - 1)` */
  function Low(n: int, k: nat): nat { ValueOf(BitsOf(n, k)) }

  /** `0 <= n < 2^k`: the number is denoted by `k` bits. */
  ghost predicate Fits(n: int, k: nat) { exists bits :: Len(bits) == k && ValueOf(bits) == n }

  lemma FitsLow(n: int, k: nat)
    ensures Fits(n, k) <==> Low(n, k) == n
  {
    LenBits(n, k);
    if Fits(n, k) {
      var bits :| Len(bits) == k && ValueOf(bits) == n;
      BitsOfValue(bits);
    }
  }

  lemma {:induction false} BitsOfValue(bits: Bits)
    ensures BitsOf(ValueOf(bits), Len(bits)) == bits
  {
    if bits.Snoc? {
      BitsOfValue(bits.init);
    }
  }

  lemma BitsOfLow(n: int, k: nat)
    ensures BitsOf(Low(n, k), k) == BitsOf(n, k)
  {
    LenBits(n, k);
    BitsOfValue(BitsOf(n, k));
  }

  /** A number is its high part, shifted, plus its low part. */
  lemma {:induction false} HighLow(n: int, k: nat)
    ensures n == Scale(High(n, k), k) + Low(n, k)
    decreases k
  {
    if k != 0 {
      HighLow(n / 2, k - 1);
    }
  }

  lemma LowSymbol(n: int)
    ensures Low(n, 5) == n % 32
  {
    HighLow(n, 5);
    Octet(High(n, 5));
    Octet(n);
  }

  lemma LowByte(n: int)
    ensures Low(n, 8) == n % 256
  {
    HighLow(n, 8);
    Octet(High(n, 8));
    Octet(n);
  }

  /** A stream appended below a number is appended to its bits. */
  lemma {:induction false} BitsAppend(n: int, b: nat, ys: Bits)
    ensures BitsOf(Scale(n, Len(ys)) + ValueOf(ys), b + Len(ys)) == Join(BitsOf(n, b), ys)
    decreases ys
  {
    if ys.Snoc? {
      BitsAppend(n, b, ys.init);
      assert (Scale(n, Len(ys)) + ValueOf(ys)) / 2 == Scale(n, Len(ys.init)) + ValueOf(ys.init);
    }
  }

  lemma {:induction false} BitsScale(n: int, b: nat, w: nat)
    ensures BitsOf(Scale(n, w), b + w) == Join(BitsOf(n, b), Zeros(w))
    decreases w
  {
    if w != 0 {
      BitsScale(n, b, w - 1);
    }
  }

  /** Multiples of `2^j` do not reach the low `k <= j` bits. */
  lemma {:induction false} BitsIgnoreHigh(n: int, z: int, j: nat, k: nat)
    requires k <= j
    ensures BitsOf(n + Scale(z, j), k) == BitsOf(n, k)
    decreases k
  {
    if k != 0 {
      BitsIgnoreHigh(n / 2, z, j - 1, k - 1);
      assert (n + Scale(z, j)) / 2 == n / 2 + Scale(z, j - 1);
    }
  }

  /** The bits of a number are those of its high part followed by those below. */
  lemma {:induction false} BitsSplit(n: int, w: nat, k: nat)
    ensures BitsOf(n, w + k) == Join(BitsOf(High(n, k), w), BitsOf(n, k))
    decreases k
  {
    if k > 0 {
      BitsSplit(n / 2, w, k - 1);
    }
  }

  // ---- Streams of `w`-bit numbers ----

  ghost predicate FitAll(ds: seq<nat>, w: nat) { forall k :: 0 <= k < |ds| ==> Fits(ds[k], w) }

  /** `w * len` */
  function Span(w: nat, len: nat): nat
    decreases len, w
  {
    if len == 0 then 0 else Span(w, len - 1) + w
  }

  lemma {:induction false} SpanValues(w: nat, len: nat)
    ensures w == 5 ==> Span(w, len) == 5 * len
    ensures w == 8 ==> Span(w, len) == 8 * len
    decreases len
  {
    if len != 0 {
      SpanValues(w, len - 1);
    }
  }

  /** The bits of a sequence of `w`-bit numbers. */
  function Stream(w: nat, ds: seq<nat>): Bits
    decreases ds
  {
    if |ds| == 0 then Nil else Join(Stream(w, ds[..|ds| - 1]), BitsOf(ds[|ds| - 1], w))
  }

  lemma {:induction false} LenStream(w: nat, ds: seq<nat>)
    ensures Len(Stream(w, ds)) == Span(w, |ds|)
    decreases ds
  {
    if |ds| != 0 {
      LenStream(w, ds[..|ds| - 1]);
      LenBits(ds[|ds| - 1], w);
      LenJoin(Stream(w, ds[..|ds| - 1]), BitsOf(ds[|ds| - 1], w));
    }
  }

  lemma StreamSnoc(w: nat, ds: seq<nat>, d: nat)
    ensures Stream(w, ds + [d]) == Join(Stream(w, ds), BitsOf(d, w))
  {
    assert (ds + [d])[..|ds|] == ds;
  }

  /** A stream determines the numbers it is made of. */
  lemma {:induction false} StreamInjective(w: nat, xs: seq<nat>, ys: seq<nat>)
    requires |xs| == |ys| && FitAll(xs, w) && FitAll(ys, w)
    requires Stream(w, xs) == Stream(w, ys)
    ensures xs == ys
  {
    if |xs| != 0 {
      var n := |xs| - 1;
      LenBits(xs[n], w);
      LenBits(ys[n], w);
      JoinParts(Stream(w, xs[..n]), BitsOf(xs[n], w));
      JoinParts(Stream(w, ys[..n]), BitsOf(ys[n], w));
      FitsLow(xs[n], w);
      FitsLow(ys[n], w);
      StreamInjective(w, xs[..n], ys[..n]);
      assert xs == xs[..n] + [xs[n]] && ys == ys[..n] + [ys[n]];
    }
  }

  /** Every stream of the right length is made of numbers. */
  lemma {:induction false} StreamSurjective(w: nat, len: nat, bits: Bits) returns (ds: seq<nat>)
    requires Len(bits) == Span(w, len)
    ensures |ds| == len && FitAll(ds, w) && Stream(w, ds) == bits
    decreases len
  {
    if len == 0 {
      return [];
    }
    var front := StreamSurjective(w, len - 1, Front(bits, w));
    var last := Back(bits, w);
    BitsOfValue(last);
    FrontBack(bits, w);
    StreamSnoc(w, front, ValueOf(last));
    return front + [ValueOf(last)];
  }
}
