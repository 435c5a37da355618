/** Time-based one-time passwords (RFC 4226, RFC 6238). HMAC-SHA1 is a parameter. */
module Totp {
  import opened Numerals
  import opened Base32
  import opened Division

  type digest = d: seq<nat> | |d| == 20 && forall k :: 0 <= k < 20 ==> d[k] < 256
    witness seq(20, k => 0)

  type Mac = (bytestring, bytestring) -> digest

  datatype Generated = Code(code: string) | BadSecret | CounterOutOfRange
  datatype Verdict = Accepted | Rejected | Thrown

  // ---- Dynamic truncation (RFC 4226 section 5.3) ----

  /** The integer in four bytes, most significant first. */
  function Word(a: nat, b: nat, c: nat, d: nat): nat
  {
    0x100_0000 * a + 0x1_0000 * b + 0x100 * c + d
  }

  /** A shift that stays below 2^31 does not wrap. */
  lemma ShlSmall(v: nat, k: nat)
    requires 0 <= Scale(v, k) < 0x8000_0000
    ensures Shl(v, k) == Scale(v, k)
  {
  }

  lemma {:induction false} ValueOfZeros(bits: Bits, k: nat)
    ensures ValueOf(Join(bits, Zeros(k))) == Scale(ValueOf(bits), k)
  {
    if k != 0 {
      ValueOfZeros(bits, k - 1);
    }
  }

  lemma ScaledFits(x: nat, w: nat, k: nat)
    requires Fits(x, w)
    ensures Fits(Scale(x, k), w + k)
  {
    var bits :| Len(bits) == w && ValueOf(bits) == x;
    LenZeros(k);
    LenJoin(bits, Zeros(k));
    ValueOfZeros(bits, k);
  }

  lemma ShiftedByte(x: nat, k: nat)
    requires x < 256 && 0 <= Scale(x, k) < 0x8000_0000
    ensures Shl(x, k) == Scale(x, k) && Fits(Shl(x, k), 8 + k)
  {
    ByteFits(x);
    ScaledFits(x, 8, k);
    ShlSmall(x, k);
  }

  lemma TwoBytes(a: nat, b: nat, j: nat, k: nat)
    ensures Clear(Scale(a, j + k) + Scale(b, k), k)
  {
    ScaleScale(a, j, k);
    ScaleSum(Scale(a, j), b, k);
  }

  lemma ThreeBytes(a: nat, b: nat, c: nat)
    ensures Clear(Scale(a, 24) + Scale(b, 16) + Scale(c, 8), 8)
  {
    ScaleScale(a, 16, 8);
    ScaleScale(b, 8, 8);
    ScaleSum(Scale(a, 16), Scale(b, 8), 8);
    TwoBytesAbove(Scale(a, 16) + Scale(b, 8), c, 8);
  }

  lemma TwoBytesAbove(q: int, c: int, k: nat)
    ensures Clear(Scale(q, k) + Scale(c, k), k)
  {
    ScaleSum(q, c, k);
  }

  lemma ByteProducts(a: nat, b: nat, c: nat)
    requires a < 128 && b < 256 && c < 256
    ensures Shl(a, 24) == Scale(a, 24) == 0x100_0000 * a
    ensures Shl(b, 16) == Scale(b, 16) == 0x1_0000 * b && Fits(Shl(b, 16), 24)
    ensures Shl(c, 8) == Scale(c, 8) == 0x100 * c && Fits(Shl(c, 8), 16)
  {
    Scale24(a);
    Scale16(b);
    Octet(c);
    ShlSmall(a, 24);
    ShiftedByte(b, 16);
    ShiftedByte(c, 8);
  }

  /** The three shifted bytes are their products, and each fits below the ones already in place. */
  lemma WordIsShifted(a: nat, b: nat, c: nat, d: nat)
    requires a < 128 && b < 256 && c < 256 && d < 256
    ensures Shl(a, 24) == 0x100_0000 * a && Clear(Shl(a, 24), 24)
    ensures Shl(b, 16) == 0x1_0000 * b && Fits(Shl(b, 16), 24)
    ensures Shl(c, 8) == 0x100 * c && Fits(Shl(c, 8), 16)
    ensures Clear(Shl(a, 24) + Shl(b, 16), 16)
    ensures Clear(Shl(a, 24) + Shl(b, 16) + Shl(c, 8), 8) && Fits(d, 8)
  {
    ByteProducts(a, b, c);
    ShlClears(a, 24);
    TwoBytes(a, b, 8, 16);
    ThreeBytes(a, b, c);
    ByteFits(d);
  }

  /** `x | y | z | d` for a number in four parts. */
  function OrAll(x: int, y: nat, z: nat, d: nat): int
    requires Clear(x, 24) && Fits(y, 24) && Clear(x + y, 16) && Fits(z, 16) && Clear(x + y + z, 8) && Fits(d, 8)
  {
    Or(Or(Or(x, y, 24), z, 16), d, 8)
  }

  /** `(a << 24) | (b << 16) | (c << 8) | d` is the word of the four bytes. */
  function Assembled(a: nat, b: nat, c: nat, d: nat): (w: int)
    requires a < 128 && b < 256 && c < 256 && d < 256
    ensures w == Word(a, b, c, d)
  {
    WordIsShifted(a, b, c, d);
    OrAll(Shl(a, 24), Shl(b, 16), Shl(c, 8), d)
  }

  lemma SignBitMasked(a: nat, b: nat, c: nat, d: nat)
    requires b < 256 && c < 256 && d < 256
    ensures Word(a % 128, b, c, d) == Word(a, b, c, d) % 0x8000_0000
  {
    var q := a / 128;
    assert Word(a, b, c, d) == 0x8000_0000 * q + Word(a % 128, b, c, d);
    assert 0 <= Word(a % 128, b, c, d) < 0x8000_0000;
  }

  /** The four bytes that the low nibble of the last one points to, without the sign bit. */
  function Truncated(hmac: digest): (binary: nat)
    ensures binary < 0x8000_0000
    ensures var o := hmac[19] % 16;
            binary == Word(hmac[o], hmac[o + 1], hmac[o + 2], hmac[o + 3]) % 0x8000_0000
  {
    var offset := hmac[|hmac| - 1] % 16;
    SignBitMasked(hmac[offset], hmac[offset + 1], hmac[offset + 2], hmac[offset + 3]);
    Assembled(hmac[offset] % 128, hmac[offset + 1], hmac[offset + 2], hmac[offset + 3])
  }

  // ---- Decimal codes ----

  function Pow10(k: nat): (p: nat)
    ensures p >= 1
  {
    if k == 0 then 1 else 10 * Pow10(k - 1)
  }

  predicate IsDigit(c: char) { '0' <= c <= '9' }

  predicate AllDigits(s: string) { forall k :: 0 <= k < |s| ==> IsDigit(s[k]) }

  /** The number a decimal string denotes. */
  function Value(s: string): nat
    requires AllDigits(s)
  {
    if |s| == 0 then 0 else 10 * Value(s[..|s| - 1]) + (s[|s| - 1] as int - '0' as int)
  }

  /** `Number.prototype.toString` on natural numbers. */
  function Decimal(n: nat): (s: string)
    ensures AllDigits(s) && |s| >= 1 && Value(s) == n
  {
    var last := ['0' + (n % 10) as char];
    if n < 10 then last
    else
      var front := Decimal(n / 10);
      assert (front + last)[..|front|] == front;
      front + last
  }

  lemma {:induction false} DecimalLength(n: nat, k: nat)
    requires k >= 1 && n < Pow10(k)
    ensures |Decimal(n)| <= k
    decreases k
  {
    if n >= 10 {
      assert n / 10 < Pow10(k - 1);
      DecimalLength(n / 10, k - 1);
    }
  }

  /** `padStart(len, '0')` */
  function PadStart(s: string, len: nat): (r: string)
    requires AllDigits(s)
    ensures AllDigits(r) && |r| == (if |s| < len then len else |s|)
    decreases len - |s|
  {
    if |s| < len then PadStart("0" + s, len) else s
  }

  lemma {:induction false} LeadingZero(s: string)
    requires AllDigits(s)
    ensures Value("0" + s) == Value(s)
  {
    if s != "" {
      LeadingZero(s[..|s| - 1]);
      assert ("0" + s)[..|s|] == "0" + s[..|s| - 1];
    }
  }

  lemma {:induction false} PadKeepsValue(s: string, len: nat)
    requires AllDigits(s)
    ensures Value(PadStart(s, len)) == Value(s)
    decreases len - |s|
  {
    if |s| < len {
      LeadingZero(s);
      PadKeepsValue("0" + s, len);
    }
  }

  /** `n` in `len` bytes, most significant first. */
  function BigEndian(n: nat, len: nat): (b: bytestring)
    ensures |b| == len
    decreases len, n
  {
    if len == 0 then [] else BigEndian(n / 256, len - 1) + [n % 256]
  }

  /** The number that bytes denote in network order. */
  function Number(b: bytestring): nat
  {
    if |b| == 0 then 0 else 256 * Number(b[..|b| - 1]) + b[|b| - 1]
  }

  function Pow256(len: nat): nat { if len == 0 then 1 else 256 * Pow256(len - 1) }

  lemma {:induction false} BigEndianNumber(n: nat, len: nat)
    requires n < Pow256(len)
    ensures Number(BigEndian(n, len)) == n
    decreases len
  {
    if len != 0 {
      BigEndianNumber(n / 256, len - 1);
      assert BigEndian(n, len)[..len - 1] == BigEndian(n / 256, len - 1);
    }
  }

  /** `writeBigUInt64BE` */
  function CounterBuffer(counter: nat): bytestring { BigEndian(counter, 8) }

  /** The eight bytes hashed denote the counter, so no two counters share them. */
  lemma CounterBytes(counter: nat)
    requires Countable(counter)
    ensures |CounterBuffer(counter)| == 8 && Number(CounterBuffer(counter)) == counter
  {
    assert Pow256(4) == 0x1_0000_0000;
    assert Pow256(8) == COUNTERS;
    BigEndianNumber(counter, 8);
  }

  /** The HOTP value of a counter that fits the eight-byte buffer. */
  function CodeOf(mac: Mac, key: bytestring, counter: nat, digits: nat): string
  {
    var binary := Truncated(mac(key, CounterBuffer(counter)));
    PadStart(Decimal(binary % Pow10(digits)), digits)
  }

  /** A code has exactly `digits` decimal digits and denotes the truncated value modulo 10^digits. */
  lemma CodeShape(mac: Mac, key: bytestring, counter: nat, digits: nat)
    requires digits >= 1
    ensures |CodeOf(mac, key, counter, digits)| == digits && AllDigits(CodeOf(mac, key, counter, digits))
    ensures Value(CodeOf(mac, key, counter, digits)) == Truncated(mac(key, CounterBuffer(counter))) % Pow10(digits)
  {
    var n := Truncated(mac(key, CounterBuffer(counter))) % Pow10(digits);
    DecimalLength(n, digits);
    PadKeepsValue(Decimal(n), digits);
  }

  const COUNTERS := 0x1_0000_0000_0000_0000

  predicate Countable(counter: int) { 0 <= counter < COUNTERS }

  function Hotp(mac: Mac, key: bytestring, counter: int, digits: nat): Generated
  {
    if Countable(counter) then Code(CodeOf(mac, key, counter, digits)) else CounterOutOfRange
  }

  /** `generateTotp`: `time` in unix seconds. */
  ghost function Generate(mac: Mac, secret: string, time: int, step: nat, digits: nat): Generated
    requires step >= 1
  {
    match Decoded(secret)
    case InvalidCharacter(_) => BadSecret
    case Bytes(key) => Hotp(mac, key, time / step, digits)
  }

  /** What the token must look like before any code is computed. */
  predicate WellFormed(token: string, digits: nat)
  {
    var normalized := RemoveSpace(token);
    AllDigits(normalized) && normalized != "" && |normalized| == digits
  }

  type Codes = int -> Generated

  /** Some counter of the window has this code. */
  ghost predicate InWindow(codes: Codes, code: string, counter: int, window: int)
  {
    exists c :: counter - window <= c <= counter + window && codes(c) == Code(code)
  }

  /** Codes exist for exactly the countable counters. */
  ghost predicate CountersOnly(codes: Codes)
  {
    forall c :: codes(c).Code? <==> Countable(c)
  }

  /** The loop of `verifyTotp`, over the codes of one key. */
  method ScanWindow(codes: Codes, normalized: string, counter: int, window: int) returns (r: Verdict)
    requires CountersOnly(codes)
    ensures r == Scanned(codes, normalized, counter, window)
  {
    var offset := -window;
    while offset <= window
      invariant -window <= offset && (window >= 0 ==> offset <= window + 1)
      invariant forall c :: counter - window <= c < counter + offset ==> codes(c).Code? && codes(c) != Code(normalized)
      decreases window - offset
    {
      var candidate := codes(counter + offset);
      if !candidate.Code? {
        assert offset > -window ==> codes(counter - window).Code?;
        return Thrown;
      }
      if candidate.code == normalized {
        assert offset > -window ==> codes(counter - window).Code?;
        return Accepted;
      }
      offset := offset + 1;
    }
    if window >= 0 {
      assert codes(counter - window).Code? && codes(counter + window).Code?;
    }
    return Rejected;
  }

  function CodesOf(mac: Mac, key: bytestring, digits: nat): Codes
  {
    c => Hotp(mac, key, c, digits)
  }

  /** The answer over the codes of one key: a window that starts below zero throws before any code is accepted. */
  ghost function Scanned(codes: Codes, normalized: string, counter: int, window: int): Verdict
  {
    if counter >= window && InWindow(codes, normalized, counter, window) then Accepted
    else if window >= 0 && !(Countable(counter - window) && Countable(counter + window)) then Thrown
    else Rejected
  }

  /** What `verifyTotp` answers at a counter. */
  ghost function AnswerAt(mac: Mac, secret: string, token: string, counter: int, digits: nat, window: int): Verdict
  {
    if !WellFormed(token, digits) || Decoded(secret).InvalidCharacter? then Rejected
    else Scanned(CodesOf(mac, Decoded(secret).bytes, digits), RemoveSpace(token), counter, window)
  }

  ghost function Answer(mac: Mac, secret: string, token: string, time: int, step: nat, digits: nat,
                        window: int): Verdict
    requires step >= 1
  {
    AnswerAt(mac, secret, token, time / step, digits, window)
  }

  /** What it is to be a code of the window. */
  lemma WindowCodes(mac: Mac, key: bytestring, code: string, counter: int, window: int, digits: nat)
    ensures InWindow(CodesOf(mac, key, digits), code, counter, window) <==>
            exists c :: counter - window <= c <= counter + window && 0 <= c < 0x1_0000_0000_0000_0000
                        && code == CodeOf(mac, key, c, digits)
  {
    var codes := CodesOf(mac, key, digits);
    if c :| counter - window <= c <= counter + window && 0 <= c < 0x1_0000_0000_0000_0000
            && code == CodeOf(mac, key, c, digits) {
      assert codes(c) == Code(code);
    }
  }

  lemma AcceptedMeans(mac: Mac, secret: string, token: string, counter: int, digits: nat, window: int)
    ensures var r, text := AnswerAt(mac, secret, token, counter, digits, window), RemoveSpace(token);
            var digital := forall k :: 0 <= k < |text| ==> '0' <= text[k] <= '9';
            && (!digital || |text| == 0 || |text| != digits || Decoded(secret).InvalidCharacter? ==> r == Rejected)
            && (r == Accepted ==>
                  && Decoded(secret).Bytes? && |text| == digits && digital
                  && exists c :: counter - window <= c <= counter + window && 0 <= c < 0x1_0000_0000_0000_0000
                                 && text == CodeOf(mac, Decoded(secret).bytes, c, digits))
  {
    if Decoded(secret).Bytes? {
      WindowCodes(mac, Decoded(secret).bytes, RemoveSpace(token), counter, window, digits);
    }
  }

  lemma CodesAreAccepted(mac: Mac, secret: string, token: string, counter: int, digits: nat, window: int)
    requires 0 <= counter - window && counter + window < 0x1_0000_0000_0000_0000
    ensures AnswerAt(mac, secret, token, counter, digits, window) != Thrown
    ensures digits >= 1 && Decoded(secret).Bytes?
            && (exists c :: counter - window <= c <= counter + window
                            && RemoveSpace(token) == CodeOf(mac, Decoded(secret).bytes, c, digits)) ==>
              AnswerAt(mac, secret, token, counter, digits, window) == Accepted
  {
    if digits >= 1 && Decoded(secret).Bytes? {
      var text, key := RemoveSpace(token), Decoded(secret).bytes;
      WindowCodes(mac, key, text, counter, window, digits);
      if c :| counter - window <= c <= counter + window && text == CodeOf(mac, key, c, digits) {
        CodeShape(mac, key, c, digits);
      }
    }
  }

  /** `verifyTotp` accepts exactly the codes of the window; it throws where the window leaves the counter range. */
  method Verify(mac: Mac, secret: string, token: string, time: int, step: nat, digits: nat, window: int)
    returns (r: Verdict)
    requires step >= 1
    ensures r == Answer(mac, secret, token, time, step, digits, window)
    // a token other than `digits` decimal digits, or a secret that does not decode, is rejected
    ensures !(forall k :: 0 <= k < |RemoveSpace(token)| ==> '0' <= RemoveSpace(token)[k] <= '9')
            || |RemoveSpace(token)| == 0 || |RemoveSpace(token)| != digits || Decoded(secret).InvalidCharacter? ==>
              r == Rejected
    // only the code of a counter in the window is accepted
    ensures r == Accepted ==>
              && Decoded(secret).Bytes? && |RemoveSpace(token)| == digits
              && (forall k :: 0 <= k < digits ==> '0' <= RemoveSpace(token)[k] <= '9')
              && exists c :: time / step - window <= c <= time / step + window && 0 <= c < 0x1_0000_0000_0000_0000
                             && RemoveSpace(token) == CodeOf(mac, Decoded(secret).bytes, c, digits)
    // and it is, wherever the window lies among the counters that fit eight bytes; only elsewhere it throws
    ensures 0 <= time / step - window && time / step + window < 0x1_0000_0000_0000_0000 ==>
              && r != Thrown
              && (digits >= 1 && Decoded(secret).Bytes?
                  && (exists c :: time / step - window <= c <= time / step + window
                                  && RemoveSpace(token) == CodeOf(mac, Decoded(secret).bytes, c, digits)) ==>
                  r == Accepted)
  {
    var normalized := RemoveSpace(token);
    AcceptedMeans(mac, secret, token, time / step, digits, window);
    if 0 <= time / step - window && time / step + window < 0x1_0000_0000_0000_0000 {
      CodesAreAccepted(mac, secret, token, time / step, digits, window);
    }
    if !AllDigits(normalized) || normalized == "" || |normalized| != digits {
      return Rejected;
    }
    var decoding := Decode(secret);
    if decoding.InvalidCharacter? {
      return Rejected;
    }
    r := ScanWindow(CodesOf(mac, decoding.bytes, digits), normalized, time / step, window);
  }

  // ---- Clock drift (RFC 6238 section 5.2) ----

  /** Times at most `w` steps apart have counters at most `w` apart; `w + 1` steps apart, more. */
  lemma DriftBound(t: int, t': int, w: nat, s: nat)
    requires s >= 1
    ensures -(w * s) <= t - t' <= w * s ==> 0 - w <= t / s - t' / s <= w
    ensures t - t' >= (w + 1) * s || t' - t >= (w + 1) * s ==> !(0 - w <= t / s - t' / s <= w)
  {
    assert (w + 1) * s == w * s + s && (-(w + 1)) * s == -(w * s) - s;
    if -(w * s) <= t - t' <= w * s {
      QuotientStep(t, t', w, s);
      QuotientStep(t', t, w, s);
    }
    if t - t' >= (w + 1) * s {
      QuotientStep(t', t, -(w + 1), s);
    }
    if t' - t >= (w + 1) * s {
      QuotientStep(t, t', -(w + 1), s);
    }
  }

  /**
   * Every code generated within `window` steps of the verifier's clock is accepted, however it is spaced,
   * exactly if the window does not start below zero; there `verifyTotp` throws.
   */
  lemma AcceptsWithinWindow(mac: Mac, secret: string, t': int, t: int, step: nat, digits: nat, window: nat)
    requires step >= 1 && digits >= 1 && -(window * step) <= t - t' <= window * step
    ensures var generated := Generate(mac, secret, t', step, digits);
            forall token :: generated == Code(RemoveSpace(token)) ==>
              Answer(mac, secret, token, t, step, digits, window) == if t / step >= window then Accepted else Thrown
  {
    DriftBound(t, t', window, step);
    forall token | Generate(mac, secret, t', step, digits) == Code(RemoveSpace(token))
      ensures Answer(mac, secret, token, t, step, digits, window) == if t / step >= window then Accepted else Thrown
    {
      AcceptsNearCounter(mac, Decoded(secret).bytes, token, t' / step, t / step, digits, window);
    }
  }

  lemma AcceptsNearCounter(mac: Mac, key: bytestring, token: string, c': int, c: int, digits: nat, window: nat)
    requires digits >= 1 && c - window <= c' <= c + window
    ensures Hotp(mac, key, c', digits) == Code(RemoveSpace(token)) ==>
              WellFormed(token, digits) && InWindow(CodesOf(mac, key, digits), RemoveSpace(token), c, window)
  {
    if Hotp(mac, key, c', digits) == Code(RemoveSpace(token)) {
      CodeShape(mac, key, c', digits);
      assert CodesOf(mac, key, digits)(c') == Code(RemoveSpace(token));
    }
  }
}
