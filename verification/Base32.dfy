/** Base32 of authenticator secrets (RFC 4648 section 6), with JavaScript's 32-bit operators. */
module Base32 {
  import opened Numerals
  import opened Sequences
  import opened Text

  type bytestring = s: seq<nat> | forall k :: 0 <= k < |s| ==> s[k] < 256
  type symbols = s: seq<nat> | forall k :: 0 <= k < |s| ==> s[k] < 32

  /** `ALPHABET[s]` */
  function Letter(s: nat): char
    requires s < 32
  {
    if s < 26 then 'A' + s as char else '2' + (s - 26) as char
  }

  /** `ALPHABET.indexOf(c)` */
  function Position(c: char): (i: int)
    ensures -1 <= i < 32
    ensures i >= 0 ==> Letter(i) == c
  {
    if 'A' <= c <= 'Z' then c as int - 'A' as int
    else if '2' <= c <= '7' then c as int - '2' as int + 26
    else -1
  }

  lemma LetterPosition(s: nat)
    requires s < 32
    ensures Position(Letter(s)) == s
  {
  }

  /** The two functions above are indexing and searching the alphabet of RFC 4648, table 3. */
  lemma AlphabetIs(s: nat)
    requires s < 32
    ensures "ABCDEFGHIJKLMNOPQRSTUVWXYZ234567"[s] == Letter(s)
  {
  }

  datatype Decoding = Bytes(bytes: bytestring) | InvalidCharacter(c: char)

  // ---- JavaScript's bitwise operators on numbers ----

  /** The signed 32-bit reading of an integer. */
  function Int32(x: int): (r: int)
    ensures -0x8000_0000 <= r < 0x8000_0000
  {
    (x + 0x8000_0000) % 0x1_0000_0000 - 0x8000_0000
  }

  /** `v << k` */
  function Shl(v: int, k: nat): int { Int32(Scale(v, k)) }

  /** `v >>> k` */
  function Ushr(v: int, k: nat): int { High(v % 0x1_0000_0000, k) }

  /** `v | x` where `x` fits into `w` low bits that are zero in `v`: no one bit is shared. */
  function Or(v: int, x: nat, ghost w: nat): int
    requires Clear(v, w) && Fits(x, w)
  {
    v + x
  }

  // ---- Why wrapping is harmless: only low bits are ever read ----

  /** Reducing modulo 2^32, signed or not, keeps the low 32 bits of a sum. */
  lemma WrappedBits(y: int, x: int, k: nat)
    requires k <= 32
    ensures BitsOf(Int32(y) + x, k) == BitsOf(y + x, k)
    ensures BitsOf(y % 0x1_0000_0000 + x, k) == BitsOf(y + x, k)
  {
    var z, z' := (y + 0x8000_0000) / 0x1_0000_0000, y / 0x1_0000_0000;
    Scale32(-z);
    Scale32(-z');
    BitsIgnoreHigh(y + x, -z, 32, k);
    BitsIgnoreHigh(y + x, -z', 32, k);
  }

  lemma ShlClears(v: int, w: nat)
    requires w <= 32
    ensures Clear(Shl(v, w), w)
  {
    var z := (Scale(v, w) + 0x8000_0000) / 0x1_0000_0000;
    Scale32(-z);
    ScaleScale(-z, 32 - w, w);
    ScaleSum(v, Scale(-z, 32 - w), w);
  }

  /** Shifting `w` bits in appends them to the `b` live ones, whatever was lost at the top. */
  lemma ShiftIn(v: int, x: nat, b: nat, w: nat)
    requires b + w <= 32 && Fits(x, w)
    ensures Clear(Shl(v, w), w)
    ensures BitsOf(Or(Shl(v, w), x, w), b + w) == Join(BitsOf(v, b), BitsOf(x, w))
  {
    ShlClears(v, w);
    WrappedBits(Scale(v, w), x, b + w);
    AppendNumber(v, x, b, w);
  }

  lemma AppendNumber(v: int, x: nat, b: nat, w: nat)
    requires Fits(x, w)
    ensures BitsOf(Scale(v, w) + x, b + w) == Join(BitsOf(v, b), BitsOf(x, w))
  {
    LenBits(x, w);
    FitsLow(x, w);
    BitsAppend(v, b, BitsOf(x, w));
  }

  /** The same for a number on its own. */
  lemma WrappedNumber(y: int, k: nat)
    requires k <= 32
    ensures BitsOf(Int32(y), k) == BitsOf(y, k)
    ensures BitsOf(y % 0x1_0000_0000, k) == BitsOf(y, k)
  {
    var z, z' := (y + 0x8000_0000) / 0x1_0000_0000, y / 0x1_0000_0000;
    Scale32(-z);
    Scale32(-z');
    BitsIgnoreHigh(y, -z, 32, k);
    BitsIgnoreHigh(y, -z', 32, k);
  }

  /** Shifting left puts zeros behind the live bits. */
  lemma AlignLeft(v: int, b: nat, w: nat)
    requires b + w <= 32
    ensures BitsOf(Shl(v, w), b + w) == Join(BitsOf(v, b), Zeros(w))
  {
    WrappedNumber(Scale(v, w), b + w);
    BitsScale(v, b, w);
  }

  /** The top `w` of `k + w` live bits are what the right shift and the mask read; the others stay live. */
  lemma ReadTop(v: int, k: nat, w: nat)
    requires k + w <= 32
    ensures BitsOf(v, w + k) == Join(BitsOf(Low(Ushr(v, k), w), w), BitsOf(v, k))
  {
    var u := v % 0x1_0000_0000;
    WrappedNumber(v, w + k);
    WrappedNumber(v, k);
    BitsSplit(u, w, k);
    BitsOfLow(High(u, k), w);
  }

  // ---- Reference: one bit stream, cut into bytes or into symbols (RFC 4648 section 6) ----

  function Chars(syms: symbols): (text: string)
    ensures |text| == |syms|
  {
    if |syms| == 0 then "" else Chars(syms[..|syms| - 1]) + [Letter(syms[|syms| - 1])]
  }

  lemma CharsSnoc(syms: symbols, s: nat)
    requires s < 32
    ensures Chars(syms + [s]) == Chars(syms) + [Letter(s)]
  {
    assert (syms + [s])[..|syms|] == syms;
  }

  /** Symbols for a number of bytes: `ceil(8 * bytes / 5)`. */
  function SymbolCount(bytes: nat): (m: nat)
    ensures 8 * bytes <= 5 * m < 8 * bytes + 5
  {
    (8 * bytes + 4) / 5
  }

  /** Zero bits that fill up the last symbol. */
  function Fill(bytes: nat): (f: nat)
    ensures f < 5
  {
    5 * SymbolCount(bytes) - 8 * bytes
  }

  /** Whole bytes in a number of symbols. */
  function ByteCount(count: nat): (n: nat)
    ensures 8 * n <= 5 * count < 8 * n + 8
  {
    5 * count / 8
  }

  /** Bits of the last symbols that belong to no byte. */
  function Surplus(count: nat): (c: nat)
    ensures c < 8
  {
    5 * count - 8 * ByteCount(count)
  }

  lemma ByteFits(x: nat)
    requires x < 256
    ensures Fits(x, 8)
  {
    FitsLow(x, 8);
    LowByte(x);
  }

  lemma SymbolFits(x: nat)
    requires x < 32
    ensures Fits(x, 5)
  {
    FitsLow(x, 5);
    LowSymbol(x);
  }

  lemma BytesFit(b: bytestring)
    ensures FitAll(b, 8)
  {
    forall k | 0 <= k < |b| ensures Fits(b[k], 8) {
      ByteFits(b[k]);
    }
  }

  lemma SymbolsFit(syms: symbols)
    ensures FitAll(syms, 5)
  {
    forall k | 0 <= k < |syms| ensures Fits(syms[k], 5) {
      SymbolFits(syms[k]);
    }
  }

  /** The symbols a stream of bits is made of. */
  ghost function ToSymbols(len: nat, bits: Bits): (syms: symbols)
    requires Len(bits) == 5 * len
    ensures |syms| == len && SymbolBits(syms) == bits
  {
    SymbolsExist(len, bits);
    var syms: symbols :| |syms| == len && SymbolBits(syms) == bits;
    syms
  }

  /** The bytes a stream of bits is made of. */
  ghost function ToBytes(len: nat, bits: Bits): (b: bytestring)
    requires Len(bits) == 8 * len
    ensures |b| == len && ByteBits(b) == bits
  {
    BytesExist(len, bits);
    var b: bytestring :| |b| == len && ByteBits(b) == bits;
    b
  }

  lemma SymbolsExist(len: nat, bits: Bits)
    requires Len(bits) == 5 * len
    ensures exists syms: symbols :: |syms| == len && SymbolBits(syms) == bits
  {
    SpanValues(5, len);
    var ds := StreamSurjective(5, len, bits);
    FittingSymbols(ds);
    var syms: symbols := ds;
    assert |syms| == len && SymbolBits(syms) == bits;
  }

  lemma BytesExist(len: nat, bits: Bits)
    requires Len(bits) == 8 * len
    ensures exists b: bytestring :: |b| == len && ByteBits(b) == bits
  {
    SpanValues(8, len);
    var ds := StreamSurjective(8, len, bits);
    FittingBytes(ds);
    var b: bytestring := ds;
    assert |b| == len && ByteBits(b) == bits;
  }

  function SymbolBits(syms: symbols): Bits { Stream(5, syms) }

  function ByteBits(b: bytestring): Bits { Stream(8, b) }

  lemma LenSymbols(syms: symbols)
    ensures Len(SymbolBits(syms)) == 5 * |syms|
  {
    SpanValues(5, |syms|);
    LenStream(5, syms);
  }

  lemma LenBytes(b: bytestring)
    ensures Len(ByteBits(b)) == 8 * |b|
  {
    SpanValues(8, |b|);
    LenStream(8, b);
  }

  lemma FittingSymbols(ds: seq<nat>)
    requires FitAll(ds, 5)
    ensures forall k :: 0 <= k < |ds| ==> ds[k] < 32
  {
    forall k | 0 <= k < |ds| ensures ds[k] < 32 {
      FitsLow(ds[k], 5);
      LowSymbol(ds[k]);
    }
  }

  lemma FittingBytes(ds: seq<nat>)
    requires FitAll(ds, 8)
    ensures forall k :: 0 <= k < |ds| ==> ds[k] < 256
  {
    forall k | 0 <= k < |ds| ensures ds[k] < 256 {
      FitsLow(ds[k], 8);
      LowByte(ds[k]);
    }
  }

  /** The bits determine the symbols. */
  lemma SymbolsFromBits(syms: symbols, syms': symbols)
    requires SymbolBits(syms) == SymbolBits(syms')
    ensures syms == syms'
  {
    LenSymbols(syms);
    LenSymbols(syms');
    SymbolsFit(syms);
    SymbolsFit(syms');
    StreamInjective(5, syms, syms');
  }

  /** The bits determine the bytes. */
  lemma BytesFromBits(b: bytestring, b': bytestring)
    requires ByteBits(b) == ByteBits(b')
    ensures b == b'
  {
    LenBytes(b);
    LenBytes(b');
    BytesFit(b);
    BytesFit(b');
    StreamInjective(8, b, b');
  }

  /** The bytes' bits, with zeros appended up to a whole number of symbols. */
  ghost function EncodedSymbols(b: bytestring): (syms: symbols)
    ensures |syms| == SymbolCount(|b|)
    ensures SymbolBits(syms) == Join(ByteBits(b), Zeros(Fill(|b|)))
  {
    LenFilled(b);
    ToSymbols(SymbolCount(|b|), Join(ByteBits(b), Zeros(Fill(|b|))))
  }

  lemma LenFilled(b: bytestring)
    ensures Len(Join(ByteBits(b), Zeros(Fill(|b|)))) == 5 * SymbolCount(|b|)
  {
    LenBytes(b);
    LenZeros(Fill(|b|));
    LenJoin(ByteBits(b), Zeros(Fill(|b|)));
  }

  ghost function Encoded(b: bytestring): string { Chars(EncodedSymbols(b)) }

  predicate Readable(text: string) { forall k :: 0 <= k < |text| ==> Position(text[k]) >= 0 }

  function Symbols(text: string): (syms: symbols)
    requires Readable(text)
    ensures |syms| == |text|
  {
    if |text| == 0 then [] else Symbols(text[..|text| - 1]) + [Position(text[|text| - 1])]
  }

  function UpperAll(s: string): (r: string)
    ensures |r| == |s| && forall k :: 0 <= k < |s| ==> r[k] == Upper(s[k])
  {
    seq(|s|, k requires 0 <= k < |s| => Upper(s[k]))
  }

  /** `replace(/=+$/g, '')`: the run of `=` that ends the string. */
  function StripPadding(s: string): (r: string)
    ensures r == "" || r[|r| - 1] != '='
  {
    if |s| != 0 && s[|s| - 1] == '=' then StripPadding(s[..|s| - 1]) else s
  }

  function RemoveSpace(s: string): string
  {
    if |s| == 0 then ""
    else
      var front := RemoveSpace(s[..|s| - 1]);
      if IsSpace(s[|s| - 1]) then front else front + [s[|s| - 1]]
  }

  function Cleaned(input: string): string { RemoveSpace(StripPadding(UpperAll(input))) }

  function FirstUnreadable(text: string): (k: nat)
    requires !Readable(text)
    ensures k < |text| && Position(text[k]) < 0 && Readable(text[..k])
  {
    if Position(text[0]) < 0 then 0
    else FirstUnreadable(text[1..]) + 1
  }

  /** The symbols' bits, without the 0 to 7 that fill no byte. */
  ghost function DecodedSymbols(syms: symbols): (b: bytestring)
    ensures |b| == ByteCount(|syms|)
    ensures Surplus(|syms|) <= Len(SymbolBits(syms))
    ensures ByteBits(b) == Front(SymbolBits(syms), Surplus(|syms|))
  {
    LenSymbols(syms);
    ToBytes(ByteCount(|syms|), Front(SymbolBits(syms), Surplus(|syms|)))
  }

  ghost function Decoded(input: string): Decoding
  {
    var text := Cleaned(input);
    if Readable(text) then Bytes(DecodedSymbols(Symbols(text)))
    else InvalidCharacter(text[FirstUnreadable(text)])
  }

  // ---- The two loops ----

  lemma Absorb(stream: Bits, done: Bits, x: nat, w: nat, bits: nat, value: int)
    requires bits + w <= 32 && Fits(x, w)
    requires stream == Join(done, BitsOf(value, bits))
    ensures Clear(Shl(value, w), w)
    ensures Join(stream, BitsOf(x, w)) == Join(done, BitsOf(Or(Shl(value, w), x, w), bits + w))
  {
    ShiftIn(value, x, bits, w);
    JoinAssociates(done, BitsOf(value, bits), BitsOf(x, w));
  }

  /** The bytes and the live bits of `value` are all that was read. */
  ghost predicate Reads(syms: symbols, bytes: bytestring, bits: nat, value: int)
  {
    SymbolBits(syms) == Join(ByteBits(bytes), BitsOf(value, bits))
  }

  /** The symbols and the live bits of `value` are the bytes' bits. */
  ghost predicate Writes(b: bytestring, syms: symbols, bits: nat, value: int)
  {
    ByteBits(b) == Join(SymbolBits(syms), BitsOf(value, bits))
  }

  lemma AbsorbByte(buffer: bytestring, i: nat, syms: symbols, bits: nat, value: int)
    requires i < |buffer| && bits < 5 && Writes(buffer[..i], syms, bits, value)
    ensures Clear(Shl(value, 8), 8) && Fits(buffer[i], 8)
    ensures Writes(buffer[..i + 1], syms, bits + 8, Or(Shl(value, 8), buffer[i], 8))
  {
    ByteFits(buffer[i]);
    Absorb(ByteBits(buffer[..i]), SymbolBits(syms), buffer[i], 8, bits, value);
    StreamSnoc(8, buffer[..i], buffer[i]);
    PrefixSnoc(buffer, i);
  }

  lemma AbsorbSymbol(syms: symbols, idx: nat, bytes: bytestring, bits: nat, value: int)
    requires idx < 32 && bits < 8 && Reads(syms, bytes, bits, value)
    ensures Clear(Shl(value, 5), 5) && Fits(idx, 5)
    ensures Reads(syms + [idx], bytes, bits + 5, Or(Shl(value, 5), idx, 5))
  {
    SymbolFits(idx);
    Absorb(SymbolBits(syms), ByteBits(bytes), idx, 5, bits, value);
    StreamSnoc(5, syms, idx);
  }

  lemma MaskedByte(n: int)
    ensures n % 256 == Low(n, 8)
  {
    LowByte(n);
  }

  lemma MaskedSymbol(n: int)
    ensures n % 32 == Low(n, 5)
  {
    LowSymbol(n);
  }

  lemma Emit(stream: Bits, done: Bits, w: nat, bits: nat, value: int)
    requires w <= bits <= 32 && stream == Join(done, BitsOf(value, bits))
    ensures stream == Join(Join(done, BitsOf(Low(Ushr(value, bits - w), w), w)), BitsOf(value, bits - w))
  {
    ReadTop(value, bits - w, w);
    JoinAssociates(done, BitsOf(Low(Ushr(value, bits - w), w), w), BitsOf(value, bits - w));
  }

  lemma EmitSymbol(b: bytestring, syms: symbols, bits: nat, value: int)
    requires 5 <= bits <= 32 && Writes(b, syms, bits, value)
    ensures Writes(b, syms + [Ushr(value, bits - 5) % 32], bits - 5, value)
  {
    var s := Ushr(value, bits - 5) % 32;
    MaskedSymbol(Ushr(value, bits - 5));
    Emit(ByteBits(b), SymbolBits(syms), 5, bits, value);
    StreamSnoc(5, syms, s);
  }

  lemma EmitByte(syms: symbols, bytes: bytestring, bits: nat, value: int)
    requires 8 <= bits <= 32 && Reads(syms, bytes, bits, value)
    ensures Reads(syms, bytes + [Ushr(value, bits - 8) % 256], bits - 8, value)
  {
    var byte := Ushr(value, bits - 8) % 256;
    MaskedByte(Ushr(value, bits - 8));
    Emit(SymbolBits(syms), ByteBits(bytes), 8, bits, value);
    StreamSnoc(8, bytes, byte);
  }

  lemma FlushBits(stream: Bits, done: Bits, bits: nat, fill: nat, value: int)
    requires bits + fill <= 32
    requires stream == Join(done, BitsOf(value, bits))
    ensures Join(done, BitsOf(Low(Shl(value, fill), bits + fill), bits + fill)) == Join(stream, Zeros(fill))
  {
    BitsOfLow(Shl(value, fill), bits + fill);
    AlignLeft(value, bits, fill);
    JoinAssociates(done, BitsOf(value, bits), Zeros(fill));
  }

  lemma FillIs(bytes: nat, count: nat, bits: nat)
    requires 0 < bits < 5 && 8 * bytes == 5 * count + bits
    ensures Fill(bytes) == 5 - bits && SymbolCount(bytes) == count + 1
  {
  }

  lemma LastSymbol(buffer: bytestring, syms: symbols, s: nat)
    requires s < 32 && SymbolCount(|buffer|) == |syms| + 1
    requires Join(SymbolBits(syms), BitsOf(s, 5)) == Join(ByteBits(buffer), Zeros(Fill(|buffer|)))
    ensures EncodedSymbols(buffer) == syms + [s]
  {
    StreamSnoc(5, syms, s);
    SymbolsFromBits(EncodedSymbols(buffer), syms + [s]);
  }

  /** The left-aligned remaining bits and zeros complete the last symbol. */
  lemma Flush(buffer: bytestring, syms: symbols, bits: nat, value: int)
    requires 0 < bits < 5 && Writes(buffer, syms, bits, value)
    ensures EncodedSymbols(buffer) == syms + [Shl(value, 5 - bits) % 32]
  {
    MaskedSymbol(Shl(value, 5 - bits));
    FlushBits(ByteBits(buffer), SymbolBits(syms), bits, 5 - bits, value);
    LenWritten(buffer, syms, bits, value);
    FillIs(|buffer|, |syms|, bits);
    LastSymbol(buffer, syms, Shl(value, 5 - bits) % 32);
  }

  lemma LenWritten(b: bytestring, syms: symbols, bits: nat, value: int)
    requires Writes(b, syms, bits, value)
    ensures 8 * |b| == 5 * |syms| + bits
  {
    LenBytes(b);
    LenSymbols(syms);
    LenBits(value, bits);
    LenJoin(SymbolBits(syms), BitsOf(value, bits));
  }

  lemma LenRead(syms: symbols, bytes: bytestring, bits: nat, value: int)
    requires Reads(syms, bytes, bits, value)
    ensures 5 * |syms| == 8 * |bytes| + bits && Len(BitsOf(value, bits)) == bits
  {
    LenBytes(bytes);
    LenSymbols(syms);
    LenBits(value, bits);
    LenJoin(ByteBits(bytes), BitsOf(value, bits));
  }

  lemma NoFill(bytes: nat, count: nat)
    requires 8 * bytes == 5 * count
    ensures Fill(bytes) == 0
  {
    assert Fill(bytes) == 5 * (SymbolCount(bytes) - count);
    assert 0 <= SymbolCount(bytes) - count < 1;
  }

  lemma NoBits(bits: Bits, n: int)
    ensures Join(bits, BitsOf(n, 0)) == Join(bits, Zeros(0)) == bits
  {
  }

  lemma NothingToFlush(buffer: bytestring, syms: symbols, value: int)
    requires Writes(buffer, syms, 0, value)
    ensures EncodedSymbols(buffer) == syms
  {
    LenWritten(buffer, syms, 0, value);
    NoFill(|buffer|, |syms|);
    NoBits(SymbolBits(syms), value);
    NoBits(ByteBits(buffer), value);
    SymbolsFromBits(EncodedSymbols(buffer), syms);
  }

  lemma SurplusIs(count: nat, bytes: nat, bits: nat)
    requires bits < 8 && 5 * count == 8 * bytes + bits
    ensures Surplus(count) == bits && ByteCount(count) == bytes
  {
  }

  lemma CutOff(syms: symbols, bytes: bytestring, bits: nat, value: int)
    requires bits < 8 && Reads(syms, bytes, bits, value)
    ensures DecodedSymbols(syms) == bytes
  {
    LenRead(syms, bytes, bits, value);
    SurplusIs(|syms|, |bytes|, bits);
    JoinParts(ByteBits(bytes), BitsOf(value, bits));
    BytesFromBits(DecodedSymbols(syms), bytes);
  }

  lemma SymbolsSnoc(text: string, i: nat)
    requires i < |text| && Readable(text[..i]) && Position(text[i]) >= 0
    ensures Readable(text[..i + 1])
    ensures Symbols(text[..i + 1]) == Symbols(text[..i]) + [Position(text[i])]
  {
    assert text[..i + 1][..i] == text[..i];
  }

  method Encode(buffer: bytestring) returns (output: string)
    ensures |output| == SymbolCount(|buffer|)
    ensures output == Encoded(buffer)
  {
    var bits, value := 0, 0;
    output := "";
    ghost var syms: symbols := [];
    for i := 0 to |buffer|
      invariant 0 <= bits < 5
      invariant output == Chars(syms)
      invariant Writes(buffer[..i], syms, bits, value)
    {
      AbsorbByte(buffer, i, syms, bits, value);
      value := Or(Shl(value, 8), buffer[i], 8);
      bits := bits + 8;
      while bits >= 5
        invariant 0 <= bits <= 12
        invariant output == Chars(syms)
        invariant Writes(buffer[..i + 1], syms, bits, value)
      {
        EmitSymbol(buffer[..i + 1], syms, bits, value);
        var s := Ushr(value, bits - 5) % 32;
        CharsSnoc(syms, s);
        syms := syms + [s];
        output := output + [Letter(s)];
        bits := bits - 5;
      }
    }
    WholePrefix(buffer);
    if bits > 0 {
      Flush(buffer, syms, bits, value);
      CharsSnoc(syms, Shl(value, 5 - bits) % 32);
      output := output + [Letter(Shl(value, 5 - bits) % 32)];
    } else {
      NothingToFlush(buffer, syms, value);
    }
  }

  method Decode(input: string) returns (r: Decoding)
    ensures r == Decoded(input)
  {
    var cleaned := Cleaned(input);
    var bits, value := 0, 0;
    var bytes: bytestring := [];
    ghost var syms: symbols := [];
    for i := 0 to |cleaned|
      invariant Readable(cleaned[..i])
      invariant 0 <= bits < 8
      invariant syms == Symbols(cleaned[..i])
      invariant Reads(syms, bytes, bits, value)
    {
      var idx := Position(cleaned[i]);
      if idx == -1 {
        FirstIs(cleaned, i);
        return InvalidCharacter(cleaned[i]);
      }
      AbsorbSymbol(syms, idx, bytes, bits, value);
      SymbolsSnoc(cleaned, i);
      syms := syms + [idx];
      value := Or(Shl(value, 5), idx, 5);
      bits := bits + 5;
      if bits >= 8 {
        var byte := Ushr(value, bits - 8) % 256;
        EmitByte(syms, bytes, bits, value);
        bytes := bytes + [byte];
        bits := bits - 8;
      }
    }
    WholePrefix(cleaned);
    CutOff(syms, bytes, bits, value);
    return Bytes(bytes);
  }

  lemma FirstIs(text: string, k: nat)
    requires k < |text| && Readable(text[..k]) && Position(text[k]) < 0
    ensures !Readable(text) && FirstUnreadable(text) == k
  {
    var f := FirstUnreadable(text);
    assert forall j :: 0 <= j < k ==> text[j] == text[..k][j];
    assert forall j :: 0 <= j < f ==> text[j] == text[..f][j];
  }

  // ---- What the pair promises ----

  lemma {:induction false} NoSpaceRemoved(text: string)
    requires Readable(text)
    ensures RemoveSpace(text) == text
  {
    if |text| != 0 {
      NoSpaceRemoved(text[..|text| - 1]);
      assert text == text[..|text| - 1] + [text[|text| - 1]];
    }
  }

  lemma ReadableUnchanged(text: string)
    requires Readable(text)
    ensures Cleaned(text) == text
  {
    assert UpperAll(text) == text;
    NoSpaceRemoved(text);
  }

  lemma ReadSymbol(text: string, s: nat)
    requires Readable(text) && s < 32
    ensures Readable(text + [Letter(s)]) && Symbols(text + [Letter(s)]) == Symbols(text) + [s]
  {
    LetterPosition(s);
    assert (text + [Letter(s)])[..|text|] == text;
  }

  lemma {:induction false} CharsSymbols(syms: symbols)
    ensures Readable(Chars(syms)) && Symbols(Chars(syms)) == syms
  {
    if |syms| != 0 {
      var front, last := syms[..|syms| - 1], syms[|syms| - 1];
      CharsSymbols(front);
      ReadSymbol(Chars(front), last);
      assert syms == front + [last];
    }
  }

  lemma {:induction false} SymbolsChars(text: string)
    requires Readable(text)
    ensures Chars(Symbols(text)) == text
  {
    if |text| != 0 {
      var front, last := text[..|text| - 1], text[|text| - 1];
      SymbolsChars(front);
      assert Symbols(text)[..|front|] == Symbols(front);
      assert text == front + [last];
    }
  }

  lemma FillIsSurplus(bytes: nat)
    ensures ByteCount(SymbolCount(bytes)) == bytes && Surplus(SymbolCount(bytes)) == Fill(bytes)
  {
  }

  /** Decoding undoes encoding, for every byte string. */
  lemma RoundTrip(b: bytestring)
    ensures Decoded(Encoded(b)) == Bytes(b)
    ensures |Encoded(b)| == (8 * |b| + 4) / 5 == SymbolCount(|b|) && Readable(Encoded(b))
  {
    var syms := EncodedSymbols(b);
    CharsSymbols(syms);
    ReadableUnchanged(Chars(syms));
    FillIsSurplus(|b|);
    LenZeros(Fill(|b|));
    JoinParts(ByteBits(b), Zeros(Fill(|b|)));
    BytesFromBits(DecodedSymbols(syms), b);
  }

  /** Unpadded text an encoder can produce: no superfluous symbol, zero fill bits (RFC 4648 section 3.5). */
  predicate Canonical(text: string)
  {
    && Readable(text)
    && Surplus(|text|) < 5
    && (LenSymbols(Symbols(text)); Back(SymbolBits(Symbols(text)), Surplus(|text|)) == Zeros(Surplus(|text|)))
  }

  lemma ReencodedCount(count: nat)
    ensures SymbolCount(ByteCount(count)) == count <==> Surplus(count) < 5
    ensures Surplus(count) < 5 ==> Fill(ByteCount(count)) == Surplus(count)
  {
  }

  lemma ReencodedSymbols(syms: symbols)
    ensures Surplus(|syms|) <= Len(SymbolBits(syms))
    ensures EncodedSymbols(DecodedSymbols(syms)) == syms <==>
            Surplus(|syms|) < 5 && Back(SymbolBits(syms), Surplus(|syms|)) == Zeros(Surplus(|syms|))
  {
    var bits, cut := SymbolBits(syms), Surplus(|syms|);
    LenSymbols(syms);
    ReencodedCount(|syms|);
    FrontBack(bits, cut);
    LenZeros(cut);
    if Surplus(|syms|) < 5 {
      JoinParts(Front(bits, cut), Zeros(cut));
      if Back(bits, cut) == Zeros(cut) {
        SymbolsFromBits(EncodedSymbols(DecodedSymbols(syms)), syms);
      }
    }
  }

  /** Text that decodes is reproduced by re-encoding exactly when it is canonical. */
  lemma ReencodesIffCanonical(text: string)
    requires Decoded(text).Bytes?
    ensures Encoded(Decoded(text).bytes) == text <==> Canonical(text)
  {
    CharsSymbols(EncodedSymbols(Decoded(text).bytes));
    if Readable(text) {
      ReadableUnchanged(text);
      var syms := Symbols(text);
      SymbolsChars(text);
      ReencodedSymbols(syms);
      CharsSymbols(syms);
      CharsSymbols(EncodedSymbols(DecodedSymbols(syms)));
    }
  }

  /** Letter case does not matter. */
  lemma CaseInsensitive(text: string, typed: string)
    requires |typed| == |text|
    requires forall k :: 0 <= k < |text| ==> typed[k] == text[k] || typed[k] == Lower(text[k])
    ensures Decoded(typed) == Decoded(text)
  {
    assert UpperAll(typed) == UpperAll(text);
  }

  lemma {:induction false} StripPads(text: string, pads: string)
    requires forall k :: 0 <= k < |pads| ==> pads[k] == '='
    ensures StripPadding(text + pads) == StripPadding(text)
  {
    if pads == "" {
      assert text + pads == text;
    } else {
      StripPads(text, pads[..|pads| - 1]);
      assert (text + pads)[..|text + pads| - 1] == text + pads[..|pads| - 1];
    }
  }

  /** A run of `=` ending the input does not matter. */
  lemma PaddingInsensitive(text: string, pads: string)
    requires forall k :: 0 <= k < |pads| ==> pads[k] == '='
    ensures Decoded(text + pads) == Decoded(text)
  {
    assert UpperAll(text + pads) == UpperAll(text) + UpperAll(pads);
    StripPads(UpperAll(text), UpperAll(pads));
  }

  lemma RemoveSpaceSnoc(s: string, c: char)
    ensures RemoveSpace(s + [c]) == if IsSpace(c) then RemoveSpace(s) else RemoveSpace(s) + [c]
  {
    assert (s + [c])[..|s|] == s;
  }

  lemma {:induction false} RemoveSpaceConcat(s: string, t: string)
    ensures RemoveSpace(s + t) == RemoveSpace(s) + RemoveSpace(t)
  {
    if |t| == 0 {
      assert s + t == s;
    } else {
      var front, last := t[..|t| - 1], t[|t| - 1];
      assert s + t == (s + front) + [last] && t == front + [last];
      RemoveSpaceConcat(s, front);
      RemoveSpaceSnoc(s + front, last);
      RemoveSpaceSnoc(front, last);
    }
  }

  lemma {:induction false} AllSpaceRemoved(blanks: string)
    requires forall k :: 0 <= k < |blanks| ==> IsSpace(blanks[k])
    ensures RemoveSpace(blanks) == ""
  {
    if blanks != "" {
      AllSpaceRemoved(blanks[..|blanks| - 1]);
    }
  }

  lemma {:induction false} StripBehind(s: string, t: string)
    ensures StripPadding(s + t) == if StripPadding(t) == "" then StripPadding(s) else s + StripPadding(t)
  {
    if t == "" {
      assert s + t == s;
    } else if t[|t| - 1] == '=' {
      StripBehind(s, t[..|t| - 1]);
      assert (s + t)[..|s + t| - 1] == s + t[..|t| - 1];
    }
  }

  /** Only padding follows, and padding precedes. */
  predicate InsidePadding(before: string, after: string)
  {
    StripPadding(after) == "" && before != "" && before[|before| - 1] == '='
  }

  lemma GapBeforePadding(before: string, blanks: string, after: string)
    requires blanks != "" && forall k :: 0 <= k < |blanks| ==> IsSpace(blanks[k])
    requires StripPadding(after) == ""
    ensures RemoveSpace(StripPadding(before + blanks + after)) == RemoveSpace(before)
  {
    StripBehind(before + blanks, after);
    assert IsSpace((before + blanks)[|before + blanks| - 1]);
    AllSpaceRemoved(blanks);
    RemoveSpaceConcat(before, blanks);
  }

  lemma GapInText(before: string, blanks: string, after: string)
    requires forall k :: 0 <= k < |blanks| ==> IsSpace(blanks[k])
    requires StripPadding(after) != ""
    ensures RemoveSpace(StripPadding(before + blanks + after)) == RemoveSpace(StripPadding(before + after))
  {
    StripBehind(before + blanks, after);
    StripBehind(before, after);
    AllSpaceRemoved(blanks);
    RemoveGap(before, blanks, StripPadding(after));
  }

  lemma RemoveGap(before: string, blanks: string, after: string)
    requires RemoveSpace(blanks) == ""
    ensures RemoveSpace(before + blanks + after) == RemoveSpace(before + after)
  {
    RemoveSpaceConcat(before, blanks);
    RemoveSpaceConcat(before + blanks, after);
    RemoveSpaceConcat(before, after);
  }

  lemma UpperConcat(s: string, t: string, u: string)
    ensures UpperAll(s + t + u) == UpperAll(s) + UpperAll(t) + UpperAll(u)
    ensures UpperAll(s + u) == UpperAll(s) + UpperAll(u)
  {
  }

  lemma EndsUnreadable(s: string)
    requires s != "" && s[|s| - 1] == '='
    ensures !Readable(RemoveSpace(s))
  {
    var text := RemoveSpace(s);
    assert text[|text| - 1] == '=';
  }

  lemma CleanedWithGap(before: string, blanks: string, after: string)
    requires blanks != "" && forall k :: 0 <= k < |blanks| ==> IsSpace(blanks[k])
    ensures StripPadding(after) != "" ==> Cleaned(before + blanks + after) == Cleaned(before + after)
    ensures StripPadding(after) == "" ==> Cleaned(before + blanks + after) == RemoveSpace(UpperAll(before))
    ensures StripPadding(after) == "" ==> Cleaned(before + after) == RemoveSpace(StripPadding(UpperAll(before)))
  {
    UpperConcat(before, blanks, after);
    assert UpperAll(blanks) == blanks;
    UpperKeepsPadding(after);
    if StripPadding(after) != "" {
      GapInText(UpperAll(before), blanks, UpperAll(after));
    } else {
      GapBeforePadding(UpperAll(before), blanks, UpperAll(after));
      StripBehind(UpperAll(before), UpperAll(after));
    }
  }

  /** White space does not matter, except that none may follow padding: `MY======` and a line break is rejected. */
  lemma SpaceInsensitive(before: string, blanks: string, after: string)
    requires blanks != "" && forall k :: 0 <= k < |blanks| ==> IsSpace(blanks[k])
    requires Decoded(before + after).Bytes?
    ensures Decoded(before + blanks + after) == Decoded(before + after) <==> !InsidePadding(before, after)
    ensures InsidePadding(before, after) ==> Decoded(before + blanks + after).InvalidCharacter?
  {
    CleanedWithGap(before, blanks, after);
    if InsidePadding(before, after) {
      EndsUnreadable(UpperAll(before));
    }
  }

  /** The exception in general: white space behind a secret's padding makes it invalid. */
  lemma SpaceBehindPadding(text: string, pads: string, blanks: string)
    requires Readable(text) && pads != "" && forall k :: 0 <= k < |pads| ==> pads[k] == '='
    requires blanks != "" && forall k :: 0 <= k < |blanks| ==> IsSpace(blanks[k])
    ensures Decoded(text + pads).Bytes? && Decoded(text + pads + blanks).InvalidCharacter?
  {
    ReadableUnchanged(text);
    PaddingInsensitive(text, pads);
    assert text + pads + "" == text + pads && text + pads + blanks + "" == text + pads + blanks;
    SpaceInsensitive(text + pads, blanks, "");
  }

  /** A padded secret, and the same with a line break typed behind it. */
  lemma PaddedLineRejected()
    ensures Decoded("MY" + "======").Bytes? && Decoded("MY" + "======" + "\n").InvalidCharacter?
  {
    SpaceBehindPadding("MY", "======", "\n");
  }

  lemma {:induction false} UpperKeepsPadding(s: string)
    ensures StripPadding(UpperAll(s)) == UpperAll(StripPadding(s))
  {
    if s != "" {
      UpperKeepsPadding(s[..|s| - 1]);
      assert UpperAll(s)[..|s| - 1] == UpperAll(s[..|s| - 1]);
    }
  }
}
