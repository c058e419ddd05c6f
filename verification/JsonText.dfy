// Strings and numbers as JSON.stringify prints them (ECMA-262 section 25.5.2 and
// Number::toString), and a reader that undoes the printing (RFC 8259 sections 6
// and 7). A text is a sequence of UTF-16 code units.
module JsonText {
  import opened Ordering

  datatype Option<+T> = None | Some(value: T)

  type Unit = u: int | 0 <= u < 0x10000

  type Text = seq<Unit>

  const QUOTE: Unit := 34
  const BACKSLASH: Unit := 92
  const MINUS: Unit := 45
  const PLUS: Unit := 43
  const POINT: Unit := 46
  const EXPONENT: Unit := 101

  // ----- Strings --------------------------------------------------------------------

  predicate High(u: Unit) { 0xD800 <= u <= 0xDBFF }

  predicate Low(u: Unit) { 0xDC00 <= u <= 0xDFFF }

  predicate Paired(s: Text) {
    |s| >= 2 && High(s[0]) && Low(s[1])
  }

  function HexDigit(d: int): Unit
    requires 0 <= d < 16
  {
    if d < 10 then 48 + d else 87 + d
  }

  function HexValue(u: Unit): int {
    if 48 <= u <= 57 then u - 48 else if 97 <= u <= 102 then u - 87 else 16
  }

  function Hex4(u: Unit): Text {
    [HexDigit(u / 4096), HexDigit(u / 256 % 16), HexDigit(u / 16 % 16), HexDigit(u % 16)]
  }

  // The letter of a two-character escape, or 0.
  function ShortEscape(u: Unit): Unit {
    if u == 8 then 98 else if u == 9 then 116 else if u == 10 then 110
    else if u == 12 then 102 else if u == 13 then 114
    else if u == QUOTE then QUOTE else if u == BACKSLASH then BACKSLASH else 0
  }

  function EscapeUnit(u: Unit): Text {
    if ShortEscape(u) != 0 then [BACKSLASH, ShortEscape(u)]
    else if u < 32 || High(u) || Low(u) then [BACKSLASH, 117] + Hex4(u)
    else [u]
  }

  // Paired surrogates stay as they are, lone ones are escaped.
  function Escape(s: Text): Text {
    if s == [] then []
    else if Paired(s) then [s[0], s[1]] + Escape(s[2..])
    else EscapeUnit(s[0]) + Escape(s[1..])
  }

  function PrintString(s: Text): Text {
    [QUOTE] + Escape(s) + [QUOTE]
  }

  function Unescape(letter: Unit): Option<Unit> {
    if letter == 98 then Some(8) else if letter == 116 then Some(9) else if letter == 110 then Some(10)
    else if letter == 102 then Some(12) else if letter == 114 then Some(13)
    else if letter == QUOTE then Some(QUOTE) else if letter == BACKSLASH then Some(BACKSLASH) else None
  }

  function FromHex4(t: Text): Option<Unit>
    requires |t| >= 4
  {
    var a, b, c, d := HexValue(t[0]), HexValue(t[1]), HexValue(t[2]), HexValue(t[3]);
    if a < 16 && b < 16 && c < 16 && d < 16 then Some(a * 4096 + b * 256 + c * 16 + d) else None
  }

  function Prefixed<T>(x: T, r: Option<(seq<T>, Text)>): Option<(seq<T>, Text)> {
    match r case None => None case Some(p) => Some(([x] + p.0, p.1))
  }

  // The rest of a string after its opening quote, and what follows the closing one.
  function ReadString(t: Text): (r: Option<(Text, Text)>)
    ensures r.Some? ==> |r.value.1| < |t|
    decreases |t|
  {
    if t == [] then None
    else if t[0] == QUOTE then Some(([], t[1..]))
    else if t[0] != BACKSLASH then Prefixed(t[0], ReadString(t[1..]))
    else if |t| >= 6 && t[1] == 117 then
      match FromHex4(t[2..]) case None => None case Some(u) => Prefixed(u, ReadString(t[6..]))
    else if |t| >= 2 then
      match Unescape(t[1]) case None => None case Some(u) => Prefixed(u, ReadString(t[2..]))
    else None
  }

  lemma HexRoundTrip(u: Unit, t: Text)
    ensures FromHex4(Hex4(u) + t) == Some(u)
  {
    var a, b, c, d := u / 4096, u / 256 % 16, u / 16 % 16, u % 16;
    assert u == a * 4096 + b * 256 + c * 16 + d by {
      assert u / 16 == (u / 256) * 16 + c && u / 256 == a * 16 + b;
    }
    assert (Hex4(u) + t)[0] == HexDigit(a) && (Hex4(u) + t)[1] == HexDigit(b);
    assert (Hex4(u) + t)[2] == HexDigit(c) && (Hex4(u) + t)[3] == HexDigit(d);
  }

  lemma ShortRoundTrip(u: Unit, t: Text)
    requires ShortEscape(u) != 0
    ensures ReadString([BACKSLASH, ShortEscape(u)] + t) == Prefixed(u, ReadString(t))
  {
    var e := [BACKSLASH, ShortEscape(u)] + t;
    assert e[0] == BACKSLASH && e[1] == ShortEscape(u) && e[2..] == t;
  }

  lemma LongRoundTrip(u: Unit, t: Text)
    ensures ReadString([BACKSLASH, 117] + Hex4(u) + t) == Prefixed(u, ReadString(t))
  {
    var e := [BACKSLASH, 117] + Hex4(u) + t;
    HexRoundTrip(u, t);
    assert e[0] == BACKSLASH && e[1] == 117 && e[2..] == Hex4(u) + t && e[6..] == t;
  }

  lemma RawRoundTrip(u: Unit, t: Text)
    requires u != QUOTE && u != BACKSLASH
    ensures ReadString([u] + t) == Prefixed(u, ReadString(t))
  {
    assert ([u] + t)[1..] == t;
  }

  lemma UnitRoundTrip(u: Unit, t: Text)
    ensures ReadString(EscapeUnit(u) + t) == Prefixed(u, ReadString(t))
  {
    if ShortEscape(u) != 0 {
      ShortRoundTrip(u, t);
    } else if u < 32 || High(u) || Low(u) {
      LongRoundTrip(u, t);
    } else {
      RawRoundTrip(u, t);
    }
  }

  lemma PairRoundTrip(s: Text, front: Text, t: Text)
    requires Paired(s) && ReadString(front) == Some((s[2..], t))
    ensures ReadString([s[0], s[1]] + front) == Some((s, t))
  {
    RawRoundTrip(s[1], front);
    RawRoundTrip(s[0], [s[1]] + front);
    assert [s[0], s[1]] + front == [s[0]] + ([s[1]] + front);
    assert [s[0]] + ([s[1]] + s[2..]) == s;
  }

  lemma UnitFirst(s: Text, front: Text, t: Text)
    requires s != [] && ReadString(front) == Some((s[1..], t))
    ensures ReadString(EscapeUnit(s[0]) + front) == Some((s, t))
  {
    UnitRoundTrip(s[0], front);
    assert [s[0]] + s[1..] == s;
  }

  // A string is read back whatever follows its closing quote.
  lemma {:induction false} EscapeRoundTrip(s: Text, t: Text)
    ensures ReadString(Escape(s) + ([QUOTE] + t)) == Some((s, t))
    decreases |s|
  {
    var close := [QUOTE] + t;
    if s == [] {
      assert Escape(s) + close == close && close[1..] == t;
    } else if Paired(s) {
      EscapeRoundTrip(s[2..], t);
      PairRoundTrip(s, Escape(s[2..]) + close, t);
      Assoc([s[0], s[1]], Escape(s[2..]), close);
    } else {
      EscapeRoundTrip(s[1..], t);
      UnitFirst(s, Escape(s[1..]) + close, t);
      Assoc(EscapeUnit(s[0]), Escape(s[1..]), close);
    }
  }

  lemma StringRoundTrip(s: Text, t: Text)
    ensures (PrintString(s) + t)[0] == QUOTE && ReadString((PrintString(s) + t)[1..]) == Some((s, t))
  {
    var body := Escape(s) + ([QUOTE] + t);
    EscapeRoundTrip(s, t);
    Assoc([QUOTE] + Escape(s), [QUOTE], t);
    Assoc([QUOTE], Escape(s), [QUOTE] + t);
    assert PrintString(s) + t == [QUOTE] + body;
    assert ([QUOTE] + body)[1..] == body;
  }

  // ----- Numbers --------------------------------------------------------------------

  type Digit = d: int | 0 <= d < 10

  // A finite number that is not zero: its shortest decimal digits, without zeros at
  // either end, and the position of the decimal point, as Number::toString has them.
  datatype RawDecimal = RawDecimal(negative: bool, digits: seq<Digit>, point: int)

  predicate Trimmed(digits: seq<Digit>) {
    digits != [] && digits[0] != 0 && digits[|digits| - 1] != 0
  }

  type Decimal = d: RawDecimal | Trimmed(d.digits) witness RawDecimal(false, [1], 1)

  datatype Numeral = Zero | NonZero(decimal: Decimal)

  function Zeros(n: nat): seq<Digit> {
    seq(n, i => 0)
  }

  function DigitChar(d: Digit): Unit {
    d as int + 48
  }

  function Chars(digits: seq<Digit>): Text {
    seq(|digits|, i requires 0 <= i < |digits| => DigitChar(digits[i]))
  }

  function DigitsOf(n: nat): seq<Digit> {
    if n < 10 then [n] else DigitsOf(n / 10) + [n % 10]
  }

  function ValueOf(digits: seq<Digit>): nat {
    if digits == [] then 0 else ValueOf(digits[..|digits| - 1]) * 10 + digits[|digits| - 1]
  }

  function Magnitude(n: int): nat {
    if n < 0 then -n else n
  }

  function PrintDigits(digits: seq<Digit>, point: int): Text
    requires digits != []
  {
    var k := |digits|;
    if k <= point <= 21 then Chars(digits + Zeros(point - k))
    else if 0 < point <= 21 then Chars(digits[..point]) + [POINT] + Chars(digits[point..])
    else if -6 < point <= 0 then Chars([0]) + [POINT] + Chars(Zeros(-point) + digits)
    else
      Chars(digits[..1]) + (if k == 1 then [] else [POINT] + Chars(digits[1..]))
      + [EXPONENT, if point - 1 >= 0 then PLUS else MINUS] + Chars(DigitsOf(Magnitude(point - 1)))
  }

  function PrintNumeral(n: Numeral): Text {
    match n
    case Zero => [48]
    case NonZero(d) => (if d.negative then [MINUS] else []) + PrintDigits(d.digits, d.point)
  }

  predicate IsDigit(u: Unit) { 48 <= u <= 57 }

  predicate StartsWith(t: Text, u: Unit) {
    t != [] && t[0] == u
  }

  // The digits at the front of a text, and the rest.
  function TakeDigits(t: Text): (r: (seq<Digit>, Text))
    ensures |r.1| <= |t|
    ensures t != [] && IsDigit(t[0]) ==> |r.1| < |t|
  {
    if t == [] || !IsDigit(t[0]) then ([], t)
    else var r := TakeDigits(t[1..]); ([t[0] - 48] + r.0, r.1)
  }

  function TakeFraction(t: Text): (r: (seq<Digit>, Text))
    ensures |r.1| <= |t|
  {
    if StartsWith(t, POINT) then TakeDigits(t[1..]) else ([], t)
  }

  function TakeExponent(t: Text): (r: (int, Text))
    ensures |r.1| <= |t|
  {
    if !StartsWith(t, EXPONENT) then (0, t)
    else if StartsWith(t[1..], MINUS) then var r := TakeDigits(t[2..]); (-(ValueOf(r.0) as int), r.1)
    else if StartsWith(t[1..], PLUS) then var r := TakeDigits(t[2..]); (ValueOf(r.0), r.1)
    else var r := TakeDigits(t[1..]); (ValueOf(r.0), r.1)
  }

  function WithoutTail(digits: seq<Digit>): (r: seq<Digit>)
    ensures r != [] ==> r[|r| - 1] != 0
    ensures digits != [] && digits[0] != 0 ==> r != [] && r[0] == digits[0]
  {
    if digits != [] && digits[|digits| - 1] == 0 then WithoutTail(digits[..|digits| - 1]) else digits
  }

  // The number that digits with a decimal point stand for.
  function Normal(negative: bool, digits: seq<Digit>, point: int): Numeral {
    if digits == [] then Zero
    else if digits[0] == 0 then Normal(negative, digits[1..], point - 1)
    else NonZero(RawDecimal(negative, WithoutTail(digits), point))
  }

  function ReadUnsigned(negative: bool, t: Text): (r: (Numeral, Text))
    ensures |r.1| <= |t|
    ensures t != [] && IsDigit(t[0]) ==> |r.1| < |t|
  {
    var (whole, r1) := TakeDigits(t);
    var (fraction, r2) := TakeFraction(r1);
    var (exponent, r3) := TakeExponent(r2);
    (Normal(negative, whole + fraction, |whole| + exponent), r3)
  }

  function ReadNumeral(t: Text): (r: Option<(Numeral, Text)>)
    ensures r.Some? ==> |r.value.1| < |t|
  {
    if StartsWith(t, MINUS) then
      if t[1..] != [] && IsDigit(t[1]) then Some(ReadUnsigned(true, t[1..])) else None
    else if t != [] && IsDigit(t[0]) then Some(ReadUnsigned(false, t)) else None
  }

  // A number ends where the text does or at a comma or a closing bracket.
  predicate Ends(t: Text) {
    t == [] || t[0] == 44 || t[0] == 93 || t[0] == 125
  }

  lemma {:induction false} TakeDigitsOfChars(digits: seq<Digit>, t: Text)
    requires t == [] || !IsDigit(t[0])
    ensures TakeDigits(Chars(digits) + t) == (digits, t)
    decreases |digits|
  {
    if digits == [] {
      assert Chars(digits) + t == t;
    } else {
      TakeDigitsOfChars(digits[1..], t);
      var s := Chars(digits) + t;
      assert s[0] == DigitChar(digits[0]);
      assert s[1..] == Chars(digits[1..]) + t;
      assert digits == [digits[0]] + digits[1..];
    }
  }

  lemma {:induction false} DigitsRoundTrip(n: nat)
    ensures ValueOf(DigitsOf(n)) == n && DigitsOf(n) != []
  {
    if n < 10 {
      assert ValueOf([]) == 0;
      assert [n][..0] == [];
    } else {
      DigitsRoundTrip(n / 10);
      var d := DigitsOf(n / 10);
      assert (d + [n % 10])[..|d|] == d;
    }
  }

  lemma {:induction false} TailZerosVanish(digits: seq<Digit>, m: nat)
    requires Trimmed(digits)
    ensures WithoutTail(digits + Zeros(m)) == digits
    decreases m
  {
    if m == 0 {
      assert digits + Zeros(0) == digits;
    } else {
      assert (digits + Zeros(m))[..|digits| + m - 1] == digits + Zeros(m - 1);
      TailZerosVanish(digits, m - 1);
    }
  }

  lemma {:induction false} HeadZerosVanish(negative: bool, digits: seq<Digit>, m: nat, point: int)
    requires Trimmed(digits)
    ensures Normal(negative, Zeros(m) + digits, point + m) == NonZero(RawDecimal(negative, digits, point))
    decreases m
  {
    if m == 0 {
      assert Zeros(0) + digits == digits;
    } else {
      assert (Zeros(m) + digits)[1..] == Zeros(m - 1) + digits;
      HeadZerosVanish(negative, digits, m - 1, point);
    }
  }

  predicate NoDigit(t: Text) {
    t == [] || !IsDigit(t[0])
  }

  // Reading digits, a fraction and an exponent in turn.
  lemma ReadPieces(negative: bool, whole: seq<Digit>, r1: Text, fraction: seq<Digit>, r2: Text, exponent: int, r3: Text)
    requires NoDigit(r1) && TakeFraction(r1) == (fraction, r2) && TakeExponent(r2) == (exponent, r3)
    ensures ReadUnsigned(negative, Chars(whole) + r1) == (Normal(negative, whole + fraction, |whole| + exponent), r3)
  {
    TakeDigitsOfChars(whole, r1);
  }

  lemma FractionRoundTrip(fraction: seq<Digit>, t: Text)
    requires NoDigit(t)
    ensures TakeFraction([POINT] + (Chars(fraction) + t)) == (fraction, t)
  {
    TakeDigitsOfChars(fraction, t);
    assert ([POINT] + (Chars(fraction) + t))[1..] == Chars(fraction) + t;
  }

  lemma WholeRoundTrip(negative: bool, digits: seq<Digit>, point: int, t: Text)
    requires Trimmed(digits) && Ends(t) && |digits| <= point <= 21
    ensures ReadUnsigned(negative, PrintDigits(digits, point) + t) == (NonZero(RawDecimal(negative, digits, point)), t)
  {
    var m := point - |digits|;
    ReadPieces(negative, digits + Zeros(m), t, [], t, 0, t);
    NormalWithTail(negative, digits, m, point);
  }

  lemma NormalWithTail(negative: bool, digits: seq<Digit>, m: nat, point: int)
    requires Trimmed(digits)
    ensures Normal(negative, digits + Zeros(m) + [], point) == NonZero(RawDecimal(negative, digits, point))
  {
    TailZerosVanish(digits, m);
    assert digits + Zeros(m) + [] == digits + Zeros(m);
  }

  lemma DottedRoundTrip(negative: bool, whole: seq<Digit>, fraction: seq<Digit>, t: Text)
    requires Ends(t)
    ensures ReadUnsigned(negative, Chars(whole) + [POINT] + Chars(fraction) + t) == (Normal(negative, whole + fraction, |whole|), t)
  {
    FractionRoundTrip(fraction, t);
    ReadPieces(negative, whole, [POINT] + (Chars(fraction) + t), fraction, t, 0, t);
    Assoc(Chars(whole) + [POINT], Chars(fraction), t);
    Assoc(Chars(whole), [POINT], Chars(fraction) + t);
  }

  lemma PointRoundTrip(negative: bool, digits: seq<Digit>, point: int, t: Text)
    requires Trimmed(digits) && Ends(t) && 0 < point < |digits| && point <= 21
    ensures ReadUnsigned(negative, PrintDigits(digits, point) + t) == (NonZero(RawDecimal(negative, digits, point)), t)
  {
    DottedRoundTrip(negative, digits[..point], digits[point..], t);
    assert digits[..point] + digits[point..] == digits;
    NormalStays(negative, digits, point);
  }

  lemma NormalStays(negative: bool, digits: seq<Digit>, point: int)
    requires Trimmed(digits)
    ensures Normal(negative, digits, point) == NonZero(RawDecimal(negative, digits, point))
  {
  }

  lemma SmallRoundTrip(negative: bool, digits: seq<Digit>, point: int, t: Text)
    requires Trimmed(digits) && Ends(t) && -6 < point <= 0
    ensures ReadUnsigned(negative, PrintDigits(digits, point) + t) == (NonZero(RawDecimal(negative, digits, point)), t)
  {
    DottedRoundTrip(negative, [0], Zeros(-point) + digits, t);
    OneMoreZero(digits, -point);
    HeadZerosVanish(negative, digits, 1 - point, point);
  }

  lemma OneMoreZero(digits: seq<Digit>, m: nat)
    ensures [0] + (Zeros(m) + digits) == Zeros(m + 1) + digits
  {
  }

  lemma ExponentRoundTrip(n: int, t: Text)
    requires Ends(t)
    ensures TakeExponent([EXPONENT, if n >= 0 then PLUS else MINUS] + Chars(DigitsOf(Magnitude(n))) + t) == (n, t)
  {
    var digits, sign := DigitsOf(Magnitude(n)), if n >= 0 then PLUS else MINUS;
    TakeDigitsOfChars(digits, t);
    DigitsRoundTrip(Magnitude(n));
    Assoc([EXPONENT, sign], Chars(digits), t);
    SignedExponent(sign, Chars(digits) + t);
  }

  lemma SignedExponent(sign: Unit, t: Text)
    requires sign == PLUS || sign == MINUS
    ensures TakeExponent([EXPONENT, sign] + t)
         == var r := TakeDigits(t); (if sign == PLUS then ValueOf(r.0) else -(ValueOf(r.0) as int), r.1)
  {
    var s := [EXPONENT, sign] + t;
    assert s[0] == EXPONENT && s[1..][0] == sign && s[2..] == t;
  }

  function ExponentPart(point: int): Text {
    [EXPONENT, if point - 1 >= 0 then PLUS else MINUS] + Chars(DigitsOf(Magnitude(point - 1)))
  }

  lemma ExponentPartRoundTrip(point: int, t: Text)
    requires Ends(t)
    ensures TakeExponent(ExponentPart(point) + t) == (point - 1, t)
    ensures (ExponentPart(point) + t)[0] == EXPONENT
  {
    ExponentRoundTrip(point - 1, t);
  }

  lemma OneDigitRoundTrip(negative: bool, digits: seq<Digit>, point: int, t: Text)
    requires Trimmed(digits) && Ends(t) && |digits| == 1
    ensures ReadUnsigned(negative, Chars(digits) + ([] + ExponentPart(point)) + t) == (NonZero(RawDecimal(negative, digits, point)), t)
  {
    var tail := ExponentPart(point) + t;
    ExponentPartRoundTrip(point, t);
    ReadPieces(negative, digits, tail, [], tail, point - 1, t);
    assert [] + ExponentPart(point) == ExponentPart(point);
    Assoc(Chars(digits), ExponentPart(point), t);
    assert digits + [] == digits;
  }

  lemma ManyDigitsRoundTrip(negative: bool, first: seq<Digit>, fraction: seq<Digit>, point: int, t: Text)
    requires Trimmed(first + fraction) && Ends(t) && |first| == 1
    ensures ReadUnsigned(negative, Chars(first) + ([POINT] + Chars(fraction) + ExponentPart(point)) + t)
         == (NonZero(RawDecimal(negative, first + fraction, point)), t)
  {
    var tail := ExponentPart(point) + t;
    ExponentPartRoundTrip(point, t);
    FractionRoundTrip(fraction, tail);
    ReadPieces(negative, first, [POINT] + (Chars(fraction) + tail), fraction, tail, point - 1, t);
    RegroupPieces(Chars(first), [POINT], Chars(fraction), ExponentPart(point), t);
  }

  lemma RegroupPieces(a: Text, b: Text, c: Text, d: Text, t: Text)
    ensures a + (b + c + d) + t == a + (b + (c + (d + t)))
  {
    Assoc(a, b + c + d, t);
    Assoc(b + c, d, t);
    Assoc(b, c, d + t);
  }

  lemma ScientificText(digits: seq<Digit>, point: int)
    requires digits != [] && (point > 21 || point <= -6)
    ensures PrintDigits(digits, point)
         == Chars(digits[..1]) + ((if |digits| == 1 then [] else [POINT] + Chars(digits[1..])) + ExponentPart(point))
  {
  }

  lemma UnsignedRoundTrip(d: Decimal, t: Text)
    requires Ends(t)
    ensures ReadUnsigned(d.negative, PrintDigits(d.digits, d.point) + t) == (NonZero(d), t)
    ensures PrintDigits(d.digits, d.point) != [] && IsDigit(PrintDigits(d.digits, d.point)[0])
  {
    if |d.digits| <= d.point <= 21 {
      WholeRoundTrip(d.negative, d.digits, d.point, t);
    } else if 0 < d.point <= 21 {
      PointRoundTrip(d.negative, d.digits, d.point, t);
    } else if -6 < d.point <= 0 {
      SmallRoundTrip(d.negative, d.digits, d.point, t);
    } else {
      ScientificText(d.digits, d.point);
      if |d.digits| == 1 {
        assert d.digits[..1] == d.digits;
        OneDigitRoundTrip(d.negative, d.digits, d.point, t);
      } else {
        assert d.digits[..1] + d.digits[1..] == d.digits;
        ManyDigitsRoundTrip(d.negative, d.digits[..1], d.digits[1..], d.point, t);
      }
    }
  }

  lemma ZeroRoundTrip(t: Text)
    requires Ends(t)
    ensures ReadNumeral([48] + t) == Some((Zero, t))
  {
    assert [48] + t == Chars([0]) + t;
    TakeDigitsOfChars([0], t);
    assert [0] + [] == [0];
    assert Normal(false, [0], 1) == Zero;
  }

  lemma SignedRoundTrip(d: Decimal, body: Text, t: Text)
    requires body == PrintDigits(d.digits, d.point) && body != [] && IsDigit(body[0])
    requires ReadUnsigned(d.negative, body + t) == (NonZero(d), t)
    ensures ReadNumeral((if d.negative then [MINUS] else []) + body + t) == Some((NonZero(d), t))
  {
    assert (body + t)[0] == body[0];
    if d.negative {
      assert ([MINUS] + body + t)[1..] == body + t;
    } else {
      assert [] + body + t == body + t;
    }
  }

  // Every number is read back from its text, in whichever of the formats it was
  // printed.
  lemma NumeralRoundTrip(n: Numeral, t: Text)
    requires Ends(t)
    ensures ReadNumeral(PrintNumeral(n) + t) == Some((n, t))
  {
    match n
    case Zero => ZeroRoundTrip(t);
    case NonZero(d) =>
      UnsignedRoundTrip(d, t);
      SignedRoundTrip(d, PrintDigits(d.digits, d.point), t);
  }
}
