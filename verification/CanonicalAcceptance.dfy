// Which values the canonical form accepts, said of the value, and texts written out.
module CanonicalAcceptance {
  import opened Ordering
  import opened JsonText
  import opened CanonicalJson
  import opened CanonicalText

  // ----- Acceptance -----------------------------------------------------------------------

  function Pow10(n: nat): nat {
    if n == 0 then 1 else 10 * Pow10(n - 1)
  }

  // The number is whole when its digits end before the decimal point.
  predicate Whole(d: Decimal) { |d.digits| <= d.point }

  // Its absolute value, if it is whole.
  function WholeValue(d: Decimal): nat
    requires Whole(d)
  {
    ValueOf(d.digits) * Pow10(d.point - |d.digits|)
  }

  predicate AcceptableNumber(n: JsNumber) {
    match n
    case NotANumber => false
    case Infinite(_) => false
    case NegativeZero => false
    case PositiveZero => true
    case Nonzero(d) => Whole(d) ==> WholeValue(d) < 9007199254740992
  }

  // Arrays without holes, plain objects without symbols, accessors or hidden properties,
  // and inside them the same; finite numbers but negative zero, whole ones below 2^53.
  predicate Acceptable(v: Value) {
    match v
    case Null => true
    case Bool(_) => true
    case Str(_) => true
    case Num(n) => AcceptableNumber(n)
    case Arr(items) => forall i :: 0 <= i < |items| ==> items[i].Item? && Acceptable(items[i].value)
    case Obj(plain, symbols, members) =>
      plain && !symbols && forall k :: k in members ==> members[k].enumerableData && Acceptable(members[k].value)
    case Unsupported => false
  }

  lemma {:induction false} ZerosShift(digits: seq<Digit>, n: nat)
    ensures ValueOf(digits + Zeros(n)) == ValueOf(digits) * Pow10(n)
    decreases n
  {
    if n == 0 {
      assert digits + Zeros(0) == digits;
    } else {
      var longer := digits + Zeros(n);
      assert longer[..|longer| - 1] == digits + Zeros(n - 1) && longer[|longer| - 1] == 0;
      ZerosShift(digits, n - 1);
      Regroup(ValueOf(digits), Pow10(n - 1));
    }
  }

  lemma Regroup(v: nat, p: nat)
    ensures v * p * 10 == v * (10 * p)
  {
  }

  lemma NumberAcceptedExactly(n: JsNumber)
    ensures NormalizeNumber(n).Some? <==> AcceptableNumber(n)
  {
    if n.Nonzero? && Whole(n.decimal) {
      ZerosShift(n.decimal.digits, n.decimal.point - |n.decimal.digits|);
    }
  }

  // A value is accepted exactly when it is acceptable.
  lemma {:induction false} AcceptedExactly(v: Value)
    ensures Normalize(v).Some? <==> Acceptable(v)
    decreases v
  {
    match v
    case Num(n) => NumberAcceptedExactly(n);
    case Arr(items) =>
      forall i | 0 <= i < |items| && items[i].Item? ensures Normalize(items[i].value).Some? <==> Acceptable(items[i].value) {
        AcceptedExactly(items[i].value);
      }
      assert GoodItems(items, v) <==> Acceptable(v);
    case Obj(plain, symbols, members) =>
      forall k | k in members ensures Normalize(members[k].value).Some? <==> Acceptable(members[k].value) {
        AcceptedExactly(members[k].value);
      }
      assert plain && !symbols ==> (GoodMembers(members, v) <==> Acceptable(v));
    case _ =>
  }

  // The greatest whole number that is accepted, and the next one that is not.
  lemma SafeRange(d: Decimal, e: Decimal)
    requires d.digits == [9, 0, 0, 7, 1, 9, 9, 2, 5, 4, 7, 4, 0, 9, 9, 1] && d.point == 16
    requires e.digits == [9, 0, 0, 7, 1, 9, 9, 2, 5, 4, 7, 4, 0, 9, 9, 2] && e.point == 16
    ensures NormalizeNumber(Nonzero(d)) == Some(NonZero(d)) && NormalizeNumber(Nonzero(e)) == None
  {
    var prefix: seq<Digit> := [9, 0, 0, 7, 1, 9, 9, 2, 5, 4, 7, 4, 0, 9, 9];
    SafePrefix();
    assert d.digits[..15] == prefix && e.digits[..15] == prefix;
    assert ValueOf(d.digits) == ValueOf(prefix) * 10 + 1 && ValueOf(e.digits) == ValueOf(prefix) * 10 + 2;
    NumberAcceptedExactly(Nonzero(d));
    NumberAcceptedExactly(Nonzero(e));
  }

  lemma SafePrefix()
    ensures ValueOf([9, 0, 0, 7, 1, 9, 9, 2, 5, 4, 7, 4, 0, 9, 9]) == 900719925474099
  {
    var five: seq<Digit> := [9, 0, 0, 7, 1];
    var ten: seq<Digit> := [9, 0, 0, 7, 1, 9, 9, 2, 5, 4];
    ValueOfFive(0, [], 9, 0, 0, 7, 1);
    assert [] + five == five;
    ValueOfFive(90071, five, 9, 9, 2, 5, 4);
    assert five + [9, 9, 2, 5, 4] == ten;
    ValueOfFive(9007199254, ten, 7, 4, 0, 9, 9);
    assert ten + [7, 4, 0, 9, 9] == [9, 0, 0, 7, 1, 9, 9, 2, 5, 4, 7, 4, 0, 9, 9];
  }

  lemma ValueOfFive(v: nat, front: seq<Digit>, a: Digit, b: Digit, c: Digit, d: Digit, e: Digit)
    requires ValueOf(front) == v
    ensures ValueOf(front + [a, b, c, d, e]) == v * 100000 + a * 10000 + b * 1000 + c * 100 + d * 10 + e
  {
    OneMore(front, a);
    OneMore(front + [a], b);
    OneMore(front + [a] + [b], c);
    OneMore(front + [a] + [b] + [c], d);
    OneMore(front + [a] + [b] + [c] + [d], e);
    assert front + [a, b, c, d, e] == front + [a] + [b] + [c] + [d] + [e];
  }

  lemma OneMore(front: seq<Digit>, d: Digit)
    ensures ValueOf(front + [d]) == ValueOf(front) * 10 + d
  {
    assert (front + [d])[..|front|] == front;
  }

  // ----- Texts written out ------------------------------------------------------------------

  // Characters of the basic plane are their code units.
  function Units(s: string): Text
    requires forall i :: 0 <= i < |s| ==> s[i] as int < 0x10000
  {
    seq(|s|, i requires 0 <= i < |s| => s[i] as int)
  }

  lemma LiteralTexts(a: Arrangement)
    ensures Print(a, JNull) == Units("null") && Print(a, JBool(true)) == Units("true") && Print(a, JBool(false)) == Units("false")
  {
  }

  // Quote and backslash, the five controls that have a letter, another control, a lone
  // surrogate, and everything else, which stands for itself.
  lemma UnitTexts(u: Unit)
    ensures EscapeUnit(34) == Units("\\\"") && EscapeUnit(92) == Units("\\\\")
    ensures u >= 32 && u != 34 && u != 92 && !(0xD800 <= u <= 0xDFFF) ==> EscapeUnit(u) == [u]
  {
  }

  lemma LetterTexts()
    ensures EscapeUnit(8) == Units("\\b") && EscapeUnit(9) == Units("\\t") && EscapeUnit(10) == Units("\\n")
    ensures EscapeUnit(12) == Units("\\f") && EscapeUnit(13) == Units("\\r")
  {
  }

  lemma CodeTexts()
    ensures EscapeUnit(31) == Units("\\u001f") && EscapeUnit(0xDE00) == Units("\\ude00")
  {
  }

  // A string is its units between quotes; a surrogate pair stays as it is.
  lemma StringTexts(u: Unit, v: Unit, rest: Text)
    ensures PrintString(rest) == [34] + Escape(rest) + [34] && Escape([]) == []
    ensures !(0xD800 <= u <= 0xDBFF) ==> Escape([u] + rest) == EscapeUnit(u) + Escape(rest)
    ensures 0xD800 <= u <= 0xDBFF && 0xDC00 <= v <= 0xDFFF ==> Escape([u, v] + rest) == [u, v] + Escape(rest)
  {
    assert ([u] + rest)[0] == u && ([u] + rest)[1..] == rest;
    assert ([u, v] + rest)[0] == u && ([u, v] + rest)[1] == v && ([u, v] + rest)[2..] == rest;
  }

  // A number in each of the five formats of Number::toString.
  lemma WholeNumberText()
    ensures PrintDigits([1, 2], 4) == Units("1200")
  {
    assert [1, 2] + Zeros(2) == [1, 2, 0, 0];
  }

  lemma PointNumberText()
    ensures PrintDigits([1, 2, 5], 1) == Units("1.25")
  {
    assert [1, 2, 5][..1] == [1] && [1, 2, 5][1..] == [2, 5];
  }

  lemma SmallNumberText()
    ensures PrintDigits([1, 2], -5) == Units("0.0000012")
  {
    assert Zeros(5) + [1, 2] == [0, 0, 0, 0, 0, 1, 2];
  }

  lemma LargeNumberText()
    ensures PrintDigits([1], 22) == Units("1e+21")
  {
    assert DigitsOf(21) == DigitsOf(2) + [1] == [2, 1];
    assert [1][..1] == [1];
  }

  lemma TinyNumberText()
    ensures PrintDigits([1, 5], -6) == Units("1.5e-7")
  {
    assert [1, 5][..1] == [1] && [1, 5][1..] == [5];
    assert DigitsOf(7) == [7];
  }

  lemma SignedNumberText()
    ensures PrintNumeral(NonZero(RawDecimal(true, [5], 1))) == Units("-5") && PrintNumeral(Zero) == Units("0")
  {
    assert [5] + Zeros(0) == [5];
  }

  // An array and an object: brackets, commas and colons, nothing between them.
  lemma EmptyTexts(a: Arrangement)
    requires Arranges(a)
    ensures Print(a, JArr([])) == Units("[]") && Print(a, JObj(true, map[])) == Units("{}")
  {
    var none: map<Text, Json> := map[];
    DistinctLength(a(none.Keys), {});
  }

  lemma LastItem(a: Arrangement, j: Json, y: Json)
    requires j.JArr? && y in j.items
    ensures PrintItems(a, [y], j) == Print(a, y)
  {
  }

  lemma MoreItems(a: Arrangement, j: Json, x: Json, rest: seq<Json>)
    requires j.JArr? && x in j.items && rest != [] && forall i :: 0 <= i < |rest| ==> rest[i] in j.items
    ensures PrintItems(a, [x] + rest, j) == Print(a, x) + ([44] + PrintItems(a, rest, j))
  {
    assert ([x] + rest)[0] == x && ([x] + rest)[1..] == rest;
  }

  lemma ArrayText(a: Arrangement, j: Json, x: Json, y: Json)
    requires j.JArr? && j.items == [x] + [y]
    ensures Print(a, j) == [91] + (Print(a, x) + ([44] + Print(a, y)) + [93])
  {
    assert j.items[0] == x && j.items[1] == y;
    LastItem(a, j, y);
    MoreItems(a, j, x, [y]);
  }

  lemma LastMember(a: Arrangement, j: Json, k: Text)
    requires j.JObj? && k in j.members
    ensures PrintMembers(a, [k], j) == PrintString(k) + ([58] + Print(a, j.members[k]))
  {
    assert Print(a, j.members[k]) + [] == Print(a, j.members[k]);
  }

  lemma OnlyKey(a: Arrangement, members: map<Text, Json>, k: Text)
    requires Arranges(a) && members.Keys == {k}
    ensures Known(a(members.Keys), members) == [k]
  {
    var keys := a(members.Keys);
    DistinctLength(keys, {k});
    assert keys[0] in keys;
    assert keys == [k] && Known(keys, members) == keys;
  }

  lemma ObjectText(a: Arrangement, j: Json, k: Text, x: Json)
    requires Arranges(a) && j == JObj(true, map[k := x])
    ensures Print(a, j) == [123] + (PrintString(k) + ([58] + Print(a, x)) + [125])
  {
    OnlyKey(a, j.members, k);
    LastMember(a, j, k);
  }
}
