// The text of a normalized value, and a reader that undoes it: canonical JSON is
// unambiguous.
module CanonicalText {
  import opened Ordering
  import opened JsonText
  import opened CanonicalJson

  // The order in which an object's keys are printed: any that depends only on the
  // set of keys. (Array indices come first in numeric order, then the others in the
  // order in which the normalizer assigned them.)
  type Arrangement = set<Text> -> seq<Text>

  ghost predicate Arranges(a: Arrangement) {
    forall keys :: Distinct(a(keys)) && forall k :: k in a(keys) <==> k in keys
  }

  const COMMA: Unit := 44
  const COLON: Unit := 58
  const OPEN_ARRAY: Unit := 91
  const CLOSE_ARRAY: Unit := 93
  const OPEN_OBJECT: Unit := 123
  const CLOSE_OBJECT: Unit := 125
  const NULL: Text := [110, 117, 108, 108]
  const TRUE: Text := [116, 114, 117, 101]
  const FALSE: Text := [102, 97, 108, 115, 101]

  // ----- Printing -------------------------------------------------------------------

  function Print(a: Arrangement, j: Json): Text
    decreases j, 1, 0
  {
    match j
    case JNull => NULL
    case JBool(b) => if b then TRUE else FALSE
    case JNum(n) => PrintNumeral(n)
    case JStr(s) => PrintString(s)
    case JArr(items) => [OPEN_ARRAY] + (PrintItems(a, items, j) + [CLOSE_ARRAY])
    case JObj(_, members) => [OPEN_OBJECT] + (PrintMembers(a, Known(a(members.Keys), members), j) + [CLOSE_OBJECT])
  }

  // An arrangement only lists keys of the object.
  function Known(keys: seq<Text>, members: map<Text, Json>): (r: seq<Text>)
    ensures forall k | k in r :: k in members
    ensures (forall k :: k in keys ==> k in members) ==> r == keys
  {
    if keys == [] then []
    else if keys[0] in members then [keys[0]] + Known(keys[1..], members)
    else Known(keys[1..], members)
  }

  // Items separated by commas.
  function PrintItems(a: Arrangement, items: seq<Json>, ghost j: Json): Text
    requires j.JArr? && forall i :: 0 <= i < |items| ==> items[i] in j.items
    decreases j, 0, |items|
  {
    if items == [] then []
    else
      assert items[0] in j.items;
      Print(a, items[0]) + (if |items| == 1 then [] else [COMMA] + PrintItems(a, items[1..], j))
  }

  function PrintMembers(a: Arrangement, keys: seq<Text>, j: Json): Text
    requires j.JObj? && forall k :: k in keys ==> k in j.members
    decreases j, 0, |keys|
  {
    if keys == [] then []
    else
      PrintString(keys[0]) + ([COLON] + (Print(a, j.members[keys[0]])
        + (if |keys| == 1 then [] else [COMMA] + PrintMembers(a, keys[1..], j))))
  }

  // ----- Reading --------------------------------------------------------------------

  predicate Prefix(p: Text, t: Text) {
    |t| >= |p| && t[..|p|] == p
  }

  function ReadLiteral(literal: Text, j: Json, t: Text): (r: Option<(Json, Text)>)
    requires literal != []
    ensures r.Some? ==> |r.value.1| < |t|
  {
    if Prefix(literal, t) then Some((j, t[|literal|..])) else None
  }

  function ReadValue(t: Text): (r: Option<(Json, Text)>)
    ensures r.Some? ==> |r.value.1| < |t|
    decreases |t|, 1
  {
    if t == [] then None
    else if t[0] == NULL[0] then ReadLiteral(NULL, JNull, t)
    else if t[0] == TRUE[0] then ReadLiteral(TRUE, JBool(true), t)
    else if t[0] == FALSE[0] then ReadLiteral(FALSE, JBool(false), t)
    else if t[0] == QUOTE then
      (match ReadString(t[1..]) case None => None case Some(p) => Some((JStr(p.0), p.1)))
    else if t[0] == OPEN_ARRAY then
      if StartsWith(t[1..], CLOSE_ARRAY) then Some((JArr([]), t[2..]))
      else (match ReadItems(t[1..]) case None => None case Some(p) => Some((JArr(p.0), p.1)))
    else if t[0] == OPEN_OBJECT then
      if StartsWith(t[1..], CLOSE_OBJECT) then Some((JObj(true, map[]), t[2..]))
      else (match ReadMembers(t[1..]) case None => None case Some(p) => Some((JObj(true, p.0), p.1)))
    else (match ReadNumeral(t) case None => None case Some(p) => Some((JNum(p.0), p.1)))
  }

  function ReadItems(t: Text): (r: Option<(seq<Json>, Text)>)
    ensures r.Some? ==> |r.value.1| < |t|
    decreases |t|, 2
  {
    match ReadValue(t)
    case None => None
    case Some(first) =>
      if StartsWith(first.1, COMMA) then
        match ReadItems(first.1[1..]) case None => None case Some(rest) => Some(([first.0] + rest.0, rest.1))
      else if StartsWith(first.1, CLOSE_ARRAY) then Some(([first.0], first.1[1..]))
      else None
  }

  // A key, a colon and a value.
  function ReadMember(t: Text): (r: Option<(Text, Json, Text)>)
    ensures r.Some? ==> |r.value.2| < |t|
    decreases |t|, 0
  {
    if !StartsWith(t, QUOTE) then None
    else
      match ReadString(t[1..])
      case None => None
      case Some(key) =>
        if !StartsWith(key.1, COLON) then None
        else match ReadValue(key.1[1..])
          case None => None
          case Some(value) => Some((key.0, value.0, value.1))
  }

  function ReadMembers(t: Text): (r: Option<(map<Text, Json>, Text)>)
    ensures r.Some? ==> |r.value.1| < |t|
    decreases |t|, 2
  {
    match ReadMember(t)
    case None => None
    case Some(m) =>
      if StartsWith(m.2, COMMA) then
        match ReadMembers(m.2[1..]) case None => None case Some(rest) => Some((map[m.0 := m.1] + rest.0, rest.1))
      else if StartsWith(m.2, CLOSE_OBJECT) then Some((map[m.0 := m.1], m.2[1..]))
      else None
  }

  // ----- Reading what was printed -----------------------------------------------------

  // The text does not show an object's prototype.
  function Plain(j: Json): Json {
    match j
    case JArr(items) => JArr(seq(|items|, i requires 0 <= i < |items| => Plain(items[i])))
    case JObj(_, members) => JObj(true, map k | k in members :: Plain(members[k]))
    case _ => j
  }

  function PlainAll(items: seq<Json>): seq<Json> {
    seq(|items|, i requires 0 <= i < |items| => Plain(items[i]))
  }

  function PlainMembers(keys: seq<Text>, members: map<Text, Json>): map<Text, Json>
    requires forall k :: k in keys ==> k in members
  {
    map k | k in keys :: Plain(members[k])
  }

  // A numeral does not begin like anything else.
  lemma NumeralStart(n: Numeral)
    ensures var p := PrintNumeral(n); p != [] && (IsDigit(p[0]) || p[0] == MINUS)
  {
    if n.NonZero? { UnsignedRoundTrip(n.decimal, []); }
  }

  lemma LiteralRoundTrip(literal: Text, j: Json, t: Text)
    requires literal != []
    ensures ReadLiteral(literal, j, literal + t) == Some((j, t))
  {
    assert (literal + t)[..|literal|] == literal && (literal + t)[|literal|..] == t;
  }

  lemma NumberRoundTrip(n: Numeral, t: Text)
    requires Ends(t)
    ensures ReadValue(PrintNumeral(n) + t) == Some((JNum(n), t))
  {
    NumeralStart(n);
    NumeralRoundTrip(n, t);
    var s := PrintNumeral(n) + t;
    assert s[0] == PrintNumeral(n)[0];
    ReadAsNumeral(s);
  }

  lemma ReadAsNumeral(s: Text)
    requires s != [] && (IsDigit(s[0]) || s[0] == MINUS)
    ensures ReadValue(s) == match ReadNumeral(s) case None => None case Some(p) => Some((JNum(p.0), p.1))
  {
  }

  lemma ScalarRoundTrip(a: Arrangement, j: Json, t: Text)
    requires Ends(t) && (j.JNull? || j.JBool? || j.JNum? || j.JStr?)
    ensures ReadValue(Print(a, j) + t) == Some((j, t))
  {
    match j
    case JNull => LiteralRoundTrip(NULL, JNull, t);
    case JBool(b) => if b { LiteralRoundTrip(TRUE, JBool(true), t); } else { LiteralRoundTrip(FALSE, JBool(false), t); }
    case JNum(n) => NumberRoundTrip(n, t);
    case JStr(s) => StringRoundTrip(s, t);
    case _ =>
  }

  lemma PrintStart(a: Arrangement, j: Json)
    ensures Print(a, j) != [] && Print(a, j)[0] != CLOSE_ARRAY
  {
    if j.JNum? { NumeralStart(j.n); }
  }

  lemma Drop1(u: Unit, t: Text)
    ensures ([u] + t)[1..] == t && StartsWith([u] + t, u)
  {
  }

  lemma {:induction false} ItemsRoundTrip(a: Arrangement, items: seq<Json>, j: Json, t: Text)
    requires Arranges(a) && items != [] && j.JArr? && forall i :: 0 <= i < |items| ==> items[i] in j.items
    ensures ReadItems(PrintItems(a, items, j) + ([CLOSE_ARRAY] + t)) == Some((PlainAll(items), t))
    decreases j, 0, |items|
  {
    var close := [CLOSE_ARRAY] + t;
    var first := Print(a, items[0]);
    assert items[0] in j.items;
    Drop1(CLOSE_ARRAY, t);
    if |items| == 1 {
      RoundTrip(a, items[0], close);
      assert PrintItems(a, items, j) == first;
      assert PlainAll(items) == [Plain(items[0])];
    } else {
      var rest := PrintItems(a, items[1..], j) + close;
      ItemsRoundTrip(a, items[1..], j, t);
      RoundTrip(a, items[0], [COMMA] + rest);
      Drop1(COMMA, rest);
      Assoc(first, [COMMA] + PrintItems(a, items[1..], j), close);
      Assoc([COMMA], PrintItems(a, items[1..], j), close);
      assert PlainAll(items) == [Plain(items[0])] + PlainAll(items[1..]);
    }
  }

  lemma MemberRoundTrip(key: Text, value: Text, j: Json, after: Text)
    requires ReadValue(value + after) == Some((j, after))
    ensures ReadMember(PrintString(key) + ([COLON] + (value + after))) == Some((key, j, after))
  {
    StringRoundTrip(key, [COLON] + (value + after));
    Drop1(COLON, value + after);
  }

  lemma RegroupMember(k: Text, v: Text, more: Text, close: Text)
    ensures k + ([COLON] + (v + more)) + close == k + ([COLON] + (v + (more + close)))
  {
    Assoc(k, [COLON] + (v + more), close);
    Assoc([COLON], v + more, close);
    Assoc(v, more, close);
  }

  lemma {:induction false} MembersRoundTrip(a: Arrangement, keys: seq<Text>, j: Json, t: Text)
    requires Arranges(a) && keys != [] && Distinct(keys) && j.JObj? && forall k :: k in keys ==> k in j.members
    ensures ReadMembers(PrintMembers(a, keys, j) + ([CLOSE_OBJECT] + t)) == Some((PlainMembers(keys, j.members), t))
    decreases j, 0, |keys|
  {
    var close := [CLOSE_OBJECT] + t;
    var key, value := keys[0], j.members[keys[0]];
    var more := if |keys| == 1 then [] else [COMMA] + PrintMembers(a, keys[1..], j);
    var after := more + close;
    RegroupMember(PrintString(key), Print(a, value), more, close);
    if |keys| == 1 {
      assert after == close;
      RoundTrip(a, value, after);
      MemberRoundTrip(key, Print(a, value), Plain(value), after);
      Drop1(CLOSE_OBJECT, t);
      assert PlainMembers(keys, j.members) == map[key := Plain(value)];
    } else {
      var rest := PrintMembers(a, keys[1..], j) + close;
      Assoc([COMMA], PrintMembers(a, keys[1..], j), close);
      RoundTrip(a, value, after);
      MemberRoundTrip(key, Print(a, value), Plain(value), after);
      Drop1(COMMA, rest);
      MembersRoundTrip(a, keys[1..], j, t);
      FirstKey(keys, j.members);
    }
  }

  lemma FirstKey(keys: seq<Text>, members: map<Text, Json>)
    requires keys != [] && Distinct(keys) && forall k :: k in keys ==> k in members
    ensures PlainMembers(keys, members) == map[keys[0] := Plain(members[keys[0]])] + PlainMembers(keys[1..], members)
  {
    assert keys[0] !in keys[1..];
    assert keys == [keys[0]] + keys[1..];
  }

  lemma {:induction false} ArrayRoundTrip(a: Arrangement, j: Json, t: Text)
    requires Arranges(a) && j.JArr?
    ensures ReadValue(Print(a, j) + t) == Some((Plain(j), t))
    decreases j, 1, 0
  {
    var body := PrintItems(a, j.items, j);
    var inside := body + ([CLOSE_ARRAY] + t);
    Assoc([OPEN_ARRAY], body + [CLOSE_ARRAY], t);
    Assoc(body, [CLOSE_ARRAY], t);
    Drop1(OPEN_ARRAY, inside);
    if j.items == [] {
      assert inside == [CLOSE_ARRAY] + t;
      Drop1(CLOSE_ARRAY, t);
      assert ([OPEN_ARRAY] + inside)[2..] == t;
      assert Plain(j) == JArr([]);
    } else {
      ItemsRoundTrip(a, j.items, j, t);
      PrintStart(a, j.items[0]);
      assert inside[0] == Print(a, j.items[0])[0];
      assert Plain(j) == JArr(PlainAll(j.items));
    }
  }

  lemma {:induction false} ObjectRoundTrip(a: Arrangement, j: Json, t: Text)
    requires Arranges(a) && j.JObj?
    ensures ReadValue(Print(a, j) + t) == Some((Plain(j), t))
    decreases j, 1, 0
  {
    var keys := Known(a(j.members.Keys), j.members);
    assert keys == a(j.members.Keys);
    var body := PrintMembers(a, keys, j);
    var inside := body + ([CLOSE_OBJECT] + t);
    Assoc([OPEN_OBJECT], body + [CLOSE_OBJECT], t);
    Assoc(body, [CLOSE_OBJECT], t);
    Drop1(OPEN_OBJECT, inside);
    assert Plain(j) == JObj(true, PlainMembers(keys, j.members));
    if keys == [] {
      assert inside == [CLOSE_OBJECT] + t;
      Drop1(CLOSE_OBJECT, t);
      assert ([OPEN_OBJECT] + inside)[2..] == t;
      assert PlainMembers(keys, j.members) == map[];
    } else {
      MembersRoundTrip(a, keys, j, t);
      assert inside[0] == QUOTE;
    }
  }

  // The reader undoes the printer, whatever comma, bracket or end follows.
  lemma {:induction false} RoundTrip(a: Arrangement, j: Json, t: Text)
    requires Arranges(a) && Ends(t)
    ensures ReadValue(Print(a, j) + t) == Some((Plain(j), t))
    decreases j, 2, 0
  {
    if j.JArr? {
      ArrayRoundTrip(a, j, t);
    } else if j.JObj? {
      ObjectRoundTrip(a, j, t);
    } else {
      ScalarRoundTrip(a, j, t);
    }
  }

  // ----- Equal texts --------------------------------------------------------------------

  lemma {:induction false} PrintIgnoresPrototypes(a: Arrangement, j: Json)
    ensures Print(a, Plain(j)) == Print(a, j)
    decreases j, 2, 0
  {
    match j
    case JArr(items) => PrintItemsPlain(a, items, j, PlainAll(items), Plain(j));
    case JObj(_, members) =>
      assert Plain(j).members.Keys == members.Keys;
      SameKnown(a(members.Keys), members, Plain(j).members);
      PrintMembersPlain(a, Known(a(members.Keys), members), j);
    case _ =>
  }

  lemma {:induction false} SameKnown(keys: seq<Text>, m: map<Text, Json>, n: map<Text, Json>)
    requires m.Keys == n.Keys
    ensures Known(keys, m) == Known(keys, n)
  {
    if keys != [] {
      assert keys[0] in m <==> keys[0] in n;
      SameKnown(keys[1..], m, n);
    }
  }

  lemma {:induction false} PrintItemsPlain(a: Arrangement, items: seq<Json>, j: Json, plain: seq<Json>, p: Json)
    requires j.JArr? && forall i :: 0 <= i < |items| ==> items[i] in j.items
    requires p.JArr? && plain == PlainAll(items) && forall i :: 0 <= i < |plain| ==> plain[i] in p.items
    ensures PrintItems(a, plain, p) == PrintItems(a, items, j)
    decreases j, 1, |items|
  {
    if items != [] {
      assert items[0] in j.items && plain[0] == Plain(items[0]);
      PrintIgnoresPrototypes(a, items[0]);
      assert plain[1..] == PlainAll(items[1..]);
      PrintItemsPlain(a, items[1..], j, plain[1..], p);
    }
  }

  lemma {:induction false} PrintMembersPlain(a: Arrangement, keys: seq<Text>, j: Json)
    requires j.JObj? && forall k :: k in keys ==> k in j.members
    ensures PrintMembers(a, keys, Plain(j)) == PrintMembers(a, keys, j)
    decreases j, 1, |keys|
  {
    if keys != [] {
      PrintIgnoresPrototypes(a, j.members[keys[0]]);
      PrintMembersPlain(a, keys[1..], j);
    }
  }

  lemma SameTextSamePlain(a: Arrangement, j: Json, k: Json)
    requires Arranges(a)
    ensures Print(a, j) == Print(a, k) <==> Plain(j) == Plain(k)
  {
    RoundTrip(a, j, []);
    RoundTrip(a, k, []);
    assert Print(a, j) + [] == Print(a, j) && Print(a, k) + [] == Print(a, k);
    PrintIgnoresPrototypes(a, j);
    PrintIgnoresPrototypes(a, k);
  }

  // canonicalJson.
  function CanonicalJsonText(a: Arrangement, v: Value): Option<Text> {
    match Normalize(v) case None => None case Some(j) => Some(Print(a, j))
  }

  // The value without the members named `__proto__`.
  function Bare(v: Value): Value {
    match v
    case Arr(items) => Arr(seq(|items|, i requires 0 <= i < |items| =>
      match items[i] case Hole => Hole case Item(x) => Item(Bare(x))))
    case Obj(plain, symbols, members) =>
      Obj(plain, symbols, map k | k in members && k != PROTO :: Member(members[k].enumerableData, Bare(members[k].value)))
    case _ => v
  }

  // The printed data determine the bare value and are determined by it.
  lemma {:induction false} BareIsThePlainValue(v: Value)
    requires Normalize(v).Some?
    ensures Embed(Plain(Normalize(v).value)) == Bare(v)
    decreases v
  {
    match v
    case Arr(items) =>
      var j := Normalize(v).value;
      forall i | 0 <= i < |items| ensures Item(Embed(Plain(j.items[i]))) == (match items[i] case Hole => Hole case Item(x) => Item(Bare(x))) {
        assert items[i].Item?;
        BareIsThePlainValue(items[i].value);
      }
      assert Embed(Plain(j)).items == Bare(v).items;
    case Obj(_, _, members) =>
      var j := Normalize(v).value;
      forall k | k in members && k != PROTO
        ensures Member(true, Embed(Plain(j.members[k]))) == Member(members[k].enumerableData, Bare(members[k].value))
      {
        BareIsThePlainValue(members[k].value);
      }
      assert Embed(Plain(j)).members == Bare(v).members;
    case _ =>
  }

  lemma {:induction false} EmbedInjective(j: Json, k: Json)
    requires Embed(j) == Embed(k)
    ensures j == k
    decreases j
  {
    match j
    case JArr(items) =>
      assert |items| == |Embed(k).items| == |k.items|;
      forall i | 0 <= i < |items| ensures items[i] == k.items[i] {
        assert Embed(j).items[i] == Embed(k).items[i];
        EmbedInjective(items[i], k.items[i]);
      }
    case JObj(_, members) =>
      assert members.Keys == Embed(j).members.Keys == Embed(k).members.Keys == k.members.Keys;
      forall x | x in members ensures members[x] == k.members[x] {
        assert Embed(j).members[x] == Embed(k).members[x];
        EmbedInjective(members[x], k.members[x]);
      }
    case _ =>
  }

  // Canonical JSON is unambiguous: two acceptable values print to the same text
  // exactly when they are the same up to the order of keys and to members named
  // `__proto__`, which the normalizer drops.
  lemma CanonicalTextUnambiguous(a: Arrangement, v: Value, w: Value)
    requires Arranges(a) && Normalize(v).Some? && Normalize(w).Some?
    ensures CanonicalJsonText(a, v) == CanonicalJsonText(a, w) <==> Bare(v) == Bare(w)
  {
    SameTextSamePlain(a, Normalize(v).value, Normalize(w).value);
    BareIsThePlainValue(v);
    BareIsThePlainValue(w);
    if Bare(v) == Bare(w) { EmbedInjective(Plain(Normalize(v).value), Plain(Normalize(w).value)); }
  }

  predicate NoProto(v: Value) {
    match v
    case Arr(items) => forall i :: 0 <= i < |items| && items[i].Item? ==> NoProto(items[i].value)
    case Obj(_, _, members) => PROTO !in members && forall k :: k in members ==> NoProto(members[k].value)
    case _ => true
  }

  lemma {:induction false} BareWithoutProto(v: Value)
    requires NoProto(v)
    ensures Bare(v) == v
    decreases v
  {
    match v
    case Arr(items) =>
      forall i | 0 <= i < |items| ensures Bare(v).items[i] == items[i] {
        if items[i].Item? { BareWithoutProto(items[i].value); }
      }
    case Obj(_, _, members) =>
      forall k | k in members ensures Bare(v).members[k] == members[k] { BareWithoutProto(members[k].value); }
      assert Bare(v).members == members;
    case _ =>
  }

  // Without such members equal texts mean equal values.
  lemma SameTextSameValue(a: Arrangement, v: Value, w: Value)
    requires Arranges(a) && Normalize(v).Some? && Normalize(w).Some? && NoProto(v) && NoProto(w)
    ensures CanonicalJsonText(a, v) == CanonicalJsonText(a, w) <==> v == w
  {
    CanonicalTextUnambiguous(a, v, w);
    BareWithoutProto(v);
    BareWithoutProto(w);
  }

  // With one they need not: it vanishes from the text.
  lemma ProtoMemberVanishes(a: Arrangement)
    requires Arranges(a)
    ensures var v, w := Obj(true, false, map[[95, 95, 112, 114, 111, 116, 111, 95, 95] := Member(true, Null)]), Obj(true, false, map[]);
      v != w && CanonicalJsonText(a, v).Some? && CanonicalJsonText(a, v) == CanonicalJsonText(a, w)
  {
    var v, w := Obj(true, false, map[PROTO := Member(true, Null)]), Obj(true, false, map[]);
    assert GoodMembers(v.members, v) && GoodMembers(w.members, w);
    assert PROTO in v.members && PROTO !in w.members;
    assert Bare(v).members == map[] == Bare(w).members;
    CanonicalTextUnambiguous(a, v, w);
  }

  // ----- Omitting top-level keys ------------------------------------------------------------

  // The text that canonicalSha256Omitting digests.
  function TextOmitting(a: Arrangement, v: Value, omitted: set<Text>): Option<Text> {
    match Normalize(v)
    case Some(JObj(_, members)) => CanonicalJsonText(a, Embed(JObj(true, members - omitted)))
    case _ => None
  }

  function Omit(v: Value, omitted: set<Text>): Value
    requires v.Obj?
  {
    Obj(v.plain, v.symbols, v.members - omitted)
  }

  // When the digest exists it is that of the same object without those members.
  lemma OmittingIsOmission(a: Arrangement, v: Value, omitted: set<Text>)
    requires v.Obj? && TextOmitting(a, v, omitted).Some?
    ensures TextOmitting(a, v, omitted) == CanonicalJsonText(a, Omit(v, omitted))
  {
    var members := Normalize(v).value.members;
    var payload := JObj(true, members - omitted);
    NormalizedIsClean(v);
    assert Clean(payload);
    EmbedNormalizes(payload);
    var w := Omit(v, omitted);
    assert GoodMembers(w.members, w);
    assert Normalize(w).value.members == payload.members;
    PrintSameMembers(a, payload, Normalize(w).value);
  }

  lemma PrintSameMembers(a: Arrangement, j: Json, k: Json)
    requires j.JObj? && k.JObj? && j.members == k.members
    ensures Print(a, j) == Print(a, k)
  {
    PrintIgnoresPrototypes(a, j);
    PrintIgnoresPrototypes(a, k);
    assert Plain(j) == Plain(k);
  }

  // So a digest stored in an omitted member never changes the digest, and any other
  // change of the data does.
  lemma OmittingUnambiguous(a: Arrangement, v: Value, w: Value, omitted: set<Text>)
    requires Arranges(a) && v.Obj? && w.Obj?
    requires TextOmitting(a, v, omitted).Some? && TextOmitting(a, w, omitted).Some?
    ensures TextOmitting(a, v, omitted) == TextOmitting(a, w, omitted) <==> Bare(Omit(v, omitted)) == Bare(Omit(w, omitted))
  {
    OmittingIsOmission(a, v, omitted);
    OmittingIsOmission(a, w, omitted);
    CanonicalTextUnambiguous(a, Omit(v, omitted), Omit(w, omitted));
  }
}
