// Canonical JSON: normalization of JavaScript values, and their text.
module CanonicalJson {
  import opened Ordering
  import opened JsonText

  datatype JsNumber = NotANumber | Infinite(negative: bool) | NegativeZero | PositiveZero | Nonzero(decimal: Decimal)

  // A JavaScript value as the normalizer meets it. An array may have holes; an
  // object may have another prototype, symbol keys, accessors, or properties that
  // are not enumerable; everything else (functions, undefined, bigints, symbols) is
  // unsupported.
  datatype Value =
    | Null | Bool(b: bool) | Num(number: JsNumber) | Str(s: Text)
    | Arr(items: seq<Slot>)
    | Obj(plain: bool, symbols: bool, members: map<Text, Member>)
    | Unsupported

  datatype Slot = Hole | Item(value: Value)

  datatype Member = Member(enumerableData: bool, value: Value)

  // A normalized value. `plain` is false for an object whose prototype an own
  // `__proto__` member has replaced.
  datatype Json =
    | JNull | JBool(b: bool) | JNum(n: Numeral) | JStr(s: Text) | JArr(items: seq<Json>)
    | JObj(plain: bool, members: map<Text, Json>)

  const PROTO: Text := [95, 95, 112, 114, 111, 116, 111, 95, 95]

  const MAX_SAFE: nat := 9007199254740991

  predicate IsInteger(d: Decimal) {
    |d.digits| <= d.point
  }

  predicate IsSafe(d: Decimal) {
    IsInteger(d) ==> ValueOf(d.digits + Zeros(d.point - |d.digits|)) <= MAX_SAFE
  }

  function NormalizeNumber(n: JsNumber): Option<Numeral> {
    match n
    case PositiveZero => Some(Zero)
    case Nonzero(d) => if IsSafe(d) then Some(NonZero(d)) else None
    case _ => None
  }

  predicate IsContainer(j: Json) {
    j.JArr? || j.JObj?
  }

  predicate GoodMembers(members: map<Text, Member>, v: Value)
    requires v.Obj? && v.members == members
    decreases v, 0
  {
    forall k :: k in members ==> members[k].enumerableData && Normalize(members[k].value).Some?
  }

  predicate GoodItems(items: seq<Slot>, v: Value)
    requires v.Arr? && v.items == items
    decreases v, 0
  {
    forall i :: 0 <= i < |items| ==> items[i].Item? && Normalize(items[i].value).Some?
  }

  // Assigning the key `__proto__` sets the prototype instead of making a member.
  predicate KeepsPrototype(members: map<Text, Member>, v: Value)
    requires v.Obj? && v.members == members && GoodMembers(members, v)
    decreases v, 1
  {
    PROTO in members ==> !IsContainer(Normalize(members[PROTO].value).value)
  }

  function Normalize(v: Value): Option<Json>
    decreases v, 2
  {
    match v
    case Null => Some(JNull)
    case Bool(b) => Some(JBool(b))
    case Str(s) => Some(JStr(s))
    case Num(n) => (match NormalizeNumber(n) case None => None case Some(x) => Some(JNum(x)))
    case Arr(items) =>
      if GoodItems(items, v)
      then Some(JArr(seq(|items|, i requires 0 <= i < |items| => Normalize(items[i].value).value)))
      else None
    case Obj(plain, symbols, members) =>
      if plain && !symbols && GoodMembers(members, v)
      then Some(JObj(KeepsPrototype(members, v), map k | k in members && k != PROTO :: Normalize(members[k].value).value))
      else None
    case Unsupported => None
  }

  // ----- The procedure --------------------------------------------------------------

  method NormalizeArray(items: seq<Slot>, ghost v: Value) returns (r: Option<Json>)
    requires v == Arr(items)
    ensures r == Normalize(v)
    decreases v, 0
  {
    var normalized: seq<Json> := [];
    for i := 0 to |items|
      invariant |normalized| == i
      invariant forall k :: 0 <= k < i ==> items[k].Item? && Normalize(items[k].value) == Some(normalized[k])
    {
      if items[i].Hole? {
        return None;
      }
      var item := NormalizeCanonicalValue(items[i].value);
      if item.None? {
        return None;
      }
      normalized := normalized + [item.value];
    }
    assert GoodItems(items, v);
    r := Some(JArr(normalized));
    assert Normalize(v).value.items == normalized;
  }

  // What the loop over an object's keys has built from those it has done.
  ghost predicate BuiltFrom(members: map<Text, Member>, done: set<Text>, normalized: map<Text, Json>, keepsPrototype: bool)
    requires done <= members.Keys
  {
    && (forall k :: k in done ==> members[k].enumerableData && Normalize(members[k].value).Some?)
    && normalized.Keys == done - {PROTO}
    && (forall k :: k in normalized ==> Normalize(members[k].value) == Some(normalized[k]))
    && keepsPrototype == (PROTO in done ==> !IsContainer(Normalize(members[PROTO].value).value))
  }

  lemma BuildOneMore(members: map<Text, Member>, done: set<Text>, normalized: map<Text, Json>, keepsPrototype: bool, k: Text, j: Json)
    requires done <= members.Keys && BuiltFrom(members, done, normalized, keepsPrototype)
    requires k in members && k !in done && members[k].enumerableData && Normalize(members[k].value) == Some(j)
    ensures if k == PROTO then BuiltFrom(members, done + {k}, normalized, !IsContainer(j))
            else BuiltFrom(members, done + {k}, normalized[k := j], keepsPrototype)
  {
  }

  lemma BuiltWhole(members: map<Text, Member>, normalized: map<Text, Json>, keepsPrototype: bool)
    requires BuiltFrom(members, members.Keys, normalized, keepsPrototype)
    ensures Normalize(Obj(true, false, members)) == Some(JObj(keepsPrototype, normalized))
  {
    var v := Obj(true, false, members);
    assert GoodMembers(members, v);
    assert Normalize(v).value.members == normalized;
  }

  predicate GoodMember(m: Member) {
    m.enumerableData && Normalize(m.value).Some?
  }

  // The assignment `normalized[key] = value`.
  method AssignMember(members: map<Text, Member>, ghost done: set<Text>, normalized: map<Text, Json>, keepsPrototype: bool, k: Text, j: Json)
    returns (normalized': map<Text, Json>, keepsPrototype': bool)
    requires done <= members.Keys && BuiltFrom(members, done, normalized, keepsPrototype)
    requires k in members && k !in done && members[k].enumerableData && Normalize(members[k].value) == Some(j)
    ensures BuiltFrom(members, done + {k}, normalized', keepsPrototype')
  {
    BuildOneMore(members, done, normalized, keepsPrototype, k, j);
    if k == PROTO {
      return normalized, !IsContainer(j);
    }
    return normalized[k := j], keepsPrototype;
  }

  // The loop over the keys; it stops at the first property that is refused.
  method NormalizeMembers(members: map<Text, Member>, ghost v: Value)
    returns (ok: bool, normalized: map<Text, Json>, keepsPrototype: bool)
    requires v.Obj? && v.members == members
    ensures ok ==> BuiltFrom(members, members.Keys, normalized, keepsPrototype)
    ensures !ok ==> exists k :: k in members && !GoodMember(members[k])
    decreases v, 0
  {
    normalized, keepsPrototype := map[], true;
    var rest := members.Keys;
    ghost var done: set<Text> := {};
    while rest != {}
      invariant done <= members.Keys && rest == members.Keys - done
      invariant BuiltFrom(members, done, normalized, keepsPrototype)
      decreases |rest|
    {
      var k :| k in rest;
      rest := rest - {k};
      if !members[k].enumerableData {
        assert !GoodMember(members[k]);
        return false, normalized, keepsPrototype;
      }
      var member := NormalizeCanonicalValue(members[k].value);
      if member.None? {
        assert !GoodMember(members[k]);
        return false, normalized, keepsPrototype;
      }
      normalized, keepsPrototype := AssignMember(members, done, normalized, keepsPrototype, k, member.value);
      done := done + {k};
    }
    assert done == members.Keys;
    ok := true;
  }

  method NormalizeObject(plain: bool, symbols: bool, members: map<Text, Member>, ghost v: Value) returns (r: Option<Json>)
    requires v == Obj(plain, symbols, members)
    ensures r == Normalize(v)
    decreases v, 1
  {
    if !plain || symbols {
      return None;
    }
    var ok, normalized, keepsPrototype := NormalizeMembers(members, v);
    if !ok {
      return None;
    }
    BuiltWhole(members, normalized, keepsPrototype);
    r := Some(JObj(keepsPrototype, normalized));
  }

  method NormalizeCanonicalValue(v: Value) returns (r: Option<Json>)
    ensures r == Normalize(v)
    decreases v, 2
  {
    match v
    case Null => r := Some(JNull);
    case Bool(b) => r := Some(JBool(b));
    case Str(s) => r := Some(JStr(s));
    case Num(n) =>
      var x := NormalizeNumber(n);
      if x.None? { r := None; } else { r := Some(JNum(x.value)); }
    case Arr(items) => r := NormalizeArray(items, v);
    case Obj(plain, symbols, members) => r := NormalizeObject(plain, symbols, members, v);
    case Unsupported => r := None;
  }

  // ----- Normalizing twice ------------------------------------------------------------

  // A normalized value is again a JavaScript value.
  function Embed(j: Json): Value {
    match j
    case JNull => Null
    case JBool(b) => Bool(b)
    case JNum(n) => Num(match n case Zero => PositiveZero case NonZero(d) => Nonzero(d))
    case JStr(s) => Str(s)
    case JArr(items) => Arr(seq(|items|, i requires 0 <= i < |items| => Item(Embed(items[i]))))
    case JObj(plain, members) => Obj(plain, false, map k | k in members :: Member(true, Embed(members[k])))
  }

  predicate AllPlain(j: Json) {
    match j
    case JArr(items) => forall i :: 0 <= i < |items| ==> AllPlain(items[i])
    case JObj(plain, members) => plain && forall k :: k in members ==> AllPlain(members[k])
    case _ => true
  }

  // No object that reaches the text has an own member `__proto__` that holds an
  // array or an object.
  predicate NoPrototypeMember(v: Value) {
    match v
    case Arr(items) => forall i :: 0 <= i < |items| && items[i].Item? ==> NoPrototypeMember(items[i].value)
    case Obj(_, _, members) =>
      && (PROTO in members ==> !members[PROTO].value.Arr? && !members[PROTO].value.Obj?)
      && (forall k :: k in members && k != PROTO ==> NoPrototypeMember(members[k].value))
    case _ => true
  }

  lemma ContainersStay(v: Value)
    requires Normalize(v).Some?
    ensures IsContainer(Normalize(v).value) <==> v.Arr? || v.Obj?
  {
  }

  lemma {:induction false} PlainExactly(v: Value)
    requires Normalize(v).Some?
    ensures AllPlain(Normalize(v).value) <==> NoPrototypeMember(v)
    decreases v
  {
    match v
    case Arr(items) =>
      forall i | 0 <= i < |items| ensures AllPlain(Normalize(items[i].value).value) <==> NoPrototypeMember(items[i].value) {
        PlainExactly(items[i].value);
      }
      var normalized := Normalize(v).value.items;
      assert forall i :: 0 <= i < |items| ==> items[i].Item? && normalized[i] == Normalize(items[i].value).value;
    case Obj(_, _, members) =>
      if PROTO in members { ContainersStay(members[PROTO].value); }
      forall k | k in members && k != PROTO ensures AllPlain(Normalize(members[k].value).value) <==> NoPrototypeMember(members[k].value) {
        PlainExactly(members[k].value);
      }
      var normalized := Normalize(v).value.members;
      assert forall k :: k in normalized <==> k in members && k != PROTO;
    case _ =>
  }

  // Only numbers that the normalizer lets through, and no member `__proto__`.
  predicate Clean(j: Json) {
    match j
    case JNum(n) => n.NonZero? ==> IsSafe(n.decimal)
    case JArr(items) => forall i :: 0 <= i < |items| ==> Clean(items[i])
    case JObj(_, members) => PROTO !in members && forall k :: k in members ==> Clean(members[k])
    case _ => true
  }

  lemma {:induction false} NormalizedIsClean(v: Value)
    requires Normalize(v).Some?
    ensures Clean(Normalize(v).value)
    decreases v
  {
    match v
    case Arr(items) => forall i | 0 <= i < |items| ensures Clean(Normalize(items[i].value).value) { NormalizedIsClean(items[i].value); }
    case Obj(_, _, members) =>
      forall k | k in members && k != PROTO ensures Clean(Normalize(members[k].value).value) { NormalizedIsClean(members[k].value); }
    case _ =>
  }

  lemma {:induction false} EmbedNormalizes(j: Json)
    requires Clean(j)
    ensures Normalize(Embed(j)) == if AllPlain(j) then Some(j) else None
    decreases j
  {
    match j
    case JArr(items) =>
      var v := Embed(j);
      forall i | 0 <= i < |items| ensures Normalize(v.items[i].value) == if AllPlain(items[i]) then Some(items[i]) else None {
        EmbedNormalizes(items[i]);
      }
      if AllPlain(j) {
        assert GoodItems(v.items, v);
        assert Normalize(v).value.items == items;
      } else {
        var i :| 0 <= i < |items| && !AllPlain(items[i]);
        assert Normalize(v.items[i].value).None?;
      }
    case JObj(plain, members) =>
      var v := Embed(j);
      forall k | k in members ensures Normalize(v.members[k].value) == if AllPlain(members[k]) then Some(members[k]) else None {
        EmbedNormalizes(members[k]);
      }
      EmbedObject(j, v);
    case _ =>
  }

  lemma EmbedObject(j: Json, v: Value)
    requires j.JObj? && v == Embed(j) && PROTO !in j.members
    requires forall k :: k in j.members ==> Normalize(v.members[k].value) == if AllPlain(j.members[k]) then Some(j.members[k]) else None
    ensures Normalize(v) == if AllPlain(j) then Some(j) else None
  {
    assert v.members.Keys == j.members.Keys;
    if AllPlain(j) {
      assert GoodMembers(v.members, v);
      assert Normalize(v).value.members == j.members;
    } else if j.plain {
      var k :| k in j.members && !AllPlain(j.members[k]);
      assert Normalize(v.members[k].value).None?;
    }
  }

  // Normalizing twice equals normalizing once exactly when no object that reaches
  // the text has a `__proto__` member with an array or an object in it; otherwise
  // the second pass rejects.
  lemma NormalizeTwice(v: Value)
    requires Normalize(v).Some?
    ensures Normalize(Embed(Normalize(v).value)) == if NoPrototypeMember(v) then Normalize(v) else None
  {
    NormalizedIsClean(v);
    PlainExactly(v);
    EmbedNormalizes(Normalize(v).value);
  }
}
