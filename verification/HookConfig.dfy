// Merging the managed hooks into a hooks.json document, and taking them out again.
module HookConfig {
  import opened Ordering
  import HookCommand

  datatype Option<+T> = None | Some(value: T)

  // Parsed JSON; object keys are a set, as only their presence matters here.
  datatype Json = Null | Atom(n: nat) | Str(s: string) | Arr(items: seq<Json>) | Obj(members: map<string, Json>)

  const MARKER := " --managed-by 'memo-graph'"

  const EVENTS: seq<string> := ["SessionStart", "UserPromptSubmit", "Stop", "SessionEnd"]

  predicate OccursAt(s: string, part: string, i: int) {
    0 <= i && i + |part| <= |s| && s[i..i + |part|] == part
  }

  predicate Contains(s: string, part: string) {
    exists i :: 0 <= i <= |s| && OccursAt(s, part, i)
  }

  predicate IsManagedCommand(j: Json) {
    j.Str? && Contains(j.s, MARKER)
  }

  predicate IsManaged(handler: Json) {
    handler.Obj? && "command" in handler.members && IsManagedCommand(handler.members["command"])
  }

  function Unmanaged(handler: Json): bool { !IsManaged(handler) }

  // `object[key] ?? fallback`
  function Get(members: map<string, Json>, key: string, fallback: Json): Json {
    if key in members && members[key] != Null then members[key] else fallback
  }

  predicate GroupOk(g: Json) {
    g.Obj? && "hooks" in g.members && g.members["hooks"].Arr?
  }

  predicate GroupsOk(groups: seq<Json>) {
    forall g :: g in groups ==> GroupOk(g)
  }

  function Handlers(g: Json): seq<Json> {
    if GroupOk(g) then g.members["hooks"].items else []
  }

  function WithHandlers(g: Json, handlers: seq<Json>): Json {
    if g.Obj? then Obj(g.members["hooks" := Arr(handlers)]) else g
  }

  // One group without its managed handlers; nothing when none is left.
  function StripGroup(g: Json): seq<Json> {
    var handlers := Filter(Unmanaged, Handlers(g));
    if handlers == [] then [] else [WithHandlers(g, handlers)]
  }

  function Strip(groups: seq<Json>): seq<Json> {
    if groups == [] then [] else StripGroup(groups[0]) + Strip(groups[1..])
  }

  function ManagedHandler(event: string, command: string): Json {
    Obj(map["type" := Str("command"), "command" := Str(command), "timeout" := Atom(3)]
        + if event == "UserPromptSubmit" then map["additionalContextLimit" := Atom(4000)] else map[])
  }

  function ManagedGroup(event: string, command: string): Json {
    Obj((if event == "SessionStart" then map["matcher" := Str("startup|resume|clear|compact")] else map[])
        + map["hooks" := Arr([ManagedHandler(event, command)])])
  }

  // ----- merge ----------------------------------------------------------------------

  predicate EventMergeable(hooks: map<string, Json>, event: string) {
    Get(hooks, event, Arr([])).Arr? && GroupsOk(Get(hooks, event, Arr([])).items)
  }

  function MergedEvent(hooks: map<string, Json>, event: string, command: string): Json
    requires EventMergeable(hooks, event)
  {
    Arr(Strip(Get(hooks, event, Arr([])).items) + [ManagedGroup(event, command)])
  }

  predicate HooksMergeable(hooks: map<string, Json>, events: seq<string>) {
    forall e :: e in events ==> EventMergeable(hooks, e)
  }

  function Members(s: seq<string>): set<string> { set e | e in s }

  function MergedHooks(hooks: map<string, Json>, events: seq<string>, command: string): map<string, Json>
    requires HooksMergeable(hooks, events)
  {
    map k | k in hooks.Keys + Members(events) :: if k in events then MergedEvent(hooks, k, command) else hooks[k]
  }

  predicate HasMergeableHooks(doc: Json) {
    doc.Obj? && Get(doc.members, "hooks", Obj(map[])).Obj?
  }

  function HooksOf(doc: Json): map<string, Json> {
    if HasMergeableHooks(doc) then Get(doc.members, "hooks", Obj(map[])).members else map[]
  }

  function WithHooks(doc: Json, hooks: map<string, Json>): Json
    requires doc.Obj?
  {
    Obj(doc.members["hooks" := Obj(hooks)])
  }

  function Merge(doc: Json, command: string): Option<Json> {
    if HasMergeableHooks(doc) && HooksMergeable(HooksOf(doc), EVENTS)
    then Some(WithHooks(doc, MergedHooks(HooksOf(doc), EVENTS, command)))
    else None
  }

  // ----- remove -----------------------------------------------------------------------

  predicate EventRemovable(groups: Json) {
    groups.Arr? && GroupsOk(groups.items)
  }

  predicate HooksRemovable(hooks: map<string, Json>) {
    forall e :: e in hooks ==> EventRemovable(hooks[e])
  }

  predicate Removable(doc: Json) {
    doc.Obj? && "hooks" in doc.members && doc.members["hooks"].Obj? && HooksRemovable(doc.members["hooks"].members)
  }

  function StripOf(groups: Json): seq<Json> {
    if groups.Arr? then Strip(groups.items) else []
  }

  function StrippedHooks(hooks: map<string, Json>): map<string, Json> {
    map e | e in hooks && StripOf(hooks[e]) != [] :: Arr(StripOf(hooks[e]))
  }

  function Remove(doc: Json): Option<Json> {
    if Removable(doc) then Some(WithHooks(doc, StrippedHooks(doc.members["hooks"].members))) else None
  }

  // ----- The procedures -----------------------------------------------------------------

  // The flatMap over an event's groups; it throws at the first that is not one.
  method StripGroups(groups: seq<Json>) returns (r: Option<seq<Json>>)
    ensures r == if GroupsOk(groups) then Some(Strip(groups)) else None
  {
    var stripped: seq<Json> := [];
    for i := 0 to |groups|
      invariant GroupsOk(groups[..i])
      invariant stripped == Strip(groups[..i])
    {
      assert groups[..i + 1] == groups[..i] + [groups[i]];
      if !GroupOk(groups[i]) {
        assert groups[i] in groups;
        return None;
      }
      StripAppend(groups[..i], [groups[i]]);
      StripOne(groups[i]);
      stripped := stripped + StripGroup(groups[i]);
    }
    assert groups[..|groups|] == groups;
    r := Some(stripped);
  }

  // The loop over the managed events, on a copy of the hooks.
  method MergeEvents(raw: map<string, Json>, events: seq<string>, command: string) returns (r: Option<map<string, Json>>)
    requires Distinct(events)
    ensures r == if HooksMergeable(raw, events) then Some(MergedHooks(raw, events, command)) else None
  {
    var hooks := raw;
    for i := 0 to |events|
      invariant HooksMergeable(raw, events[..i])
      invariant hooks == MergedHooks(raw, events[..i], command)
    {
      var event := events[i];
      assert events[..i + 1] == events[..i] + [event] && event !in events[..i];
      var existing := Get(hooks, event, Arr([]));
      assert existing == Get(raw, event, Arr([]));
      if !existing.Arr? {
        assert !EventMergeable(raw, event) && event in events;
        return None;
      }
      var withoutManaged := StripGroups(existing.items);
      if withoutManaged.None? {
        assert !EventMergeable(raw, event) && event in events;
        return None;
      }
      MergeOneMore(raw, events[..i], event, command);
      hooks := hooks[event := Arr(withoutManaged.value + [ManagedGroup(event, command)])];
    }
    assert events[..|events|] == events;
    r := Some(hooks);
  }

  lemma MergeOneMore(raw: map<string, Json>, done: seq<string>, event: string, command: string)
    requires HooksMergeable(raw, done) && EventMergeable(raw, event) && event !in done
    ensures HooksMergeable(raw, done + [event])
    ensures MergedHooks(raw, done + [event], command) == MergedHooks(raw, done, command)[event := MergedEvent(raw, event, command)]
  {
    assert Members(done + [event]) == Members(done) + {event};
  }

  lemma EventsDiffer()
    ensures Distinct(EVENTS)
  {
    assert |EVENTS[0]| == 12 && |EVENTS[1]| == 16 && |EVENTS[2]| == 4 && |EVENTS[3]| == 10;
  }

  method MergeHooksJsonDocument(doc: Json, command: string) returns (r: Option<Json>)
    ensures r == Merge(doc, command)
  {
    if !doc.Obj? {
      return None;
    }
    var raw := Get(doc.members, "hooks", Obj(map[]));
    if !raw.Obj? {
      return None;
    }
    EventsDiffer();
    var hooks := MergeEvents(raw.members, EVENTS, command);
    if hooks.None? {
      return None;
    }
    r := Some(WithHooks(doc, hooks.value));
  }

  // What the removal's loop over the events has made of those it has done.
  ghost predicate StrippedSoFar(raw: map<string, Json>, done: set<string>, hooks: map<string, Json>) {
    && hooks.Keys <= raw.Keys
    && (forall e :: e in raw && e in done ==> EventRemovable(raw[e]))
    && (forall e :: e in raw && e !in done ==> e in hooks && hooks[e] == raw[e])
    && (forall e :: e in raw && e in done ==> (e in hooks <==> StripOf(raw[e]) != []))
    && (forall e :: e in hooks && e in done ==> hooks[e] == Arr(StripOf(raw[e])))
  }

  lemma StripOneEvent(raw: map<string, Json>, done: set<string>, hooks: map<string, Json>, event: string)
    requires StrippedSoFar(raw, done, hooks) && event in raw && EventRemovable(raw[event])
    ensures StrippedSoFar(raw, done + {event},
      if StripOf(raw[event]) == [] then hooks - {event} else hooks[event := Arr(StripOf(raw[event]))])
  {
  }

  lemma StrippedAll(raw: map<string, Json>, hooks: map<string, Json>)
    requires StrippedSoFar(raw, raw.Keys, hooks)
    ensures HooksRemovable(raw) && hooks == StrippedHooks(raw)
  {
  }

  method RemoveEvents(raw: map<string, Json>) returns (r: Option<map<string, Json>>)
    ensures r == if HooksRemovable(raw) then Some(StrippedHooks(raw)) else None
  {
    var hooks := raw;
    var rest := raw.Keys;
    ghost var done: set<string> := {};
    while rest != {}
      invariant rest == raw.Keys - done && done <= raw.Keys
      invariant StrippedSoFar(raw, done, hooks)
      decreases |rest|
    {
      var event :| event in rest;
      if !raw[event].Arr? {
        assert !EventRemovable(raw[event]);
        return None;
      }
      var groups := StripGroups(raw[event].items);
      if groups.None? {
        assert !EventRemovable(raw[event]);
        return None;
      }
      StripOneEvent(raw, done, hooks, event);
      if groups.value == [] {
        hooks := hooks - {event};
      } else {
        hooks := hooks[event := Arr(groups.value)];
      }
      rest := rest - {event};
      done := done + {event};
    }
    assert done == raw.Keys;
    StrippedAll(raw, hooks);
    r := Some(hooks);
  }

  method RemoveManagedHooksJsonDocument(doc: Json) returns (r: Option<Json>)
    ensures r == Remove(doc)
  {
    if !doc.Obj? || "hooks" !in doc.members || !doc.members["hooks"].Obj? {
      return None;
    }
    var hooks := RemoveEvents(doc.members["hooks"].members);
    if hooks.None? {
      return None;
    }
    r := Some(WithHooks(doc, hooks.value));
  }

  // ----- Stripping ------------------------------------------------------------------------

  lemma StripOne(g: Json)
    ensures Strip([g]) == StripGroup(g)
  {
    assert Strip([g][1..]) == [];
  }

  lemma {:induction false} StripAppend(a: seq<Json>, b: seq<Json>)
    ensures Strip(a + b) == Strip(a) + Strip(b)
    decreases |a|
  {
    if a == [] {
      assert a + b == b;
    } else {
      assert (a + b)[0] == a[0] && (a + b)[1..] == a[1..] + b;
      StripAppend(a[1..], b);
      Assoc(StripGroup(a[0]), Strip(a[1..]), Strip(b));
    }
  }

  lemma StripGroupTwice(g: Json)
    requires GroupOk(g)
    ensures Strip(StripGroup(g)) == StripGroup(g) && GroupsOk(StripGroup(g))
  {
    var handlers := Filter(Unmanaged, Handlers(g));
    FilterAll(Unmanaged, handlers);
    if handlers != [] {
      var h := WithHandlers(g, handlers);
      StripOne(h);
      assert Handlers(h) == handlers;
      assert WithHandlers(h, handlers).members == h.members;
    }
  }

  lemma {:induction false} StripTwice(groups: seq<Json>)
    requires GroupsOk(groups)
    ensures Strip(Strip(groups)) == Strip(groups) && GroupsOk(Strip(groups))
    decreases |groups|
  {
    if groups != [] {
      assert groups[0] in groups;
      StripGroupTwice(groups[0]);
      StripTwice(groups[1..]);
      StripAppend(StripGroup(groups[0]), Strip(groups[1..]));
    }
  }

  // What makes a command a managed one, and a built command one.
  lemma ManagedGroupVanishes(event: string, command: string)
    requires Contains(command, MARKER)
    ensures GroupOk(ManagedGroup(event, command)) && Strip([ManagedGroup(event, command)]) == []
  {
    var handler := ManagedHandler(event, command);
    assert handler.members["command"] == Str(command);
    assert Handlers(ManagedGroup(event, command)) == [handler];
    assert [handler][1..] == [];
    assert Filter(Unmanaged, [handler]) == [];
    StripOne(ManagedGroup(event, command));
  }

  lemma MergedGroupsStrip(groups: seq<Json>, event: string, command: string)
    requires GroupsOk(groups) && Contains(command, MARKER)
    ensures Strip(Strip(groups) + [ManagedGroup(event, command)]) == Strip(groups)
    ensures GroupsOk(Strip(groups) + [ManagedGroup(event, command)])
  {
    StripTwice(groups);
    ManagedGroupVanishes(event, command);
    StripAppend(Strip(groups), [ManagedGroup(event, command)]);
  }

  // ----- merge and remove undo each other ---------------------------------------------------

  lemma MergedEventStrips(hooks: map<string, Json>, events: seq<string>, command: string, e: string)
    requires HooksMergeable(hooks, events) && Contains(command, MARKER) && e in events
    ensures var once := MergedHooks(hooks, events, command);
      && EventMergeable(once, e) && EventRemovable(once[e])
      && Get(once, e, Arr([])) == once[e]
      && StripOf(once[e]) == StripOf(Get(hooks, e, Arr([])))
  {
    MergedGroupsStrip(Get(hooks, e, Arr([])).items, e, command);
    assert e in Members(events);
    assert MergedHooks(hooks, events, command)[e] == MergedEvent(hooks, e, command);
  }

  lemma MergedTwice(hooks: map<string, Json>, events: seq<string>, first: string, second: string)
    requires HooksMergeable(hooks, events) && Contains(first, MARKER)
    ensures HooksMergeable(MergedHooks(hooks, events, first), events)
    ensures MergedHooks(MergedHooks(hooks, events, first), events, second) == MergedHooks(hooks, events, second)
  {
    var once := MergedHooks(hooks, events, first);
    forall e | e in events ensures EventMergeable(once, e) && MergedEvent(once, e, second) == MergedEvent(hooks, e, second) {
      MergedEventStrips(hooks, events, first, e);
    }
  }

  lemma HooksOfWith(doc: Json, hooks: map<string, Json>, more: map<string, Json>)
    requires doc.Obj?
    ensures HasMergeableHooks(WithHooks(doc, hooks)) && HooksOf(WithHooks(doc, hooks)) == hooks
    ensures WithHooks(WithHooks(doc, hooks), more) == WithHooks(doc, more)
    ensures Removable(WithHooks(doc, hooks)) <==> HooksRemovable(hooks)
  {
    assert doc.members["hooks" := Obj(hooks)]["hooks" := Obj(more)] == doc.members["hooks" := Obj(more)];
  }

  // Merging a second command replaces the first and leaves nothing else behind.
  lemma MergeReplaces(doc: Json, first: string, second: string)
    requires Merge(doc, first).Some? && Contains(first, MARKER)
    ensures Merge(Merge(doc, first).value, second) == Merge(doc, second)
  {
    MergedTwice(HooksOf(doc), EVENTS, first, second);
    HooksOfWith(doc, MergedHooks(HooksOf(doc), EVENTS, first), MergedHooks(HooksOf(doc), EVENTS, second));
  }

  lemma RemovableIsMergeable(doc: Json, events: seq<string>)
    requires Removable(doc)
    ensures HasMergeableHooks(doc) && HooksOf(doc) == doc.members["hooks"].members && HooksMergeable(HooksOf(doc), events)
  {
    var hooks := HooksOf(doc);
    assert hooks == doc.members["hooks"].members;
    forall e | e in events ensures EventMergeable(hooks, e) {
      if e in hooks { assert EventRemovable(hooks[e]); }
    }
  }

  function StripIn(hooks: map<string, Json>, e: string): seq<Json> {
    if e in hooks then StripOf(hooks[e]) else []
  }

  lemma SameStripped(a: map<string, Json>, b: map<string, Json>)
    requires forall e :: StripIn(a, e) == StripIn(b, e)
    ensures StrippedHooks(a) == StrippedHooks(b)
  {
    forall e ensures (e in StrippedHooks(a)) == (StripIn(a, e) != []) && (e in StrippedHooks(b)) == (StripIn(b, e) != []) { }
  }

  lemma StripMergedEvent(hooks: map<string, Json>, events: seq<string>, command: string, e: string)
    requires HooksRemovable(hooks) && HooksMergeable(hooks, events) && Contains(command, MARKER)
    ensures StripIn(MergedHooks(hooks, events, command), e) == StripIn(hooks, e)
    ensures e in MergedHooks(hooks, events, command) ==> EventRemovable(MergedHooks(hooks, events, command)[e])
  {
    if e in hooks { assert EventRemovable(hooks[e]); }
    if e in events { MergedEventStrips(hooks, events, command, e); }
  }

  lemma StrippedMerged(hooks: map<string, Json>, events: seq<string>, command: string)
    requires HooksRemovable(hooks) && HooksMergeable(hooks, events) && Contains(command, MARKER)
    ensures HooksRemovable(MergedHooks(hooks, events, command))
    ensures StrippedHooks(MergedHooks(hooks, events, command)) == StrippedHooks(hooks)
  {
    var once := MergedHooks(hooks, events, command);
    forall e ensures StripIn(once, e) == StripIn(hooks, e) && (e in once ==> EventRemovable(once[e])) {
      StripMergedEvent(hooks, events, command, e);
    }
    SameStripped(once, hooks);
  }

  // Taking the managed hooks out of a merged document gives what taking them out of
  // the document itself gives, whenever that is allowed.
  lemma RemoveUndoesMerge(doc: Json, command: string)
    requires Remove(doc).Some? && Contains(command, MARKER)
    ensures Merge(doc, command).Some? && Remove(Merge(doc, command).value) == Remove(doc)
  {
    RemovableIsMergeable(doc, EVENTS);
    var hooks := HooksOf(doc);
    StrippedMerged(hooks, EVENTS, command);
    HooksOfWith(doc, MergedHooks(hooks, EVENTS, command), StrippedHooks(hooks));
  }

  // What a caller can look for in the document before the call.
  predicate HasHooks(doc: Json) {
    doc.Obj? && "hooks" in doc.members && doc.members["hooks"] != Null
  }

  predicate NullEvent(doc: Json, event: string) {
    event in HooksOf(doc) && HooksOf(doc)[event] == Null
  }

  ghost predicate MalformedElsewhere(doc: Json) {
    exists e :: e in HooksOf(doc) && e !in EVENTS && !EventRemovable(HooksOf(doc)[e])
  }

  // Merging leaves every managed event well formed and every other event alone.
  lemma MergedRemovableExactly(doc: Json, command: string)
    requires Merge(doc, command).Some? && Contains(command, MARKER)
    ensures Remove(Merge(doc, command).value).Some? <==> !MalformedElsewhere(doc)
  {
    var hooks := HooksOf(doc);
    var once := MergedHooks(hooks, EVENTS, command);
    HooksOfWith(doc, once, map[]);
    forall e | e in EVENTS ensures e in once && EventRemovable(once[e]) {
      assert e in Members(EVENTS);
      MergedEventStrips(hooks, EVENTS, command, e);
    }
    forall e | e !in EVENTS ensures (e in once) == (e in hooks) && (e in once ==> once[e] == hooks[e]) { }
    if MalformedElsewhere(doc) {
      var e :| e in hooks && e !in EVENTS && !EventRemovable(hooks[e]);
      assert e in once && !EventRemovable(once[e]);
    }
  }

  // Of the documents that can be merged into, these can be stripped as they are.
  lemma RemovableExactly(doc: Json, command: string)
    requires Merge(doc, command).Some?
    ensures Removable(doc) <==>
      HasHooks(doc) && (forall e :: e in EVENTS ==> !NullEvent(doc, e)) && !MalformedElsewhere(doc)
  {
    var hooks := HooksOf(doc);
    if HasHooks(doc) {
      forall e | e in EVENTS && e in hooks ensures EventRemovable(hooks[e]) <==> hooks[e] != Null {
        assert EventMergeable(hooks, e);
      }
    }
  }

  // Taking the managed hooks out after a merge comes to the same as taking them out
  // without it, errors included, exactly when the document has hooks and no managed
  // event is null, or when another event is malformed and both attempts throw.
  lemma RemoveUndoesMergeExactly(doc: Json, command: string)
    requires Merge(doc, command).Some? && Contains(command, MARKER)
    ensures Remove(Merge(doc, command).value) == Remove(doc) <==>
      MalformedElsewhere(doc) || (HasHooks(doc) && forall e :: e in EVENTS ==> !NullEvent(doc, e))
  {
    MergedRemovableExactly(doc, command);
    RemovableExactly(doc, command);
    if Removable(doc) { RemoveUndoesMerge(doc, command); }
  }

  // Three documents that merging accepts: one without hooks, one with null hooks, and
  // one with a null event. The removal throws, but after a merge it does not.
  lemma RemoveThrowsUnlessMerged(command: string, doc: Json)
    requires Contains(command, MARKER)
    requires doc in [Obj(map[]), Obj(map["hooks" := Null]), Obj(map["hooks" := Obj(map["Stop" := Null])])]
    ensures Merge(doc, command).Some? && Remove(doc).None? && Remove(Merge(doc, command).value).Some?
  {
    var hooks := HooksOf(doc);
    assert hooks == map[] || hooks == map["Stop" := Null];
    assert HooksMergeable(hooks, EVENTS);
    assert EVENTS[2] == "Stop" && !MalformedElsewhere(doc);
    MergedRemovableExactly(doc, command);
    RemovableExactly(doc, command);
    assert !HasHooks(doc) || NullEvent(doc, EVENTS[2]);
  }

  lemma StrippedTwice(hooks: map<string, Json>)
    requires HooksRemovable(hooks)
    ensures HooksRemovable(StrippedHooks(hooks)) && StrippedHooks(StrippedHooks(hooks)) == StrippedHooks(hooks)
  {
    var once := StrippedHooks(hooks);
    forall e | e in once ensures EventRemovable(once[e]) && StripOf(once[e]) == StripOf(hooks[e]) {
      assert EventRemovable(hooks[e]);
      StripTwice(hooks[e].items);
    }
  }

  lemma RemoveIdempotent(doc: Json)
    requires Remove(doc).Some?
    ensures Remove(Remove(doc).value) == Remove(doc)
  {
    var hooks := doc.members["hooks"].members;
    StrippedTwice(hooks);
    HooksOfWith(doc, StrippedHooks(hooks), StrippedHooks(hooks));
  }

  // ----- Nobody else's handlers are touched ---------------------------------------------------

  // A handler and the rest of the group that holds it.
  datatype Placed = Placed(group: map<string, Json>, handler: Json)

  function PlacedIn(g: Json, handlers: seq<Json>): seq<Placed> {
    seq(|handlers|, i requires 0 <= i < |handlers| => Placed(if g.Obj? then g.members - {"hooks"} else map[], handlers[i]))
  }

  // The unmanaged handlers of a list of groups, in order, each with its group.
  function Others(groups: seq<Json>): seq<Placed> {
    if groups == [] then [] else PlacedIn(groups[0], Filter(Unmanaged, Handlers(groups[0]))) + Others(groups[1..])
  }

  function OthersOf(doc: Json, event: string): seq<Placed> {
    OthersIn(HooksOf(doc), event)
  }

  lemma {:induction false} OthersAppend(a: seq<Json>, b: seq<Json>)
    ensures Others(a + b) == Others(a) + Others(b)
    decreases |a|
  {
    if a == [] {
      assert a + b == b;
    } else {
      assert (a + b)[1..] == a[1..] + b;
      OthersAppend(a[1..], b);
    }
  }

  lemma StripGroupKeepsOthers(g: Json)
    requires GroupOk(g)
    ensures Others(StripGroup(g)) == PlacedIn(g, Filter(Unmanaged, Handlers(g)))
  {
    var handlers := Filter(Unmanaged, Handlers(g));
    if handlers == [] {
      assert PlacedIn(g, handlers) == [];
    } else {
      var h := WithHandlers(g, handlers);
      FilterAll(Unmanaged, handlers);
      assert Handlers(h) == handlers && h.members - {"hooks"} == g.members - {"hooks"};
      assert [h][1..] == [] && Others([h]) == PlacedIn(h, handlers) + [];
      assert PlacedIn(h, handlers) == PlacedIn(g, handlers);
    }
  }

  lemma {:induction false} StripKeepsOthers(groups: seq<Json>)
    requires GroupsOk(groups)
    ensures Others(Strip(groups)) == Others(groups)
    decreases |groups|
  {
    if groups != [] {
      assert groups[0] in groups;
      StripGroupKeepsOthers(groups[0]);
      StripKeepsOthers(groups[1..]);
      OthersAppend(StripGroup(groups[0]), Strip(groups[1..]));
    }
  }

  lemma ManagedGroupHasNoOthers(event: string, command: string)
    requires Contains(command, MARKER)
    ensures Others([ManagedGroup(event, command)]) == []
  {
    ManagedGroupVanishes(event, command);
    var g := ManagedGroup(event, command);
    assert Filter(Unmanaged, Handlers(g)) == [];
    assert [g][1..] == [] && PlacedIn(g, []) == [];
  }

  // The unmanaged handlers of every event survive a merge, in order and with the
  // other fields of their groups; events that are not managed do not change at all.
  lemma MergeKeepsOthers(doc: Json, command: string, event: string)
    requires Merge(doc, command).Some? && Contains(command, MARKER)
    ensures OthersOf(Merge(doc, command).value, event) == OthersOf(doc, event)
    ensures event !in EVENTS && event in HooksOf(doc) ==>
      event in HooksOf(Merge(doc, command).value) && HooksOf(Merge(doc, command).value)[event] == HooksOf(doc)[event]
  {
    var hooks := HooksOf(doc);
    HooksOfWith(doc, MergedHooks(hooks, EVENTS, command), map[]);
    MergedKeepsOthers(hooks, EVENTS, command, event);
  }

  function OthersIn(hooks: map<string, Json>, event: string): seq<Placed> {
    if event in hooks && hooks[event].Arr? then Others(hooks[event].items) else []
  }

  lemma MergedKeepsOthers(hooks: map<string, Json>, events: seq<string>, command: string, event: string)
    requires HooksMergeable(hooks, events) && Contains(command, MARKER)
    ensures OthersIn(MergedHooks(hooks, events, command), event) == OthersIn(hooks, event)
  {
    if event in events {
      var groups := Get(hooks, event, Arr([])).items;
      assert event in Members(events);
      StripKeepsOthers(groups);
      ManagedGroupHasNoOthers(event, command);
      OthersAppend(Strip(groups), [ManagedGroup(event, command)]);
      assert MergedHooks(hooks, events, command)[event] == MergedEvent(hooks, event, command);
    }
  }

  // They survive a removal too.
  lemma RemoveKeepsOthers(doc: Json, event: string)
    requires Remove(doc).Some?
    ensures OthersOf(Remove(doc).value, event) == OthersOf(doc, event)
  {
    var hooks := doc.members["hooks"].members;
    RemovableIsMergeable(doc, []);
    HooksOfWith(doc, StrippedHooks(hooks), map[]);
    if event in hooks {
      assert EventRemovable(hooks[event]);
      StripKeepsOthers(hooks[event].items);
    }
  }

  lemma {:induction false} StripLeavesNoManaged(groups: seq<Json>)
    requires GroupsOk(groups)
    ensures forall g, h :: g in Strip(groups) && h in Handlers(g) ==> !IsManaged(h)
    decreases |groups|
  {
    if groups != [] { StripLeavesNoManaged(groups[1..]); }
  }

  ghost predicate OnlyLastManaged(groups: Json, last: Json) {
    && groups.Arr? && groups.items != [] && groups.items[|groups.items| - 1] == last
    && forall g, h :: g in groups.items[..|groups.items| - 1] && h in Handlers(g) ==> !IsManaged(h)
  }

  // After a merge the last group of every managed event holds the new command, and
  // no other handler of the event is a managed one.
  lemma MergeLeavesOneManaged(doc: Json, command: string, event: string)
    requires Merge(doc, command).Some? && event in EVENTS
    ensures var hooks := HooksOf(Merge(doc, command).value);
      event in hooks && OnlyLastManaged(hooks[event], ManagedGroup(event, command))
  {
    var hooks := HooksOf(doc);
    HooksOfWith(doc, MergedHooks(hooks, EVENTS, command), map[]);
    MergedLast(hooks, EVENTS, command, event);
  }

  lemma MergedLast(hooks: map<string, Json>, events: seq<string>, command: string, event: string)
    requires HooksMergeable(hooks, events) && event in events
    ensures var once := MergedHooks(hooks, events, command);
      event in once && OnlyLastManaged(once[event], ManagedGroup(event, command))
  {
    assert event in Members(events);
    var stripped := Strip(Get(hooks, event, Arr([])).items);
    StripLeavesNoManaged(Get(hooks, event, Arr([])).items);
    assert (stripped + [ManagedGroup(event, command)])[..|stripped|] == stripped;
    assert MergedHooks(hooks, events, command)[event] == MergedEvent(hooks, event, command);
  }

  // ----- Built commands are managed ones ------------------------------------------------------

  function Heads(words: seq<string>): string {
    if words == [] then "" else words[0] + (" " + Heads(words[1..]))
  }

  lemma {:induction false} JoinSplits(words: seq<string>, k: nat)
    requires k < |words|
    ensures HookCommand.Join(words) == Heads(words[..k]) + HookCommand.Join(words[k..])
    decreases k
  {
    if k == 0 {
      assert words[0..] == words && Heads(words[..0]) == "";
    } else {
      JoinSplits(words[1..], k - 1);
      assert words[..k][1..] == words[1..][..k - 1] && words[1..][k - 1..] == words[k..];
      Assoc(words[0], " " + Heads(words[..k][1..]), HookCommand.Join(words[k..]));
      Assoc(" ", Heads(words[..k][1..]), HookCommand.Join(words[k..]));
      Assoc(words[0], " ", HookCommand.Join(words[1..]));
    }
  }

  lemma {:induction false} HeadsEndInBlank(words: seq<string>)
    requires words != []
    ensures Heads(words) != "" && Heads(words)[|Heads(words)| - 1] == ' '
  {
    if |words| == 1 {
      assert Heads(words[1..]) == "";
    } else {
      HeadsEndInBlank(words[1..]);
    }
  }

  lemma {:induction false} NoQuotes(s: string)
    requires forall i :: 0 <= i < |s| ==> s[i] != '\''
    ensures HookCommand.Requoted(s) == s
  {
    if s != "" {
      NoQuotes(s[1..]);
      assert [s[0]] + s[1..] == s;
    }
  }

  lemma TailShape(flag: string, word: string)
    requires forall i :: 0 <= i < |word| ==> word[i] != '\''
    ensures HookCommand.Join([flag, HookCommand.ShellQuote(word)]) == flag + " " + ("'" + word + "'")
  {
    NoQuotes(word);
    assert [flag, HookCommand.ShellQuote(word)][1..] == [HookCommand.ShellQuote(word)];
  }

  lemma MarkerText()
    ensures " " + ("--managed-by" + " " + ("'" + "memo-graph" + "'")) == MARKER
  {
  }

  lemma OwnerHasNoQuotes()
    ensures forall i :: 0 <= i < |"memo-graph"| ==> "memo-graph"[i] != '\''
  {
  }

  lemma TailIsMarker(flag: string, word: string)
    requires flag == "--managed-by" && word == "memo-graph"
    ensures " " + HookCommand.Join([flag, HookCommand.ShellQuote(word)]) == MARKER
  {
    OwnerHasNoQuotes();
    TailShape(flag, word);
    MarkerText();
  }

  lemma EndsWithMarker(head: string, tail: string)
    requires head != "" && head[|head| - 1] == ' ' && " " + tail == MARKER
    ensures Contains(head + tail, MARKER)
  {
    var s, i := head + tail, |head| - 1;
    assert s[i..i + |MARKER|] == " " + tail;
    assert OccursAt(s, MARKER, i);
  }

  // Every command that the builder builds is a managed one.
  lemma BuiltCommandsAreManaged(p: HookCommand.Paths)
    requires HookCommand.AllAbsolute(p)
    ensures Contains(HookCommand.BuildManagedHookCommand(p).value, MARKER)
  {
    TailIsMarker("--managed-by", "memo-graph");
    ManagedEight(HookCommand.ShellQuote(p.node), HookCommand.ShellQuote(p.entry), "--descriptor",
      HookCommand.ShellQuote(p.descriptor), "--spool", HookCommand.ShellQuote(p.spool),
      "--managed-by", HookCommand.ShellQuote("memo-graph"));
  }

  lemma ManagedEight(a: string, b: string, c: string, d: string, e: string, f: string, g: string, h: string)
    requires " " + HookCommand.Join([g, h]) == MARKER
    ensures Contains(HookCommand.Join([a, b, c, d, e, f, g, h]), MARKER)
  {
    assert [a, b, c, d, e, f] + [g, h] == [a, b, c, d, e, f, g, h];
    ManagedTail([a, b, c, d, e, f], [g, h]);
  }

  lemma ManagedTail(first: seq<string>, last: seq<string>)
    requires first != [] && last != [] && " " + HookCommand.Join(last) == MARKER
    ensures Contains(HookCommand.Join(first + last), MARKER)
  {
    var words := first + last;
    JoinSplits(words, |first|);
    assert words[..|first|] == first && words[|first|..] == last;
    HeadsEndInBlank(first);
    EndsWithMarker(Heads(first), HookCommand.Join(last));
  }
}
