// What a merge installs and a removal leaves, field by field.
module HookInstallation {
  import opened Ordering
  import opened HookConfig
  import HookCommand

  predicate IsManagedEvent(event: string) {
    event == "SessionStart" || event == "UserPromptSubmit" || event == "Stop" || event == "SessionEnd"
  }

  lemma ManagedEvents(event: string)
    ensures event in EVENTS <==> IsManagedEvent(event)
  {
    assert EVENTS[0] == "SessionStart" && EVENTS[1] == "UserPromptSubmit" && EVENTS[2] == "Stop" && EVENTS[3] == "SessionEnd";
  }

  // A command handler that runs the command for three seconds at most.
  predicate Runs(handler: Json, command: string, limited: bool) {
    && handler.Obj?
    && handler.members.Keys == {"type", "command", "timeout"} + (if limited then {"additionalContextLimit"} else {})
    && handler.members["type"] == Str("command") && handler.members["command"] == Str(command)
    && handler.members["timeout"] == Atom(3)
    && (limited ==> handler.members["additionalContextLimit"] == Atom(4000))
  }

  // A group of this one handler.
  predicate HoldsOnly(group: Json, event: string, command: string) {
    && group.Obj?
    && group.members.Keys == {"hooks"} + (if event == "SessionStart" then {"matcher"} else {})
    && group.members["hooks"].Arr? && |group.members["hooks"].items| == 1
    && Runs(group.members["hooks"].items[0], command, event == "UserPromptSubmit")
    && (event == "SessionStart" ==> group.members["matcher"] == Str("startup|resume|clear|compact"))
  }

  predicate EndsWith(groups: Json, event: string, command: string) {
    groups.Arr? && groups.items != [] && HoldsOnly(groups.items[|groups.items| - 1], event, command)
  }

  lemma ManagedGroupInFields(event: string, command: string)
    ensures HoldsOnly(ManagedGroup(event, command), event, command)
  {
    var handler := ManagedHandler(event, command);
    assert Runs(handler, command, event == "UserPromptSubmit");
  }

  // After a merge the last group of each of the four events holds one handler, which
  // runs the given command; other events and other members of the document stay.
  lemma MergeInstalls(doc: Json, command: string, event: string)
    requires Merge(doc, command).Some?
    ensures var merged := Merge(doc, command).value;
      && doc.Obj? && merged.Obj? && "hooks" in merged.members && merged.members["hooks"].Obj?
      && merged.members - {"hooks"} == doc.members - {"hooks"}
      && var hooks := merged.members["hooks"].members;
        && (IsManagedEvent(event) ==> event in hooks && EndsWith(hooks[event], event, command))
        && (!IsManagedEvent(event) ==> (event in hooks <==> event in HooksOf(doc)) && (event in hooks ==> hooks[event] == HooksOf(doc)[event]))
  {
    ManagedEvents(event);
    ManagedGroupInFields(event, command);
    HooksOfWith(doc, MergedHooks(HooksOf(doc), EVENTS, command), map[]);
    if event in EVENTS { MergeLeavesOneManaged(doc, command, event); }
  }

  predicate RunsManaged(handler: Json) {
    && handler.Obj? && "command" in handler.members && handler.members["command"].Str?
    && exists i :: 0 <= i <= |handler.members["command"].s| && OccursAt(handler.members["command"].s, " --managed-by 'memo-graph'", i)
  }

  lemma ManagedInFields(handler: Json)
    ensures IsManaged(handler) <==> RunsManaged(handler)
  {
  }

  // After a removal no handler of any event runs a managed command, and no group and no
  // event is left without handlers.
  lemma RemoveLeavesNone(doc: Json, event: string, g: Json)
    requires Remove(doc).Some?
    ensures var removed := Remove(doc).value;
      && removed.Obj? && "hooks" in removed.members && removed.members["hooks"].Obj?
      && var hooks := removed.members["hooks"].members;
        event in hooks ==>
          && hooks[event].Arr? && hooks[event].items != []
          && (g in hooks[event].items ==>
                && g.Obj? && "hooks" in g.members && g.members["hooks"].Arr? && g.members["hooks"].items != []
                && forall h :: h in g.members["hooks"].items ==> !RunsManaged(h))
  {
    var hooks := doc.members["hooks"].members;
    if event in StrippedHooks(hooks) {
      assert EventRemovable(hooks[event]);
      StrippedGroups(hooks[event].items);
      StripLeavesNoManaged(hooks[event].items);
      forall h ensures IsManaged(h) <==> RunsManaged(h) { ManagedInFields(h); }
    }
  }

  lemma {:induction false} StrippedGroups(groups: seq<Json>)
    requires GroupsOk(groups)
    ensures forall g :: g in Strip(groups) ==> GroupOk(g) && Handlers(g) != []
    decreases |groups|
  {
    if groups != [] {
      assert groups[0] in groups;
      StrippedGroups(groups[1..]);
      forall g | g in StripGroup(groups[0]) ensures GroupOk(g) && Handlers(g) != [] { }
    }
  }

  predicate Rooted(path: string) { path != "" && path[0] == '/' }

  // A command is built exactly for absolute paths, and a POSIX shell splits it into the
  // two executables and the three flags with their values.
  lemma CommandInWords(p: HookCommand.Paths)
    ensures HookCommand.BuildManagedHookCommand(p).Some? <==> Rooted(p.node) && Rooted(p.entry) && Rooted(p.descriptor) && Rooted(p.spool)
    ensures HookCommand.BuildManagedHookCommand(p).Some? ==>
      HookCommand.SplitWords(HookCommand.BuildManagedHookCommand(p).value)
        == HookCommand.Some([p.node, p.entry, "--descriptor", p.descriptor, "--spool", p.spool, "--managed-by", "memo-graph"])
  {
    if HookCommand.AllAbsolute(p) { HookCommand.ShellSplitsCommand(p); }
  }
}
