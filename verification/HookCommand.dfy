// The managed hook command: how it is quoted, how a POSIX shell splits it, and how
// the hook program reads its arguments back.
module HookCommand {

  datatype Option<+T> = None | Some(value: T)

  // ----- Quoting --------------------------------------------------------------------

  // Every single quote becomes: end the quotes, a quote in double quotes, reopen.
  function Requoted(value: string): string {
    if value == "" then ""
    else (if value[0] == '\'' then "'\"'\"'" else [value[0]]) + Requoted(value[1..])
  }

  function ShellQuote(value: string): string {
    "'" + Requoted(value) + "'"
  }

  predicate IsAbsolute(path: string) {
    path != "" && path[0] == '/'
  }

  datatype Paths = Paths(node: string, entry: string, descriptor: string, spool: string)

  predicate AllAbsolute(p: Paths) {
    IsAbsolute(p.node) && IsAbsolute(p.entry) && IsAbsolute(p.descriptor) && IsAbsolute(p.spool)
  }

  function Join(words: seq<string>): string {
    if words == [] then "" else if |words| == 1 then words[0] else words[0] + " " + Join(words[1..])
  }

  function BuildManagedHookCommand(p: Paths): Option<string> {
    if AllAbsolute(p) then
      Some(Join([ShellQuote(p.node), ShellQuote(p.entry), "--descriptor", ShellQuote(p.descriptor),
                 "--spool", ShellQuote(p.spool), "--managed-by", ShellQuote("memo-graph")]))
    else None
  }

  // ----- How the shell reads it -----------------------------------------------------

  predicate Blank(c: char) { c == ' ' || c == '\t' }

  // Characters that mean something to the shell when they are not quoted.
  predicate Special(c: char) {
    || c == '|' || c == '&' || c == ';' || c == '<' || c == '>' || c == '(' || c == ')' || c == '$' || c == '`'
    || c == '\n' || c == '*' || c == '?' || c == '[' || c == '#' || c == '~' || c == '=' || c == '%'
  }

  function Prefixed(s: string, r: Option<(string, string)>): Option<(string, string)> {
    match r case None => None case Some(p) => Some((s + p.0, p.1))
  }

  // Up to the closing single quote (section 2.2.2 of the Shell Command Language).
  function ReadSingle(t: string): (r: Option<(string, string)>)
    ensures r.Some? ==> |r.value.1| < |t|
  {
    if t == "" then None
    else if t[0] == '\'' then Some(("", t[1..]))
    else Prefixed([t[0]], ReadSingle(t[1..]))
  }

  // Up to the closing double quote (section 2.2.3); expansions are not plain text.
  function ReadDouble(t: string): (r: Option<(string, string)>)
    ensures r.Some? ==> |r.value.1| < |t|
    decreases |t|
  {
    if t == "" || t[0] == '$' || t[0] == '`' then None
    else if t[0] == '"' then Some(("", t[1..]))
    else if t[0] == '\\' && |t| >= 2 && t[1] == '\n' then ReadDouble(t[2..])
    else if t[0] == '\\' && |t| >= 2 && (t[1] == '$' || t[1] == '`' || t[1] == '"' || t[1] == '\\') then Prefixed([t[1]], ReadDouble(t[2..]))
    else Prefixed([t[0]], ReadDouble(t[1..]))
  }

  // The rest of a word, and what follows it.
  function ReadWord(t: string): (r: Option<(string, string)>)
    ensures r.Some? ==> |r.value.1| <= |t|
    ensures r.Some? && t != "" && !Blank(t[0]) ==> |r.value.1| < |t|
    decreases |t|
  {
    if t == "" || Blank(t[0]) then Some(("", t))
    else if t[0] == '\'' then
      (match ReadSingle(t[1..]) case None => None case Some(p) => Prefixed(p.0, ReadWord(p.1)))
    else if t[0] == '"' then
      (match ReadDouble(t[1..]) case None => None case Some(p) => Prefixed(p.0, ReadWord(p.1)))
    else if t[0] == '\\' then
      if |t| < 2 then None
      else if t[1] == '\n' then ReadWord(t[2..])
      else Prefixed([t[1]], ReadWord(t[2..]))
    else if Special(t[0]) then None
    else Prefixed([t[0]], ReadWord(t[1..]))
  }

  // The words of a simple command; None when it is more than words.
  function SplitWords(t: string): Option<seq<string>>
    decreases |t|
  {
    if t == "" then Some([])
    else if Blank(t[0]) then SplitWords(t[1..])
    else match ReadWord(t)
      case None => None
      case Some(w) =>
        match SplitWords(w.1) case None => None case Some(rest) => Some([w.0] + rest)
  }

  // ----- Quoting is undone --------------------------------------------------------------

  // Reading on inside single quotes and then to the end of the word.
  function ReadQuoted(t: string): Option<(string, string)> {
    match ReadSingle(t) case None => None case Some(p) => Prefixed(p.0, ReadWord(p.1))
  }

  lemma QuotedChar(c: char, t: string)
    requires c != '\''
    ensures ReadQuoted([c] + t) == Prefixed([c], ReadQuoted(t))
  {
    assert ([c] + t)[1..] == t;
    if ReadSingle(t).Some? && ReadWord(ReadSingle(t).value.1).Some? {
      var a, b := ReadSingle(t).value.0, ReadWord(ReadSingle(t).value.1).value.0;
      assert ([c] + a) + b == [c] + (a + b);
    }
  }

  lemma DoubleQuotedQuote(t: string)
    ensures ReadDouble("'\"" + t) == Some(("'", t))
  {
    var s := "'\"" + t;
    assert s[0] == '\'' && s[1..] == "\"" + t;
    assert s[1..][1..] == t && ReadDouble(s[1..]) == Some(("", t));
    assert [s[0]] + "" == "'";
  }

  lemma QuotedQuote(t: string)
    ensures ReadQuoted("'\"'\"'" + t) == Prefixed("'", ReadQuoted(t))
  {
    var s := "'\"'\"'" + t;
    var word := "\"'\"'" + t;
    var reopened := "'" + t;
    assert s[0] == '\'' && s[1..] == word;
    assert word[0] == '"' && word[1..] == "'\"" + reopened;
    DoubleQuotedQuote(reopened);
    assert reopened[0] == '\'' && reopened[1..] == t;
    assert ReadWord(reopened) == ReadQuoted(t);
    assert ReadWord(word) == Prefixed("'", ReadQuoted(t));
    EmptyPrefix("'", ReadQuoted(t));
  }

  lemma EmptyPrefix(a: string, r: Option<(string, string)>)
    ensures Prefixed("", Prefixed(a, r)) == Prefixed(a, r)
  {
    if r.Some? { assert "" + (a + r.value.0) == a + r.value.0; }
  }

  lemma {:induction false} RequotedIsUndone(value: string, t: string)
    ensures ReadQuoted(Requoted(value) + ("'" + t)) == Prefixed(value, ReadWord(t))
    decreases |value|
  {
    var rest := Requoted(value[if value == "" then 0 else 1..]) + ("'" + t);
    if value == "" {
      assert Requoted(value) + ("'" + t) == "'" + t;
      assert ("'" + t)[1..] == t;
    } else {
      RequotedIsUndone(value[1..], t);
      assert [value[0]] + value[1..] == value;
      PrefixedTwice([value[0]], value[1..], ReadWord(t));
      if value[0] == '\'' {
        assert Requoted(value) + ("'" + t) == "'\"'\"'" + rest;
        QuotedQuote(rest);
        assert "'" == [value[0]];
      } else {
        assert Requoted(value) + ("'" + t) == [value[0]] + rest;
        QuotedChar(value[0], rest);
      }
    }
  }

  lemma PrefixedTwice(a: string, b: string, r: Option<(string, string)>)
    ensures Prefixed(a, Prefixed(b, r)) == Prefixed(a + b, r)
  {
    if r.Some? { assert a + (b + r.value.0) == (a + b) + r.value.0; }
  }

  // Text that follows a word: nothing, or a blank.
  predicate Delimits(t: string) {
    t == "" || Blank(t[0])
  }

  // A quoted value is one word, whatever it contains.
  lemma QuotedIsOneWord(value: string, t: string)
    requires Delimits(t)
    ensures ReadWord(ShellQuote(value) + t) == Some((value, t))
    ensures !Delimits(ShellQuote(value) + t)
  {
    RequotedIsUndone(value, t);
    assert (ShellQuote(value) + t)[1..] == Requoted(value) + ("'" + t);
    assert value + "" == value;
  }

  predicate Plain(word: string) {
    word != "" && forall c :: c in word ==> !Blank(c) && !Special(c) && c != '\'' && c != '"' && c != '\\'
  }

  lemma {:induction false} PlainIsOneWord(word: string, t: string)
    requires Delimits(t) && (word == "" || Plain(word))
    ensures ReadWord(word + t) == Some((word, t))
    decreases |word|
  {
    if word == "" {
      assert word + t == t;
    } else {
      assert (word + t)[0] == word[0] && (word + t)[1..] == word[1..] + t;
      assert word[0] in word;
      forall c | c in word[1..] ensures c in word { }
      PlainIsOneWord(word[1..], t);
      assert [word[0]] + word[1..] == word;
    }
  }

  // A printed word and what it stands for.
  predicate Stands(printed: string, word: string) {
    printed == ShellQuote(word) || (printed == word && Plain(word))
  }

  lemma StandsForOneWord(printed: string, word: string, t: string)
    requires Stands(printed, word) && Delimits(t)
    ensures ReadWord(printed + t) == Some((word, t)) && printed + t != "" && !Blank((printed + t)[0])
  {
    if printed == ShellQuote(word) {
      QuotedIsOneWord(word, t);
    } else {
      PlainIsOneWord(word, t);
      assert word[0] in word && (word + t)[0] == word[0];
    }
  }

  // Joining printed words with spaces and splitting gives the words back.
  lemma {:induction false} SplitUndoesJoin(printed: seq<string>, words: seq<string>)
    requires |printed| == |words| && forall i :: 0 <= i < |words| ==> Stands(printed[i], words[i])
    ensures SplitWords(Join(printed)) == Some(words)
    decreases |printed|
  {
    if printed == [] {
    } else {
      SplitUndoesJoin(printed[1..], words[1..]);
      var t := if |printed| == 1 then "" else " " + Join(printed[1..]);
      if |printed| == 1 {
        assert printed[0] + t == printed[0];
      } else {
        assert t[1..] == Join(printed[1..]);
        Regroup(printed[0], Join(printed[1..]));
      }
      FirstWord(printed[0], words[0], t, words[1..]);
      assert [words[0]] + words[1..] == words;
    }
  }

  lemma Regroup(a: string, b: string)
    ensures a + " " + b == a + (" " + b)
  {
  }

  lemma FirstWord(printed: string, word: string, t: string, rest: seq<string>)
    requires Stands(printed, word) && Delimits(t) && SplitWords(t) == Some(rest)
    ensures SplitWords(printed + t) == Some([word] + rest)
  {
    StandsForOneWord(printed, word, t);
  }

  function CommandWords(p: Paths): seq<string> {
    [p.node, p.entry, "--descriptor", p.descriptor, "--spool", p.spool, "--managed-by", "memo-graph"]
  }

  predicate PlainChar(c: char) {
    !Blank(c) && !Special(c) && c != '\'' && c != '"' && c != '\\'
  }

  lemma PlainByIndex(word: string)
    requires word != "" && forall i :: 0 <= i < |word| ==> PlainChar(word[i])
    ensures Plain(word)
  {
  }

  lemma FlagsArePlain()
    ensures Plain("--descriptor") && Plain("--spool") && Plain("--managed-by")
  {
    PlainByIndex("--descriptor");
    PlainByIndex("--spool");
    PlainByIndex("--managed-by");
  }

  // A POSIX shell splits the built command into exactly the intended arguments, for
  // every path, also one with quotes, blanks, dollars or backslashes in it.
  lemma ShellSplitsCommand(p: Paths)
    requires AllAbsolute(p)
    ensures SplitWords(BuildManagedHookCommand(p).value) == Some(CommandWords(p))
  {
    FlagsArePlain();
    SplitEight(p.node, p.entry, "--descriptor", p.descriptor, "--spool", p.spool, "--managed-by", "memo-graph");
  }

  lemma SplitEight(a: string, b: string, c: string, d: string, e: string, f: string, g: string, h: string)
    requires Plain(c) && Plain(e) && Plain(g)
    ensures SplitWords(Join([ShellQuote(a), ShellQuote(b), c, ShellQuote(d), e, ShellQuote(f), g, ShellQuote(h)]))
         == Some([a, b, c, d, e, f, g, h])
  {
    SplitUndoesJoin([ShellQuote(a), ShellQuote(b), c, ShellQuote(d), e, ShellQuote(f), g, ShellQuote(h)], [a, b, c, d, e, f, g, h]);
  }

  // ----- The hook program's arguments ------------------------------------------------------

  datatype Arguments = Arguments(descriptor: string, spool: string)

  predicate IsFlag(argv: seq<string>, i: int) {
    0 <= i && i % 2 == 0 && i + 1 < |argv|
  }

  predicate FlagAt(argv: seq<string>, i: int, flag: string) {
    IsFlag(argv, i) && argv[i] == flag
  }

  predicate KnownFlag(flag: string, value: string) {
    flag == "--descriptor" || flag == "--spool" || (flag == "--managed-by" && value == "memo-graph")
  }

  // What the program accepts: flag and value pairs, no flag twice, all of them known,
  // and both paths given and absolute.
  ghost predicate Accepts(argv: seq<string>, a: Arguments) {
    && |argv| % 2 == 0
    && (forall i, j :: IsFlag(argv, i) && IsFlag(argv, j) && argv[i] == argv[j] ==> i == j)
    && (forall i :: IsFlag(argv, i) ==> KnownFlag(argv[i], argv[i + 1]))
    && (exists i :: FlagAt(argv, i, "--descriptor") && argv[i + 1] == a.descriptor)
    && (exists i :: FlagAt(argv, i, "--spool") && argv[i + 1] == a.spool)
    && IsAbsolute(a.descriptor) && IsAbsolute(a.spool)
  }

  function SeenFlags(argv: seq<string>, n: nat): set<string> {
    set i | 0 <= i < n && IsFlag(argv, i) :: argv[i]
  }

  ghost predicate GoodSoFar(argv: seq<string>, n: nat) {
    && (forall i, j :: IsFlag(argv, i) && IsFlag(argv, j) && i < n && j < n && argv[i] == argv[j] ==> i == j)
    && (forall i :: IsFlag(argv, i) && i < n ==> KnownFlag(argv[i], argv[i + 1]))
  }

  lemma GoodStep(argv: seq<string>, n: nat)
    requires GoodSoFar(argv, n) && IsFlag(argv, n) && argv[n] !in SeenFlags(argv, n) && KnownFlag(argv[n], argv[n + 1])
    ensures GoodSoFar(argv, n + 2) && SeenFlags(argv, n + 2) == SeenFlags(argv, n) + {argv[n]}
  {
    assert forall i :: IsFlag(argv, i) && i < n ==> argv[i] in SeenFlags(argv, n);
    assert forall i :: IsFlag(argv, i) && i < n + 2 ==> i < n || i == n;
  }

  lemma SeenTwice(argv: seq<string>, n: nat)
    requires IsFlag(argv, n) && argv[n] in SeenFlags(argv, n)
    ensures forall a :: !Accepts(argv, a)
  {
  }

  // The value that a flag before position n was given.
  ghost predicate ValueSoFar(argv: seq<string>, n: nat, flag: string, value: Option<string>) {
    match value
    case None => forall i :: FlagAt(argv, i, flag) ==> i >= n
    case Some(v) => exists i :: FlagAt(argv, i, flag) && i < n && argv[i + 1] == v
  }

  lemma ValueStep(argv: seq<string>, n: nat, flag: string, value: Option<string>)
    requires ValueSoFar(argv, n, flag, value) && IsFlag(argv, n)
    ensures ValueSoFar(argv, n + 2, flag, if argv[n] == flag then Some(argv[n + 1]) else value)
  {
    if argv[n] == flag { assert FlagAt(argv, n, flag); }
    assert forall i :: FlagAt(argv, i, flag) && i >= n && i != n ==> i >= n + 2;
  }

  method ParseArguments(argv: seq<string>) returns (r: Option<Arguments>)
    ensures r.Some? ==> Accepts(argv, r.value)
    ensures r.None? ==> forall a :: !Accepts(argv, a)
  {
    var descriptor: Option<string>, spool: Option<string> := None, None;
    var seen: set<string> := {};
    var index := 0;
    while index < |argv|
      invariant index % 2 == 0 && index <= |argv|
      invariant GoodSoFar(argv, index) && seen == SeenFlags(argv, index)
      invariant ValueSoFar(argv, index, "--descriptor", descriptor)
      invariant ValueSoFar(argv, index, "--spool", spool)
    {
      if index + 1 >= |argv| {
        return None;
      }
      var flag, value := argv[index], argv[index + 1];
      if flag in seen {
        SeenTwice(argv, index);
        return None;
      }
      ValueStep(argv, index, "--descriptor", descriptor);
      ValueStep(argv, index, "--spool", spool);
      FlagsDiffer();
      if flag == "--descriptor" {
        descriptor := Some(value);
      } else if flag == "--spool" {
        spool := Some(value);
      } else if flag != "--managed-by" || value != "memo-graph" {
        assert IsFlag(argv, index) && !KnownFlag(argv[index], argv[index + 1]);
        return None;
      }
      GoodStep(argv, index);
      seen := seen + {flag};
      index := index + 2;
    }
    if descriptor.None? || spool.None? || !IsAbsolute(descriptor.value) || !IsAbsolute(spool.value) {
      RefusesPaths(argv, descriptor, spool);
      return None;
    }
    AllSeen(argv, index);
    r := Some(Arguments(descriptor.value, spool.value));
  }

  lemma AllSeen(argv: seq<string>, n: nat)
    requires n >= |argv| && GoodSoFar(argv, n)
    ensures forall i, j :: IsFlag(argv, i) && IsFlag(argv, j) && argv[i] == argv[j] ==> i == j
    ensures forall i :: IsFlag(argv, i) ==> KnownFlag(argv[i], argv[i + 1])
  {
  }

  lemma RefusesPaths(argv: seq<string>, descriptor: Option<string>, spool: Option<string>)
    requires ValueSoFar(argv, |argv|, "--descriptor", descriptor) && ValueSoFar(argv, |argv|, "--spool", spool)
    requires descriptor.None? || spool.None? || !IsAbsolute(descriptor.value) || !IsAbsolute(spool.value)
    ensures forall a :: !Accepts(argv, a)
  {
  }

  // Accepted arguments are read in one way only.
  lemma AcceptsOnce(argv: seq<string>, a: Arguments, b: Arguments)
    requires Accepts(argv, a) && Accepts(argv, b)
    ensures a == b
  {
  }

  // The tail of the split command is accepted, as the paths that were put in.
  lemma CommandTailIsAccepted(p: Paths, a: Arguments)
    requires AllAbsolute(p)
    ensures Accepts(CommandWords(p)[2..], a) <==> a == Arguments(p.descriptor, p.spool)
  {
    var argv := CommandWords(p)[2..];
    assert argv == ["--descriptor", p.descriptor, "--spool", p.spool, "--managed-by", "memo-graph"];
    assert FlagAt(argv, 0, "--descriptor") && FlagAt(argv, 2, "--spool") && FlagAt(argv, 4, "--managed-by");
    FlagsDiffer();
    assert forall i :: IsFlag(argv, i) ==> i == 0 || i == 2 || i == 4;
    assert Accepts(argv, Arguments(p.descriptor, p.spool));
    if Accepts(argv, a) { AcceptsOnce(argv, a, Arguments(p.descriptor, p.spool)); }
  }

  lemma FlagsDiffer()
    ensures "--descriptor" != "--spool" && "--spool" != "--managed-by" && "--descriptor" != "--managed-by"
  {
    assert "--descriptor"[2] != "--spool"[2];
    assert "--spool"[2] != "--managed-by"[2];
    assert "--descriptor"[2] != "--managed-by"[2];
  }
}
