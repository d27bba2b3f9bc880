/**
 What the names of internal/provider/claude/mcp.go look like: which tools keep theirs, what an alias shows of the
 name it stands for, and where in the body a name is replaced.
 */
module AliasNames {
  import opened Aliases
  import opened Json
  import opened Sequences
  import opened Strings

  // ---------------------------------------------------------------------------------------------
  // What an alias shows of a name
  // ---------------------------------------------------------------------------------------------

  /** A character of the cleaned name; an underscore put between two words is glue. */
  datatype Mark = Mark(c: char, glue: bool)

  predicate Plain(c: char) {
    'A' <= c <= 'Z' || 'a' <= c <= 'z' || '0' <= c <= '9' || c == '_' || c == '-'
  }

  /** The text between characters that no name may hold; there is one piece more than there are such characters. */
  function Between(s: string): (r: seq<string>)
    ensures r != []
  {
    if s == "" then [""]
    else
      var rest := Between(s[1..]);
      if Plain(s[0]) then [[s[0]] + rest[0]] + rest[1..] else [""] + rest
  }

  function Marks(w: string): (r: seq<Mark>)
    ensures |r| == |w| && forall i :: 0 <= i < |r| ==> r[i] == Mark(w[i], false)
  {
    seq(|w|, i requires 0 <= i < |w| => Mark(w[i], false))
  }

  /** The words with one underscore of glue between them. */
  function Glued(words: seq<string>): seq<Mark> {
    if words == [] then []
    else Marks(words[0]) + (if |words| == 1 then [] else [Mark('_', true)]) + Glued(words[1..])
  }

  function Words(pieces: seq<string>): seq<string> {
    if pieces == [] then [] else (if pieces[0] == "" then [] else [pieces[0]]) + Words(pieces[1..])
  }

  function Chars(ms: seq<Mark>): (r: string)
    ensures |r| == |ms| && forall i :: 0 <= i < |r| ==> r[i] == ms[i].c
  {
    seq(|ms|, i requires 0 <= i < |ms| => ms[i].c)
  }

  /** As much as there is room for; glue that would come last gives its place to the character after it. */
  function Fitting(ms: seq<Mark>, room: nat): string {
    if |ms| <= room then Chars(ms)
    else if room > 0 && ms[room - 1].glue then Chars(ms[..room - 1]) + [ms[room].c]
    else Chars(ms[..room])
  }

  /** What is still to come after a text that has something in it or not, and after a character dropped or not. */
  function Coming(started: bool, pending: bool, pieces: seq<string>): seq<Mark>
    requires pieces != []
  {
    var words := Words(pieces);
    if words == [] then []
    else if started && (pending || pieces[0] == "") then [Mark('_', true)] + Glued(words)
    else Glued(words)
  }

  lemma {:induction false} FullStays(original: string, max: nat, out: string, pending: bool)
    requires |out| == max && AllNameChars(out)
    ensures Gather(original, max, out, pending) == out
    decreases |original|
  {
    if original != "" && !IsNameChar(original[0]) {
      FullStays(original[1..], max, out, |out| > 0);
    }
  }

  lemma {:induction false} GatherStep(c: char, s: string, max: nat, out: string, pending: bool)
    requires |out| < max && AllNameChars(out)
    ensures Gather([c] + s, max, out, pending) ==
            if !Plain(c) then Gather(s, max, out, out != "")
            else if pending && |out| + 1 < max then Gather(s, max, out + ['_', c], false)
            else Gather(s, max, out + [c], false)
  {
    assert ([c] + s)[1..] == s;
    assert out + "_" + [c] == out + ['_', c];
  }

  /** The words still to come, after one more character. */
  lemma {:induction false} ComingStep(c: char, s: string, started: bool, pending: bool)
    requires pending ==> started
    ensures Coming(started, pending, Between([c] + s)) ==
            if !Plain(c) then Coming(started, started, Between(s))
            else (if pending then [Mark('_', true)] else []) + [Mark(c, false)] + Coming(true, false, Between(s))
  {
    var later := Between(s);
    assert ([c] + s)[1..] == s;
    if Plain(c) {
      ComingWord(c, later[0], later[1..], started, pending);
      assert [later[0]] + later[1..] == later;
    } else {
      ComingBreak(later, started, pending);
    }
  }

  lemma {:induction false} ComingBreak(later: seq<string>, started: bool, pending: bool)
    requires later != []
    ensures Coming(started, pending, [""] + later) == Coming(started, started, later)
  {
    assert ([""] + later)[1..] == later;
    assert [] + Words(later) == Words(later);
  }

  lemma {:induction false} ComingWord(c: char, w: string, more: seq<string>, started: bool, pending: bool)
    requires pending ==> started
    ensures Coming(started, pending, [[c] + w] + more) ==
            (if pending then [Mark('_', true)] else []) + [Mark(c, false)] + Coming(true, false, [w] + more)
  {
    var rest, glue := Words(more), [Mark('_', true)];
    var after := if rest == [] then [] else glue + Glued(rest);
    GluedAfter(c, w, rest);
    FullWord(started, pending, [c] + w, more);
    if w == "" {
      EmptyWord(more);
    } else {
      FullWord(true, false, w, more);
      GluedWord(w, rest);
    }
    hide Glued, Words, Coming, Marks;
    assert Coming(true, false, [w] + more) == Marks(w) + after;
    ConcatAssoc(if pending then glue else [], [Mark(c, false)], Marks(w) + after);
    ConcatAssoc([Mark(c, false)], Marks(w), after);
  }

  lemma {:induction false} EmptyWord(more: seq<string>)
    ensures Coming(true, false, [""] + more) == Marks("") + if Words(more) == [] then [] else [Mark('_', true)] + Glued(Words(more))
  {
    assert ([""] + more)[1..] == more;
    assert [] + Words(more) == Words(more);
    assert Marks("") == [];
  }

  lemma {:induction false} FullWord(started: bool, pending: bool, w: string, more: seq<string>)
    requires w != ""
    ensures Coming(started, pending, [w] + more) == (if started && pending then [Mark('_', true)] else []) + Glued([w] + Words(more))
  {
    assert ([w] + more)[1..] == more;
    assert Words([w] + more) == [w] + Words(more);
    assert [] + Glued([w] + Words(more)) == Glued([w] + Words(more));
  }

  lemma {:induction false} GluedWord(w: string, rest: seq<string>)
    ensures Glued([w] + rest) == Marks(w) + if rest == [] then [] else [Mark('_', true)] + Glued(rest)
  {
    assert ([w] + rest)[1..] == rest;
  }

  lemma {:induction false} GluedAfter(c: char, w: string, rest: seq<string>)
    ensures Glued([[c] + w] + rest) == [Mark(c, false)] + Marks(w) + if rest == [] then [] else [Mark('_', true)] + Glued(rest)
  {
    GluedWord([c] + w, rest);
    assert Marks([c] + w) == [Mark(c, false)] + Marks(w);
  }

  lemma {:induction false} FittingChar(c: char, tail: seq<Mark>, room: nat)
    requires room > 0
    ensures Fitting([Mark(c, false)] + tail, room) == [c] + Fitting(tail, room - 1)
  {
    var m := Mark(c, false);
    hide Chars;
    CharsAfter(m, tail);
    if |tail| + 1 > room {
      AfterOne(m, tail, room);
      CharsAfter(m, tail[..room - 1]);
      if room > 1 {
        AfterOne(m, tail, room - 1);
        CharsAfter(m, tail[..room - 2]);
        ConcatAssoc([c], Chars(tail[..room - 2]), [tail[room - 1].c]);
      }
    }
  }

  lemma {:induction false} AfterOne(m: Mark, tail: seq<Mark>, k: nat)
    requires 0 < k <= |tail|
    ensures ([m] + tail)[..k] == [m] + tail[..k - 1] && ([m] + tail)[k] == tail[k - 1] && ([m] + tail)[0] == m
    ensures k > 1 ==> ([m] + tail)[k - 1] == tail[k - 2]
  {
  }

  lemma {:induction false} CharsAfter(m: Mark, tail: seq<Mark>)
    ensures Chars([m] + tail) == [m.c] + Chars(tail)
  {
  }

  /** Glue fits if there is room for the character after it too. */
  lemma {:induction false} FittingGlue(c: char, tail: seq<Mark>, room: nat)
    requires room > 0
    ensures var ms := [Mark('_', true)] + ([Mark(c, false)] + tail);
            Fitting(ms, room) == if room > 1 then ['_'] + Fitting([Mark(c, false)] + tail, room - 1) else [c]
  {
    var glue, later := Mark('_', true), [Mark(c, false)] + tail;
    hide Chars;
    CharsAfter(glue, later);
    NoChars();
    if |later| + 1 > room {
      AfterOne(glue, later, room);
      CharsAfter(glue, later[..room - 1]);
      if room > 1 {
        AfterOne(glue, later, room - 1);
        CharsAfter(glue, later[..room - 2]);
        ConcatAssoc(['_'], Chars(later[..room - 2]), [later[room - 1].c]);
      } else {
        assert ([glue] + later)[..0] == [];
      }
    }
  }

  lemma {:induction false} NoChars()
    ensures Chars([]) == ""
  {
  }

  /** One more character fits, with its glue if there is room for both. */
  lemma {:induction false} FittingStep(c: char, glued: bool, tail: seq<Mark>, room: nat)
    requires room > 0
    ensures var ms := (if glued then [Mark('_', true)] else []) + [Mark(c, false)] + tail;
            Fitting(ms, room) ==
            if !glued then [c] + Fitting(tail, room - 1)
            else if room > 1 then ['_', c] + Fitting(tail, room - 2)
            else [c]
  {
    hide Fitting;
    if glued {
      ConcatAssoc([Mark('_', true)], [Mark(c, false)], tail);
      FittingGlue(c, tail, room);
      if room > 1 {
        FittingChar(c, tail, room - 1);
        ConcatAssoc(['_'], [c], Fitting(tail, room - 2));
        assert ['_'] + [c] == ['_', c];
      }
    } else {
      assert [] + [Mark(c, false)] == [Mark(c, false)];
      FittingChar(c, tail, room);
    }
  }

  lemma {:induction false} GatherIsFitting(original: string, max: nat, out: string, pending: bool)
    requires |out| <= max && AllNameChars(out) && (pending ==> out != "")
    ensures Gather(original, max, out, pending) == out + Fitting(Coming(out != "", pending, Between(original)), max - |out|)
    decreases |original|
  {
    if |out| == max {
      FullStays(original, max, out, pending);
      NoRoom(Coming(out != "", pending, Between(original)));
      assert out + "" == out;
    } else if original == "" {
      NothingComing(out != "", pending, max - |out|);
      assert out + "" == out;
    } else {
      var c, s := original[0], original[1..];
      assert original == [c] + s;
      PlainKeeps(out, c);
      hide Gather, Coming, Between, Fitting, AllNameChars;
      GatherStep(c, s, max, out, pending);
      ComingStep(c, s, out != "", pending);
      var tail := Coming(true, false, Between(s));
      FittingStep(c, pending, tail, max - |out|);
      if !Plain(c) {
        GatherIsFitting(s, max, out, out != "");
      } else if pending && |out| + 1 < max {
        GatherIsFitting(s, max, out + ['_', c], false);
        ConcatAssoc(out, ['_', c], Fitting(tail, max - |out| - 2));
      } else {
        GatherIsFitting(s, max, out + [c], false);
        NoRoom(tail);
        ConcatAssoc(out, [c], Fitting(tail, max - |out| - 1));
      }
    }
  }

  lemma {:induction false} PlainKeeps(out: string, c: char)
    requires AllNameChars(out)
    ensures Plain(c) ==> AllNameChars(out + ['_', c]) && AllNameChars(out + [c])
  {
  }

  lemma {:induction false} NothingComing(started: bool, pending: bool, room: nat)
    ensures Fitting(Coming(started, pending, Between("")), room) == ""
  {
    assert Between("")[1..] == [];
  }

  lemma {:induction false} NoRoom(ms: seq<Mark>)
    ensures Fitting(ms, 0) == ""
  {
  }

  /** The part of an alias that stands for the name: its words as far as they fit, trimmed, or "tool". */
  function Cleaned(original: string, max: nat): string {
    var trimmed := Trim(Fitting(Glued(Words(Between(original))), max), {'_', '-'});
    if trimmed == "" then "tool" else trimmed
  }

  lemma {:induction false} SemanticShowsWords(original: string, max: nat)
    ensures SemanticPart(original, max) == Cleaned(original, max)
  {
    hide Between, Fitting, Trim, Glued, Words, Gather;
    GatherIsFitting(original, max, "", false);
    NotStarted(Between(original));
    var fitting := Fitting(Glued(Words(Between(original))), max);
    assert "" + fitting == fitting;
  }

  lemma {:induction false} NotStarted(pieces: seq<string>)
    requires pieces != []
    ensures Coming(false, false, pieces) == Glued(Words(pieces))
  {
  }

  /**
   An alias reads mcp__ and the server's two words, then the word of its attempt and what it shows of the name, all
   chosen by the keyed digests and within 64 characters.
   */
  lemma {:induction false} AliasReads(env: Env, original: string, k: nat)
    requires GoodWords(env.words)
    ensures var n := |env.words|;
            var front := "mcp__" + env.words[env.number("server", "", 0) % n] + "_" + env.words[env.number("server", "", 2) % n]
                         + "__" + env.words[(env.number("tool", original, 0) % n + k) % n] + "_";
            && |front| <= 33
            && Candidate(env, original, k) == front + Cleaned(original, 64 - |front|)
  {
    hide Cleaned, Gather, SemanticPart;
    var n := |env.words|;
    var v, u := env.words[env.number("server", "", 0) % n], env.words[env.number("server", "", 2) % n];
    var w := env.words[(env.number("tool", original, 0) % n + k) % n];
    assert IsWord(v) && IsWord(u) && IsWord(w);
    var front := AliasPrefix(v + "_" + u, w);
    assert front == "mcp__" + v + "_" + u + "__" + w + "_" by {
      ConcatAssoc("mcp__", v + "_", u);
      ConcatAssoc("mcp__", v, "_");
    }
    SemanticShowsWords(original, 64 - |front|);
  }

  /** The k-th candidate is the first from some attempt on that is not in use. */
  predicate IsFirstFree(env: Env, original: string, from: nat, k: nat, reserved: set<string>)
    requires env.words != []
  {
    && from <= k < |env.words| && Candidate(env, original, k) !in reserved
    && forall j: nat :: from <= j < k ==> Candidate(env, original, j) in reserved
  }

  /** The alias allocated is the first candidate not in use, and none only if all are. */
  lemma {:induction false} FirstFreeIsAllocated(env: Env, original: string, from: nat, reserved: set<string>)
    requires env.words != []
    ensures var r := Allocated(env, original, from, reserved);
            if r == "" then forall k: nat :: from <= k < |env.words| ==> Candidate(env, original, k) in reserved
            else exists k: nat :: r == Candidate(env, original, k) && IsFirstFree(env, original, from, k, reserved)
    decreases |env.words| - from
  {
    hide Candidate;
    if from < |env.words| {
      CandidateIsNotEmpty(env, original, from);
      AllocatedStep(env, original, from, reserved);
      if Candidate(env, original, from) !in reserved {
        assert IsFirstFree(env, original, from, from, reserved);
      } else {
        FirstFreeIsAllocated(env, original, from + 1, reserved);
        var r := Allocated(env, original, from + 1, reserved);
        hide Allocated;
        if r != "" {
          var k: nat :| r == Candidate(env, original, k) && IsFirstFree(env, original, from + 1, k, reserved);
          assert IsFirstFree(env, original, from, k, reserved);
        }
      }
    }
  }

  lemma {:induction false} AllocatedStep(env: Env, original: string, from: nat, reserved: set<string>)
    requires from < |env.words|
    ensures var c := Candidate(env, original, from);
            Allocated(env, original, from, reserved) == if c !in reserved then c else Allocated(env, original, from + 1, reserved)
  {
    hide Candidate;
  }

  /** The aliases made of some tools: the names of those that changed. */
  function Made(tools: seq<Json>, tools': seq<Json>): set<string>
    requires |tools| == |tools'|
  {
    if tools == [] then {}
    else
      var n := |tools| - 1;
      Made(tools[..n], tools'[..n]) + if tools'[n] != tools[n] then {NameOf(tools'[n])} else {}
  }

  /** While declared tools are aliased, the names in use are those declared and the aliases made so far. */
  lemma {:induction false} NamesInUse(env: Env, b: Book, tools: seq<Json>)
    requires forall i :: 0 <= i < |tools| ==> NameOf(tools[i]) == "" || NameOf(tools[i]) in b.reserved
    ensures var (tools', b') := AliasTools(env, b, tools); b'.reserved == b.reserved + Made(tools, tools')
    decreases |tools|
  {
    hide AliasTool, NameOf;
    if tools != [] {
      var front, last := tools[..|tools| - 1], tools[|tools| - 1];
      var (done, b1) := AliasTools(env, b, front);
      var (tool, b2) := AliasTool(env, b1, last);
      NamesInUse(env, b, front);
      OneMoreInUse(env, b1, last);
      assert (done + [tool])[..|front|] == done;
    }
  }

  lemma {:induction false} OneMoreInUse(env: Env, b: Book, tool: Json)
    requires NameOf(tool) == "" || NameOf(tool) in b.reserved
    ensures var (tool', b') := AliasTool(env, b, tool);
            b'.reserved == b.reserved + if tool' != tool then {NameOf(tool')} else {}
  {
    hide Allocated, IsServerType, IsMcpName;
    var alias := Allocated(env, NameOf(tool), 0, b.reserved);
    if !Skipped(tool) && alias != "" {
      NewName(tool, alias);
      hide NameOf;
    }
  }

  // ---------------------------------------------------------------------------------------------
  // Which tools keep their names
  // ---------------------------------------------------------------------------------------------

  /** A name of the form mcp__server__tool, neither of them empty. */
  ghost predicate McpNamed(name: string) {
    && |name| <= 64
    && exists server, tool :: server != "" && tool != "" && !("__" <= server + "__" + tool) && name == "mcp__" + (server + "__" + tool)
  }

  lemma {:induction false} FirstGapIsFirst(s: string, i: nat)
    requires i + 1 < |s| && s[i] == '_' && s[i + 1] == '_'
    ensures FirstGap(s) <= i
  {
  }

  lemma {:induction false} IsMcpNameIs(name: string)
    ensures IsMcpName(name) <==> McpNamed(name)
  {
    if IsMcpName(name) {
      McpHasParts(name);
    }
    if McpNamed(name) {
      var server, tool :| server != "" && tool != "" && !("__" <= server + "__" + tool) && name == "mcp__" + (server + "__" + tool);
      PartsAreMcp(server, tool, name);
    }
  }

  lemma {:induction false} McpHasParts(name: string)
    requires IsMcpName(name)
    ensures McpNamed(name)
  {
    var rest := name[5..];
    var i := FirstGap(rest);
    var server, tool := rest[..i], rest[i + 2..];
    assert rest[i..i + 2] == "__" && rest == server + "__" + tool;
    assert name == "mcp__" + rest;
    hide FirstGap;
    StartsDouble(rest);
  }

  lemma {:induction false} StartsDouble(s: string)
    ensures "__" <= s <==> |s| >= 2 && s[0] == '_' && s[1] == '_'
  {
    assert |s| >= 2 && s[0] == '_' && s[1] == '_' ==> s[..2] == "__";
  }

  lemma {:induction false} PartsAreMcp(server: string, tool: string, name: string)
    requires server != "" && tool != "" && !("__" <= server + "__" + tool) && name == "mcp__" + (server + "__" + tool)
    requires |name| <= 64
    ensures IsMcpName(name)
  {
    var rest := server + "__" + tool;
    assert name[5..] == rest && name[..5] == "mcp__";
    assert rest[|server|] == '_' && rest[|server| + 1] == '_';
    FirstGapIsFirst(rest, |server|);
    hide FirstGap;
    StartsDouble(rest);
  }

  /** The types whose tools run on the server, by how they begin, in any case. */
  const SERVER_KINDS: set<string> := {
    "advisor_", "agent_toolset_", "bash_", "code_execution_", "computer_",
    "memory_", "text_editor_", "tool_search_tool_", "web_fetch_", "web_search_"}

  predicate RunsOnServer(typ: string) {
    exists p :: p in SERVER_KINDS && p <= LowerAll(typ)
  }

  lemma {:induction false} ServerTypesAre(typ: string)
    ensures IsServerType(typ) <==> RunsOnServer(typ)
  {
    hide LowerAll;
    assert forall i :: 0 <= i < |SERVER_TYPES| ==> SERVER_TYPES[i] in SERVER_KINDS;
    forall p | p in SERVER_KINDS
      ensures p in SERVER_TYPES
    {
      KindIsListed(p);
    }
  }

  lemma {:induction false} KindIsListed(p: string)
    requires p in SERVER_KINDS
    ensures p in SERVER_TYPES
  {
    assert SERVER_TYPES[0] == "advisor_" && SERVER_TYPES[1] == "agent_toolset_" && SERVER_TYPES[2] == "bash_";
    assert SERVER_TYPES[3] == "code_execution_" && SERVER_TYPES[4] == "computer_" && SERVER_TYPES[5] == "memory_";
    assert SERVER_TYPES[6] == "text_editor_" && SERVER_TYPES[7] == "tool_search_tool_";
    assert SERVER_TYPES[8] == "web_fetch_" && SERVER_TYPES[9] == "web_search_";
  }

  /** With no more tools than words: the loop leaves a tool as it is exactly when it runs on the server, has no name or an MCP name. */
  lemma {:induction false} WhichToolsAreAliased(env: Env, tools: seq<Json>, i: nat)
    requires GoodWords(env.words) && |tools| <= |env.words| && i < |tools|
    ensures AliasTools(env, Start(tools), tools).0[i] == tools[i] <==>
            RunsOnServer(AsStr(Get(AsMap(tools[i]), "type"))) || NameOf(tools[i]) == "" || McpNamed(NameOf(tools[i]))
  {
    hide AliasTools, IsMcpName, McpNamed, IsServerType, RunsOnServer;
    SkippedStay(env, Start(tools), tools);
    EveryToolIsAliased(env, tools);
    ServerTypesAre(AsStr(Get(AsMap(tools[i]), "type")));
    IsMcpNameIs(NameOf(tools[i]));
  }

  // ---------------------------------------------------------------------------------------------
  // Where names are replaced
  // ---------------------------------------------------------------------------------------------

  datatype Step = Index(i: nat) | Field(key: string)

  /** What stands in a tree at a path, if anything does. */
  function At(v: Json, path: seq<Step>): Place
    decreases |path|
  {
    if path == [] then Here(v)
    else
      match path[0]
      case Index(i) => if v.Arr? && i < |v.items| then At(v.items[i], path[1..]) else Nowhere
      case Field(key) => if v.Obj? && key in v.fields then At(v.fields[key], path[1..]) else Nowhere
  }

  datatype Place = Nowhere | Here(v: Json)

  /** The path ends at a field that holds a name. */
  predicate Names(path: seq<Step>) {
    path != [] && (path[|path| - 1] == Field("name") || path[|path| - 1] == Field("tool_name"))
  }

  /** The same kind of value, and the same one if it has no parts. */
  predicate SameAbove(a: Json, b: Json) {
    if a.Arr? then b.Arr? && |b.items| == |a.items|
    else if a.Obj? then b.Obj? && b.fields.Keys == a.fields.Keys
    else a == b
  }

  /** A string in a field called name or tool_name is replaced if it is a name to replace; nothing else changes anywhere. */
  lemma {:induction false} OnlyNamesAreReplaced(v: Json, names: map<string, string>, path: seq<Step>)
    ensures match At(v, path)
            case Nowhere => At(Rename(v, names), path).Nowhere?
            case Here(x) =>
              At(Rename(v, names), path).Here? &&
              var y := At(Rename(v, names), path).v;
              if Names(path) && x.Str? && x.s in names then y == Str(names[x.s]) else SameAbove(x, y)
    decreases |path|
  {
    if path == [] {
      RenameKeepsShape(v, names);
    } else {
      match path[0]
      case Index(i) =>
        if v.Arr? && i < |v.items| {
          OnlyNamesAreReplaced(v.items[i], names, path[1..]);
          assert path[1..] != [] ==> path[1..][|path| - 2] == path[|path| - 1];
        }
      case Field(key) =>
        if v.Obj? && key in v.fields {
          var x := v.fields[key];
          FieldIs(key, x, names);
          if IsNameKey(key) && x.Str? && x.s in names {
            assert path[1..] == [] ==> path == [path[0]];
            NothingInside(x.s, path[1..]);
            NothingInside(names[x.s], path[1..]);
          } else {
            OnlyNamesAreReplaced(x, names, path[1..]);
            assert path[1..] != [] ==> path[1..][|path| - 2] == path[|path| - 1];
            assert path[1..] == [] ==> path == [path[0]];
          }
        }
    }
  }

  lemma {:induction false} NothingInside(s: string, path: seq<Step>)
    ensures At(Str(s), path) == if path == [] then Here(Str(s)) else Nowhere
  {
  }

  lemma {:induction false} RenameKeepsShape(v: Json, names: map<string, string>)
    ensures SameAbove(v, Rename(v, names))
  {
  }
}
