/**
 Aliasing of client tool names and restoring them (internal/provider/claude/mcp.go). HMAC-SHA256 is the
 parameter `number`: the 16-bit number read from the digest of a purpose and a name at an offset.
 */
module Aliases {
  import opened Json
  import opened Strings
  import opened Sequences

  type Fields = map<string, Json>

  const LIMIT := 64

  /** The word list and the keyed digest. */
  datatype Env = Env(words: seq<string>, number: (string, string, nat) -> nat)

  // ---------------------------------------------------------------------------------------------
  // Names
  // ---------------------------------------------------------------------------------------------

  const SERVER_TYPES := [
    "advisor_", "agent_toolset_", "bash_", "code_execution_", "computer_",
    "memory_", "text_editor_", "tool_search_tool_", "web_fetch_", "web_search_"]

  predicate IsServerType(typ: string) {
    exists i :: 0 <= i < |SERVER_TYPES| && SERVER_TYPES[i] <= LowerAll(typ)
  }

  /** Where the first double underscore begins; the length when there is none. */
  function FirstGap(s: string): (n: nat)
    ensures n <= |s|
    ensures n < |s| ==> n + 1 < |s| && s[n] == '_' && s[n + 1] == '_'
    ensures forall i :: 0 <= i < n && i + 1 < |s| ==> !(s[i] == '_' && s[i + 1] == '_')
  {
    if |s| < 2 then |s|
    else if s[0] == '_' && s[1] == '_' then 0
    else FirstGap(s[1..]) + 1
  }

  predicate IsMcpName(name: string) {
    && 0 < |name| <= LIMIT && "mcp__" <= name
    && var rest := name[5..]; 0 < FirstGap(rest) && FirstGap(rest) + 2 < |rest|
  }

  predicate IsNameChar(c: char) {
    'A' <= c <= 'Z' || 'a' <= c <= 'z' || '0' <= c <= '9' || c == '_' || c == '-'
  }

  predicate AllNameChars(s: string) {
    forall i :: 0 <= i < |s| ==> IsNameChar(s[i])
  }

  /** The valid characters of a name up to a length, a run of others between them becoming one underscore if it fits. */
  function Gather(original: string, max: nat, out: string, pending: bool): (r: string)
    requires |out| <= max && AllNameChars(out)
    ensures |r| <= max && AllNameChars(r)
    decreases |original|
  {
    if original == "" then out
    else if !IsNameChar(original[0]) then Gather(original[1..], max, out, |out| > 0)
    else
      var out' := if pending && |out| + 1 < max then out + "_" else out;
      if |out'| >= max then out' else Gather(original[1..], max, out' + [original[0]], false)
  }

  const DASHES: set<char> := {'_', '-'}

  lemma {:induction false} ToolIsPlain()
    ensures AllNameChars("tool")
  {
  }

  function SemanticPart(original: string, max: nat): (r: string)
    ensures r != "" && |r| <= (if max < 4 then 4 else max) && AllNameChars(r)
  {
    var gathered := Gather(original, max, "", false);
    TrimChars(gathered, DASHES);
    ToolIsPlain();
    var trimmed := Trim(gathered, DASHES);
    if trimmed == "" then "tool" else trimmed
  }

  method Semantic(original: string, max: nat) returns (r: string)
    ensures r == SemanticPart(original, max)
  {
    var out, pending := "", false;
    for i := 0 to |original|
      invariant |out| <= max && AllNameChars(out)
      invariant Gather(original[i..], max, out, pending) == Gather(original, max, "", false)
    {
      assert original[i..][1..] == original[i + 1..];
      var c := original[i];
      if !IsNameChar(c) {
        pending := |out| > 0;
        continue;
      }
      if pending && |out| + 1 < max {
        out := out + "_";
      }
      pending := false;
      if |out| >= max {
        assert Gather(original, max, "", false) == out;
        var cut := Trim(out, DASHES);
        return if cut == "" then "tool" else cut;
      }
      out := out + [c];
    }
    assert original[|original|..] == "";
    var trimmed := Trim(out, DASHES);
    r := if trimmed == "" then "tool" else trimmed;
  }

  function Word(env: Env, purpose: string, original: string, offset: nat): string {
    if env.words == [] then "tool" else env.words[env.number(purpose, original, offset) % |env.words|]
  }

  function Server(env: Env): string {
    Word(env, "server", "", 0) + "_" + Word(env, "server", "", 2)
  }

  function AliasPrefix(server: string, toolID: string): string {
    "mcp__" + server + "__" + toolID + "_"
  }

  function AliasFor(server: string, toolID: string, original: string): string {
    var prefix := AliasPrefix(server, toolID);
    prefix + SemanticPart(original, if |prefix| >= LIMIT then 1 else LIMIT - |prefix|)
  }

  // ---------------------------------------------------------------------------------------------
  // Allocation
  // ---------------------------------------------------------------------------------------------

  /** The word tried at an attempt: the list is walked in a circle from a digest's place. */
  function Turn(env: Env, original: string, attempt: nat): (i: nat)
    requires env.words != []
    ensures i < |env.words|
  {
    Around(env.number("tool", original, 0) % |env.words|, attempt, |env.words|)
  }

  function Around(base: nat, attempt: nat, n: nat): (i: nat)
    requires n > 0
    ensures i < n
  {
    (base + attempt) % n
  }

  function Candidate(env: Env, original: string, attempt: nat): string
    requires env.words != []
  {
    AliasFor(Server(env), env.words[Turn(env, original, attempt)], original)
  }

  /** The first free candidate from an attempt on; "" when all are reserved. */
  function Allocated(env: Env, original: string, attempt: nat, reserved: set<string>): (r: string)
    ensures r != "" ==> r !in reserved && env.words != [] &&
                        exists k: nat :: attempt <= k < |env.words| && r == Candidate(env, original, k)
    decreases |env.words| - attempt
  {
    if attempt >= |env.words| then ""
    else if Candidate(env, original, attempt) !in reserved then Candidate(env, original, attempt)
    else Allocated(env, original, attempt + 1, reserved)
  }

  method Allocate(env: Env, original: string, reserved: set<string>) returns (r: string)
    ensures r == Allocated(env, original, 0, reserved)
  {
    for attempt := 0 to |env.words|
      invariant Allocated(env, original, attempt, reserved) == Allocated(env, original, 0, reserved)
    {
      var alias := Candidate(env, original, attempt);
      if alias !in reserved {
        return alias;
      }
    }
    r := "";
  }

  function NameOf(tool: Json): string {
    AsStr(Get(AsMap(tool), "name"))
  }

  predicate Skipped(tool: Json) {
    IsServerType(AsStr(Get(AsMap(tool), "type"))) || NameOf(tool) == "" || IsMcpName(NameOf(tool))
  }

  /** The names in use and the two maps between them. */
  datatype Book = Book(reserved: set<string>, forward: map<string, string>, reverse: map<string, string>)

  /** The book with one more alias. */
  function Enter(b: Book, name: string, alias: string): Book {
    Book(b.reserved + {alias}, b.forward[name := alias], b.reverse[alias := name])
  }

  function AliasTool(env: Env, b: Book, tool: Json): (Json, Book) {
    var name := NameOf(tool);
    if Skipped(tool) then (tool, b)
    else
      var alias := Allocated(env, name, 0, b.reserved);
      if alias == "" then (tool, b)
      else (Obj(AsMap(tool)["name" := Str(alias)]), Enter(b, name, alias))
  }

  function AliasTools(env: Env, b: Book, tools: seq<Json>): (r: (seq<Json>, Book))
    ensures |r.0| == |tools|
    decreases |tools|
  {
    if tools == [] then ([], b)
    else
      var (front, b') := AliasTools(env, b, tools[..|tools| - 1]);
      var (last, b'') := AliasTool(env, b', tools[|tools| - 1]);
      (front + [last], b'')
  }

  function Declared(tools: seq<Json>): set<string> {
    set tool | tool in tools && NameOf(tool) != "" :: NameOf(tool)
  }

  // ---------------------------------------------------------------------------------------------
  // Renaming over a tree
  // ---------------------------------------------------------------------------------------------

  predicate IsNameKey(key: string) {
    key == "name" || key == "tool_name"
  }

  /** Strings under a name key are looked up; everything else is walked. */
  function Rename(v: Json, names: map<string, string>): Json
    decreases v, 0
  {
    match v
    case Arr(items) => Arr(seq(|items|, i requires 0 <= i < |items| => Rename(items[i], names)))
    case Obj(fields) => Obj(map k | k in fields :: RenameField(k, fields[k], names))
    case _ => v
  }

  function RenameField(key: string, v: Json, names: map<string, string>): Json
    decreases v, 1
  {
    if IsNameKey(key) && v.Str? && v.s in names then Str(names[v.s]) else Rename(v, names)
  }

  /** Some name field holds one of the names. */
  predicate Mentions(v: Json, names: set<string>) {
    match v
    case Arr(items) => exists i :: 0 <= i < |items| && Mentions(items[i], names)
    case Obj(fields) => exists k :: k in fields && ((IsNameKey(k) && fields[k].Str? && fields[k].s in names) || Mentions(fields[k], names))
    case _ => false
  }

  /** What AliasClaudeTools does with a body: the aliased body and the map back. */
  function Aliased(env: Env, body: Fields): (Fields, map<string, string>) {
    var tools := AsArr(Get(body, "tools"));
    var (tools', b) := AliasTools(env, Book(Declared(tools), map[], map[]), tools);
    var out := if "tools" in body && body["tools"].Arr? then body["tools" := Arr(tools')] else body;
    (if |b.forward| == 0 then out else AsMap(Rename(Obj(out), b.forward)), b.reverse)
  }

  /** The first loop: the names in use. */
  method Reserve(tools: seq<Json>) returns (reserved: set<string>)
    ensures reserved == Declared(tools)
  {
    reserved := {};
    for i := 0 to |tools|
      invariant reserved == Declared(tools[..i])
    {
      assert tools[..i + 1] == tools[..i] + [tools[i]];
      var name := NameOf(tools[i]);
      if name != "" {
        reserved := reserved + {name};
      }
    }
    assert tools[..|tools|] == tools;
  }

  /** One round of the second loop. */
  method AliasOne(env: Env, tool: Json, b: Book) returns (tool': Json, b': Book)
    ensures (tool', b') == AliasTool(env, b, tool)
  {
    hide Skipped, NameOf, Allocated, Enter;
    tool', b' := tool, b;
    if Skipped(tool) {
      return;
    }
    var name := NameOf(tool);
    var alias := Allocate(env, name, b.reserved);
    if alias == "" {
      return;
    }
    tool' := Obj(AsMap(tool)["name" := Str(alias)]);
    b' := Enter(b, name, alias);
  }

  method AliasClaudeTools(env: Env, body: Json) returns (out: Fields, reverse: map<string, string>)
    ensures (out, reverse) == Aliased(env, AsMap(body))
  {
    hide AliasTool, Rename, Declared;
    out := AsMap(body);
    var tools := AsArr(Get(out, "tools"));
    var reserved := Reserve(tools);
    var b := Book(reserved, map[], map[]);
    var aliased: seq<Json> := [];
    ghost var start := b;
    for i := 0 to |tools|
      invariant (aliased, b) == AliasTools(env, start, tools[..i])
    {
      assert tools[..i + 1][..i] == tools[..i];
      var tool: Json;
      tool, b := AliasOne(env, tools[i], b);
      aliased := aliased + [tool];
    }
    assert tools[..|tools|] == tools;
    if "tools" in out && out["tools"].Arr? {
      out := out["tools" := Arr(aliased)];
    }
    if |b.forward| > 0 {
      out := AsMap(Rename(Obj(out), b.forward));
    }
    reverse := b.reverse;
  }

  // ---------------------------------------------------------------------------------------------
  // Aliases are well formed
  // ---------------------------------------------------------------------------------------------

  predicate IsWord(w: string) {
    1 <= |w| <= 8 && forall i :: 0 <= i < |w| ==> 'a' <= w[i] <= 'z'
  }

  /** A word list such as the embedded one. */
  predicate GoodWords(words: seq<string>) {
    && words != []
    && (forall i :: 0 <= i < |words| ==> IsWord(words[i]))
    && (forall i, j :: 0 <= i < j < |words| ==> words[i] != words[j])
  }

  lemma {:induction false} GapAfterServer(server: string, tail: string)
    requires server != "" && server[|server| - 1] != '_' && tail != ""
    requires forall i :: 0 <= i < |server| - 1 ==> !(server[i] == '_' && server[i + 1] == '_')
    ensures FirstGap(server + "__" + tail) == |server|
  {
    var s := server + "__" + tail;
    assert s[|server|] == '_' && s[|server| + 1] == '_' && s[|server| - 1] != '_';
    forall i | 0 <= i < |server|
      ensures !(s[i] == '_' && s[i + 1] == '_')
    {
      assert s[i] == server[i];
    }
  }

  lemma {:induction false} McpShape(server: string, w: string, sem: string)
    requires 3 <= |server| <= 17 && server[|server| - 1] != '_' && AllNameChars(server)
    requires forall i :: 0 <= i < |server| - 1 ==> !(server[i] == '_' && server[i + 1] == '_')
    requires 1 <= |w| <= 8 && AllNameChars(w) && sem != "" && AllNameChars(sem) && |AliasPrefix(server, w)| + |sem| <= LIMIT
    ensures IsMcpName(AliasPrefix(server, w) + sem) && AllNameChars(AliasPrefix(server, w) + sem)
  {
    var tail := w + "_" + sem;
    var rest := server + "__" + tail;
    var alias := AliasPrefix(server, w) + sem;
    assert alias == "mcp__" + rest by {
      assert ("mcp__" + server + "__" + w + "_") + sem == "mcp__" + (server + "__" + (w + "_" + sem));
    }
    assert alias[5..] == rest && "mcp__" <= alias;
    hide AliasPrefix;
    GapAfterServer(server, tail);
    assert AllNameChars(tail);
    assert AllNameChars(rest);
  }

  lemma {:induction false} TwoWords(v: string, w: string)
    requires IsWord(v) && IsWord(w)
    ensures var server := v + "_" + w;
            && 3 <= |server| <= 17 && server[|server| - 1] != '_' && AllNameChars(server)
            && forall i :: 0 <= i < |server| - 1 ==> !(server[i] == '_' && server[i + 1] == '_')
  {
    var server := v + "_" + w;
    assert server[|v|] == '_' && server[|server| - 1] == w[|w| - 1];
    assert forall i :: 0 <= i < |v| ==> server[i] == v[i];
    assert forall i :: 0 <= i < |w| ==> server[|v| + 1 + i] == w[i];
    assert AllNameChars(v) && AllNameChars(w);
  }

  /** Every candidate is an MCP name of at most 64 plain characters. */
  lemma {:induction false} CandidateIsMcpName(env: Env, original: string, attempt: nat)
    requires GoodWords(env.words)
    ensures IsMcpName(Candidate(env, original, attempt)) && AllNameChars(Candidate(env, original, attempt))
  {
    hide SemanticPart, Turn, IsMcpName, AllNameChars;
    var v, u, w := Word(env, "server", "", 0), Word(env, "server", "", 2), env.words[Turn(env, original, attempt)];
    assert IsWord(v) && IsWord(u) && IsWord(w);
    WordIsPlain(w);
    hide Word, IsWord, GoodWords;
    TwoWords(v, u);
    var prefix := AliasPrefix(Server(env), w);
    assert |prefix| <= 33;
    McpShape(Server(env), w, SemanticPart(original, LIMIT - |prefix|));
  }

  lemma {:induction false} WordIsPlain(w: string)
    requires IsWord(w)
    ensures 1 <= |w| <= 8 && AllNameChars(w)
  {
  }

  /** Words hold no underscore, so an alias shows which word it was made with. */
  lemma {:induction false} AliasShowsWord(server: string, v: string, w: string, original: string)
    requires '_' !in v && '_' !in w && AliasFor(server, v, original) == AliasFor(server, w, original)
    ensures v == w
  {
    hide SemanticPart;
    var rest := AliasFor(server, v, original)[|"mcp__" + server + "__"|..];
    assert rest[..|v|] == v && rest[|v|] == '_';
    assert rest[..|w|] == w && rest[|w|] == '_';
  }

  lemma {:induction false} AroundIs(base: nat, attempt: nat, n: nat)
    requires base < n && attempt < n
    ensures Around(base, attempt, n) == if base + attempt < n then base + attempt else base + attempt - n
  {
  }

  lemma {:induction false} TurnsDiffer(env: Env, original: string, i: nat, j: nat)
    requires i < j < |env.words|
    ensures Turn(env, original, i) != Turn(env, original, j)
  {
    hide Around;
    var base := env.number("tool", original, 0) % |env.words|;
    AroundIs(base, i, |env.words|);
    AroundIs(base, j, |env.words|);
  }

  lemma {:induction false} CandidatesDiffer(env: Env, original: string, i: nat, j: nat)
    requires GoodWords(env.words) && i < j < |env.words|
    ensures Candidate(env, original, i) != Candidate(env, original, j)
  {
    hide AliasFor, Server, Turn;
    TurnsDiffer(env, original, i, j);
    var v, w := env.words[Turn(env, original, i)], env.words[Turn(env, original, j)];
    assert v != w;
    if AliasFor(Server(env), v, original) == AliasFor(Server(env), w, original) {
      AliasShowsWord(Server(env), v, w, original);
    }
  }

  function McpNames(names: set<string>): set<string> {
    set x | x in names && IsMcpName(x)
  }

  lemma {:induction false} NoneAllocated(env: Env, original: string, attempt: nat, reserved: set<string>)
    requires env.words != [] && Allocated(env, original, attempt, reserved) == ""
    ensures forall k: nat :: attempt <= k < |env.words| ==> Candidate(env, original, k) in reserved
    decreases |env.words| - attempt
  {
    hide AliasFor, Server;
    if attempt < |env.words| {
      CandidateIsNotEmpty(env, original, attempt);
      NoneAllocated(env, original, attempt + 1, reserved);
    }
  }

  lemma {:induction false} CandidateIsNotEmpty(env: Env, original: string, attempt: nat)
    requires env.words != []
    ensures Candidate(env, original, attempt) != ""
  {
  }

  /** An alias is found while fewer MCP names are reserved than there are words. */
  lemma {:induction false} AllocationSucceeds(env: Env, original: string, reserved: set<string>)
    requires GoodWords(env.words) && |McpNames(reserved)| < |env.words|
    ensures Allocated(env, original, 0, reserved) != ""
  {
    hide Candidate, IsMcpName;
    if Allocated(env, original, 0, reserved) == "" {
      NoneAllocated(env, original, 0, reserved);
      var all := seq(|env.words|, k requires 0 <= k < |env.words| => Candidate(env, original, k));
      forall i, j | 0 <= i < j < |all|
        ensures all[i] != all[j]
      {
        CandidatesDiffer(env, original, i, j);
      }
      forall i | 0 <= i < |all|
        ensures all[i] in McpNames(reserved)
      {
        CandidateIsMcpName(env, original, i);
      }
      Pigeonhole(all, McpNames(reserved));
    }
  }

  // ---------------------------------------------------------------------------------------------
  // What the loop over the tools keeps
  // ---------------------------------------------------------------------------------------------

  /** Aliases are reserved, undeclared and lead back to declared names; forward and reverse agree. */
  ghost predicate Consistent(b: Book, declared: set<string>) {
    && declared <= b.reserved
    && (forall a :: a in b.reverse ==> a in b.reserved && a !in declared && b.reverse[a] in declared)
    && (forall n :: n in b.forward ==> b.forward[n] in b.reverse && b.reverse[b.forward[n]] == n && !IsMcpName(n) && n != "")
    && (forall a :: a in b.reverse ==> b.reverse[a] in b.forward)
  }

  /** A tool as it was, or the same tool under an alias of its name. */
  predicate Renamed(b: Book, tool: Json, tool': Json) {
    || tool' == tool
    || (tool.Obj? && tool'.Obj? && NameOf(tool) in b.forward && NameOf(tool') in b.reverse &&
        b.reverse[NameOf(tool')] == NameOf(tool) && tool' == Obj(tool.fields["name" := Str(NameOf(tool'))]))
  }

  lemma {:induction false} NewAliasKeeps(b: Book, declared: set<string>, name: string, alias: string)
    requires Consistent(b, declared) && name in declared && name != "" && !IsMcpName(name) && alias !in b.reserved
    ensures Consistent(Enter(b, name, alias), declared)
  {
    hide IsMcpName;
  }

  predicate Grows(b: Book, b': Book) {
    && b.forward.Keys <= b'.forward.Keys && b.reserved <= b'.reserved
    && forall a :: a in b.reverse ==> a in b'.reverse && b'.reverse[a] == b.reverse[a]
  }

  lemma {:induction false} EnterGrows(b: Book, declared: set<string>, name: string, alias: string)
    requires Consistent(b, declared) && alias !in b.reserved
    ensures Grows(b, Enter(b, name, alias))
  {
    hide IsMcpName;
  }

  lemma {:induction false} EnterRenames(b: Book, tool: Json, alias: string)
    requires NameOf(tool) != ""
    ensures var tool' := Obj(AsMap(tool)["name" := Str(alias)]);
            NameOf(tool') == alias && Renamed(Enter(b, NameOf(tool), alias), tool, tool')
  {
  }

  lemma {:induction false} AliasToolKeeps(env: Env, b: Book, tool: Json, declared: set<string>)
    requires Consistent(b, declared) && (NameOf(tool) != "" ==> NameOf(tool) in declared)
    ensures var (tool', b') := AliasTool(env, b, tool);
            && Consistent(b', declared) && Renamed(b', tool, tool') && Grows(b, b')
            && (tool' != tool ==> NameOf(tool') !in b.reserved && NameOf(tool') in b'.reserved)
  {
    hide IsMcpName, NameOf, Allocated, Consistent, IsServerType, Grows;
    var name, alias := NameOf(tool), Allocated(env, NameOf(tool), 0, b.reserved);
    if !Skipped(tool) && alias != "" {
      NewAliasKeeps(b, declared, name, alias);
      EnterGrows(b, declared, name, alias);
      EnterRenames(b, tool, alias);
    } else {
      GrowsNot(b);
    }
  }

  lemma {:induction false} GrowsNot(b: Book)
    ensures Grows(b, b)
  {
  }

  lemma {:induction false} RenamedStays(b: Book, b': Book, tool: Json, tool': Json)
    requires Renamed(b, tool, tool') && Grows(b, b')
    ensures Renamed(b', tool, tool')
  {
  }

  /** The loop: the book stays consistent, and renamed tools have names of their own. */
  lemma {:induction false} AliasToolsKeeps(env: Env, b: Book, tools: seq<Json>, declared: set<string>)
    requires Consistent(b, declared) && forall i :: 0 <= i < |tools| && NameOf(tools[i]) != "" ==> NameOf(tools[i]) in declared
    ensures var (tools', b') := AliasTools(env, b, tools);
            && Consistent(b', declared)
            && (forall i :: 0 <= i < |tools| ==> Renamed(b', tools[i], tools'[i]))
            && (forall i :: 0 <= i < |tools| && tools'[i] != tools[i] ==> NameOf(tools'[i]) in b'.reserved)
            && (forall i, j :: 0 <= i < j < |tools| && tools'[i] != tools[i] && tools'[j] != tools[j] ==>
                  NameOf(tools'[i]) != NameOf(tools'[j]))
    decreases |tools|
  {
    hide AliasTool, Consistent, Renamed, NameOf;
    if tools != [] {
      var front, tool := tools[..|tools| - 1], tools[|tools| - 1];
      AliasToolsKeeps(env, b, front, declared);
      var (done, b') := AliasTools(env, b, front);
      AliasToolKeeps(env, b', tool, declared);
      var b'' := AliasTool(env, b', tool).1;
      forall i | 0 <= i < |front|
        ensures Renamed(b'', tools[i], done[i])
      {
        RenamedStays(b', b'', tools[i], done[i]);
      }
    }
  }

  function Start(tools: seq<Json>): Book {
    Book(Declared(tools), map[], map[])
  }

  lemma {:induction false} StartKeeps(env: Env, tools: seq<Json>)
    ensures var (tools', b) := AliasTools(env, Start(tools), tools);
            && Consistent(b, Declared(tools))
            && (forall i :: 0 <= i < |tools| ==> Renamed(b, tools[i], tools'[i]))
            && (forall i, j :: 0 <= i < j < |tools| && tools'[i] != tools[i] && tools'[j] != tools[j] ==>
                  NameOf(tools'[i]) != NameOf(tools'[j]))
  {
    hide AliasTools, Renamed, NameOf;
    AliasToolsKeeps(env, Start(tools), tools, Declared(tools));
  }

  // ---------------------------------------------------------------------------------------------
  // Restoring undoes aliasing
  // ---------------------------------------------------------------------------------------------

  /** Names go forth and come back, and no name that comes back was one that goes forth. */
  ghost predicate Inverse(forth: map<string, string>, back: map<string, string>) {
    && (forall n :: n in forth ==> forth[n] in back && back[forth[n]] == n)
    && (forall a :: a in back ==> a !in forth && back[a] in forth)
  }

  /** A tree survives the round trip exactly when none of its name fields already held one of the new names. */
  lemma {:induction false} RoundTrip(v: Json, forth: map<string, string>, back: map<string, string>)
    requires Inverse(forth, back)
    ensures Rename(Rename(v, forth), back) == v <==> !Mentions(v, back.Keys)
    decreases v, 0
  {
    hide Inverse;
    match v
    case Arr(items) =>
      var there := Rename(v, forth);
      forall i | 0 <= i < |items|
        ensures Rename(there.items[i], back) == items[i] <==> !Mentions(items[i], back.Keys)
      {
        RoundTrip(items[i], forth, back);
      }
    case Obj(fields) =>
      var there := Rename(v, forth);
      forall k | k in fields
        ensures RenameField(k, there.fields[k], back) == fields[k] <==> !MentionsField(k, fields[k], back.Keys)
      {
        FieldRoundTrip(k, fields[k], forth, back);
      }
    case _ =>
  }

  predicate MentionsField(key: string, v: Json, names: set<string>) {
    (IsNameKey(key) && v.Str? && v.s in names) || Mentions(v, names)
  }

  lemma {:induction false} FieldRoundTrip(key: string, v: Json, forth: map<string, string>, back: map<string, string>)
    requires Inverse(forth, back)
    ensures RenameField(key, RenameField(key, v, forth), back) == v <==> !MentionsField(key, v, back.Keys)
    decreases v, 1
  {
    RoundTrip(v, forth, back);
  }

  lemma {:induction false} FieldIs(key: string, v: Json, names: map<string, string>)
    ensures RenameField(key, v, names) ==
            if IsNameKey(key) && v.Str? && v.s in names then Str(names[v.s]) else if v.Str? then v else Rename(v, names)
  {
  }

  lemma {:induction false} RenameNothing(v: Json)
    ensures Rename(v, map[]) == v && !Mentions(v, {})
    decreases v
  {
    match v
    case Arr(items) =>
      forall i | 0 <= i < |items|
        ensures Rename(items[i], map[]) == items[i] && !Mentions(items[i], {})
      {
        RenameNothing(items[i]);
      }
      assert Rename(v, map[]).items == items;
    case Obj(fields) =>
      forall k | k in fields
        ensures Rename(fields[k], map[]) == fields[k] && !Mentions(fields[k], {})
      {
        RenameNothing(fields[k]);
      }
      assert Rename(v, map[]).fields == fields;
    case _ =>
  }

  /** A renamed tool goes the way of the original. */
  lemma {:induction false} ToolRoundTrip(b: Book, declared: set<string>, tool: Json, tool': Json)
    requires Consistent(b, declared) && Renamed(b, tool, tool')
    ensures Rename(Rename(tool', b.forward), b.reverse) == Rename(Rename(tool, b.forward), b.reverse)
  {
    if tool' != tool {
      var there', there := Rename(tool', b.forward), Rename(tool, b.forward);
      FieldIs("name", Str(NameOf(tool')), b.forward);
      FieldIs("name", Str(NameOf(tool)), b.forward);
      assert RenameField("name", Str(NameOf(tool')), b.forward) == Str(NameOf(tool'));
      assert there.fields["name"] == Str(b.forward[NameOf(tool)]);
      assert there'.fields["name"] == Str(NameOf(tool'));
      assert forall k :: k in tool.fields && k != "name" ==> there'.fields[k] == there.fields[k];
      hide Consistent, Renamed;
      SameFields(there.fields, there'.fields, b.reverse);
    }
  }

  lemma {:induction false} SameFields(a: Fields, c: Fields, back: map<string, string>)
    requires a.Keys == c.Keys && forall k :: k in a ==> RenameField(k, a[k], back) == RenameField(k, c[k], back)
    ensures Rename(Obj(a), back) == Rename(Obj(c), back)
  {
    assert Rename(Obj(a), back).fields == Rename(Obj(c), back).fields;
  }

  /** The body with its tools list replaced. */
  function WithTools(body: Fields, tools: seq<Json>): Fields {
    if "tools" in body && body["tools"].Arr? then body["tools" := Arr(tools)] else body
  }

  lemma {:induction false} ToolsField(body: Fields, names: map<string, string>)
    ensures var out := Rename(Obj(body), names);
            && out.Obj? && out.fields.Keys == body.Keys
            && ("tools" in body ==> out.fields["tools"] == Rename(body["tools"], names))
  {
    if "tools" in body {
      assert RenameField("tools", body["tools"], names) == Rename(body["tools"], names);
    }
  }

  lemma {:induction false} BodyRoundTrip(b: Book, declared: set<string>, body: Fields, tools: seq<Json>)
    requires Consistent(b, declared) && |tools| == |AsArr(Get(body, "tools"))|
    requires forall i :: 0 <= i < |tools| ==> Renamed(b, AsArr(Get(body, "tools"))[i], tools[i])
    ensures Rename(Rename(Obj(WithTools(body, tools)), b.forward), b.reverse) == Rename(Rename(Obj(body), b.forward), b.reverse)
  {
    if "tools" in body && body["tools"].Arr? {
      var before := body["tools"].items;
      var there', there := Rename(Obj(WithTools(body, tools)), b.forward).fields, Rename(Obj(body), b.forward).fields;
      ToolsField(WithTools(body, tools), b.forward);
      ToolsField(body, b.forward);
      assert there'["tools"] == Rename(Arr(tools), b.forward) && there["tools"] == Rename(Arr(before), b.forward);
      forall i | 0 <= i < |tools|
        ensures Rename(Rename(tools[i], b.forward), b.reverse) == Rename(Rename(before[i], b.forward), b.reverse)
      {
        ToolRoundTrip(b, declared, before[i], tools[i]);
      }
      assert Rename(there'["tools"], b.reverse).items == Rename(there["tools"], b.reverse).items;
      hide Renamed, Consistent;
      SameFields(there, there', b.reverse);
    }
  }

  /** Aliasing as one renaming of the body with its tools replaced, whether or not anything was aliased. */
  lemma {:induction false} AliasedIs(env: Env, body: Fields)
    ensures var tools := AsArr(Get(body, "tools"));
            var (tools', b) := AliasTools(env, Start(tools), tools);
            Aliased(env, body) == (AsMap(Rename(Obj(WithTools(body, tools')), b.forward)), b.reverse)
  {
    var tools := AsArr(Get(body, "tools"));
    var (tools', b) := AliasTools(env, Start(tools), tools);
    hide AliasTools;
    if |b.forward| == 0 {
      assert b.forward == map[];
      RenameNothing(Obj(WithTools(body, tools')));
    }
  }

  /**
   Restoring the aliased body gives back the original exactly when no name field of the original already
   held one of the aliases made for it.
   */
  lemma {:induction false} RestoreUndoesAliasing(env: Env, body: Fields)
    ensures var (out, reverse) := Aliased(env, body);
            Rename(Obj(out), reverse) == Obj(body) <==> !Mentions(Obj(body), reverse.Keys)
  {
    hide AliasTools, Aliased, Mentions;
    var tools := AsArr(Get(body, "tools"));
    var (tools', b) := AliasTools(env, Start(tools), tools);
    AliasedIs(env, body);
    StartKeeps(env, tools);
    BodyRoundTrip(b, Declared(tools), body, tools');
    RoundTrip(Obj(body), b.forward, b.reverse);
  }

  // ---------------------------------------------------------------------------------------------
  // Enough words
  // ---------------------------------------------------------------------------------------------

  /** Tools whose own name is an MCP name, and tools that get an alias. */
  function Named(tools: seq<Json>): nat {
    if tools == [] then 0 else Named(tools[..|tools| - 1]) + if IsMcpName(NameOf(tools[|tools| - 1])) then 1 else 0
  }

  function Unnamed(tools: seq<Json>): nat {
    if tools == [] then 0 else Unnamed(tools[..|tools| - 1]) + if Skipped(tools[|tools| - 1]) then 0 else 1
  }

  lemma {:induction false} NamedOrNot(tools: seq<Json>)
    ensures Named(tools) + Unnamed(tools) <= |tools|
  {
    hide IsMcpName, IsServerType;
    if tools != [] {
      NamedOrNot(tools[..|tools| - 1]);
    }
  }

  lemma {:induction false} DeclaredMcpNames(tools: seq<Json>)
    ensures |McpNames(Declared(tools))| <= Named(tools)
  {
    hide IsMcpName;
    if tools != [] {
      var front, name := tools[..|tools| - 1], NameOf(tools[|tools| - 1]);
      DeclaredMcpNames(front);
      assert tools == front + [tools[|tools| - 1]];
      assert Declared(tools) == Declared(front) + if name != "" then {name} else {};
      OneMoreName(Declared(front), name);
      if IsMcpName(name) {
        McpNameIsNotEmpty(name);
      } else {
        assert McpNames(Declared(tools)) == McpNames(Declared(front));
      }
    }
  }

  lemma {:induction false} McpNameIsNotEmpty(name: string)
    requires IsMcpName(name)
    ensures name != ""
  {
  }

  lemma {:induction false} OneMoreName(names: set<string>, name: string)
    ensures |McpNames(names + {name})| <= |McpNames(names)| + 1
  {
    hide IsMcpName;
    if name in McpNames(names + {name}) && name !in McpNames(names) {
      assert McpNames(names + {name}) == McpNames(names) + {name};
    } else {
      assert McpNames(names + {name}) == McpNames(names);
    }
  }

  predicate Settled(tools: seq<Json>) {
    forall i :: 0 <= i < |tools| ==> Skipped(tools[i])
  }

  lemma {:induction false} AliasedIsSettled(env: Env, b: Book, tool: Json)
    requires GoodWords(env.words) && (Skipped(tool) || |McpNames(b.reserved)| < |env.words|)
    ensures var (tool', b') := AliasTool(env, b, tool);
            && Skipped(tool')
            && |McpNames(b'.reserved)| <= |McpNames(b.reserved)| + if Skipped(tool) then 0 else 1
  {
    hide IsServerType;
    if !Skipped(tool) {
      var name := NameOf(tool);
      hide Candidate, McpNames, IsMcpName;
      AllocationSucceeds(env, name, b.reserved);
      var alias := Allocated(env, name, 0, b.reserved);
      var k: nat :| k < |env.words| && alias == Candidate(env, name, k);
      CandidateIsMcpName(env, name, k);
      OneMoreName(b.reserved, alias);
      assert AliasTool(env, b, tool).0 == Obj(AsMap(tool)["name" := Str(alias)]);
    }
  }

  lemma {:induction false} AllSettled(env: Env, b: Book, tools: seq<Json>)
    requires GoodWords(env.words) && |McpNames(b.reserved)| + Unnamed(tools) <= |env.words|
    ensures var (tools', b') := AliasTools(env, b, tools);
            Settled(tools') && |McpNames(b'.reserved)| <= |McpNames(b.reserved)| + Unnamed(tools)
    decreases |tools|
  {
    hide AliasTool, McpNames, Skipped, GoodWords;
    if tools != [] {
      var front := tools[..|tools| - 1];
      AllSettled(env, b, front);
      AliasedIsSettled(env, AliasTools(env, b, front).1, tools[|tools| - 1]);
    }
  }

  /** With no more tools than words, every client tool gets an alias or keeps a name that needs none. */
  lemma {:induction false} EveryToolIsAliased(env: Env, tools: seq<Json>)
    requires GoodWords(env.words) && |tools| <= |env.words|
    ensures Settled(AliasTools(env, Start(tools), tools).0)
  {
    hide McpNames, GoodWords, AliasTools, Skipped, Named, Unnamed;
    NamedOrNot(tools);
    DeclaredMcpNames(tools);
    AllSettled(env, Start(tools), tools);
  }

  /** A settled tool stays settled under the renaming of the whole body. */
  lemma {:induction false} RenameSettled(b: Book, declared: set<string>, tool: Json)
    requires Consistent(b, declared) && Skipped(tool)
    ensures Skipped(Rename(tool, b.forward))
  {
    hide IsMcpName, IsServerType;
    var tool' := Rename(tool, b.forward);
    if tool.Obj? {
      if "type" in tool.fields {
        FieldIs("type", tool.fields["type"], b.forward);
      }
      if "name" in tool.fields {
        FieldIs("name", tool.fields["name"], b.forward);
      }
      assert AsStr(Get(AsMap(tool'), "type")) == AsStr(Get(AsMap(tool), "type"));
      assert NameOf(tool) !in b.forward ==> NameOf(tool') == NameOf(tool);
    }
  }

  lemma {:induction false} SettledUntouched(env: Env, b: Book, tools: seq<Json>)
    requires Settled(tools)
    ensures AliasTools(env, b, tools) == (tools, b)
    decreases |tools|
  {
    hide Skipped;
    if tools != [] {
      SettledUntouched(env, b, tools[..|tools| - 1]);
      assert tools == tools[..|tools| - 1] + [tools[|tools| - 1]];
    }
  }

  /** Aliasing an aliased body changes nothing and makes no aliases, when there were no more tools than words. */
  lemma {:induction false} AliasingTwiceIsAliasing(env: Env, body: Fields)
    requires GoodWords(env.words) && |AsArr(Get(body, "tools"))| <= |env.words|
    ensures var out := Aliased(env, body).0;
            Aliased(env, out) == (out, map[])
  {
    hide AliasTools, Aliased, Skipped, GoodWords, Renamed;
    var tools := AsArr(Get(body, "tools"));
    var (tools', b) := AliasTools(env, Start(tools), tools);
    AliasedIs(env, body);
    StartKeeps(env, tools);
    EveryToolIsAliased(env, tools);
    var out := Aliased(env, body).0;
    var again := AsArr(Get(out, "tools"));
    ToolsOfRenamed(body, tools', b.forward);
    forall i | 0 <= i < |again|
      ensures Skipped(again[i])
    {
      RenameSettled(b, Declared(tools), tools'[i]);
    }
    AliasedIs(env, out);
    SettledUntouched(env, Start(again), again);
    RenameNothing(Obj(WithTools(out, again)));
    WithOwnTools(out);
  }

  lemma {:induction false} ToolsOfRenamed(body: Fields, tools: seq<Json>, names: map<string, string>)
    requires |tools| == |AsArr(Get(body, "tools"))|
    ensures var again := AsArr(Get(AsMap(Rename(Obj(WithTools(body, tools)), names)), "tools"));
            |again| == |tools| && forall i :: 0 <= i < |tools| ==> again[i] == Rename(tools[i], names)
  {
    ToolsField(WithTools(body, tools), names);
  }

  lemma {:induction false} WithOwnTools(body: Fields)
    ensures WithTools(body, AsArr(Get(body, "tools"))) == body
  {
  }

  /** What every alias begins with. */
  function ServerPrefix(env: Env): string {
    "mcp__" + Server(env) + "__"
  }

  lemma {:induction false} CandidateBegins(env: Env, original: string, attempt: nat)
    requires env.words != []
    ensures ServerPrefix(env) <= Candidate(env, original, attempt)
  {
    hide Server, SemanticPart, Turn;
    var w := env.words[Turn(env, original, attempt)];
    assert AliasPrefix(Server(env), w) == ServerPrefix(env) + (w + "_") by {
      ConcatAssoc(ServerPrefix(env), w, "_");
    }
  }

  /** Made by this server; of MCP form when the words are good. */
  ghost predicate Ours(env: Env, alias: string) {
    ServerPrefix(env) <= alias && (GoodWords(env.words) ==> IsMcpName(alias) && AllNameChars(alias))
  }

  lemma {:induction false} AllocatedIsOurs(env: Env, original: string, reserved: set<string>)
    requires Allocated(env, original, 0, reserved) != ""
    ensures Ours(env, Allocated(env, original, 0, reserved))
  {
    hide Candidate, IsMcpName, GoodWords, ServerPrefix;
    var alias := Allocated(env, original, 0, reserved);
    var k: nat :| k < |env.words| && alias == Candidate(env, original, k);
    CandidateBegins(env, original, k);
    if GoodWords(env.words) {
      CandidateIsMcpName(env, original, k);
    }
  }

  lemma {:induction false} AliasesAreOurs(env: Env, b: Book, tools: seq<Json>)
    requires forall a :: a in b.reverse ==> Ours(env, a)
    ensures forall a :: a in AliasTools(env, b, tools).1.reverse ==> Ours(env, a)
    decreases |tools|
  {
    hide Ours, Skipped, NameOf, Allocated;
    if tools != [] {
      var front, tool := tools[..|tools| - 1], tools[|tools| - 1];
      AliasesAreOurs(env, b, front);
      var b' := AliasTools(env, b, front).1;
      if !Skipped(tool) && Allocated(env, NameOf(tool), 0, b'.reserved) != "" {
        AllocatedIsOurs(env, NameOf(tool), b'.reserved);
      }
    }
  }

  /** Some name field begins with a prefix. */
  predicate MentionsPrefixed(v: Json, prefix: string) {
    match v
    case Arr(items) => exists i :: 0 <= i < |items| && MentionsPrefixed(items[i], prefix)
    case Obj(fields) =>
      exists k :: k in fields && ((IsNameKey(k) && fields[k].Str? && prefix <= fields[k].s) || MentionsPrefixed(fields[k], prefix))
    case _ => false
  }

  lemma {:induction false} MentionsByPrefix(v: Json, names: set<string>, prefix: string)
    requires Mentions(v, names) && forall n :: n in names ==> prefix <= n
    ensures MentionsPrefixed(v, prefix)
    decreases v
  {
    match v
    case Arr(items) =>
      var i :| 0 <= i < |items| && Mentions(items[i], names);
      MentionsByPrefix(items[i], names, prefix);
    case Obj(fields) =>
      var k :| k in fields && ((IsNameKey(k) && fields[k].Str? && fields[k].s in names) || Mentions(fields[k], names));
      if Mentions(fields[k], names) {
        MentionsByPrefix(fields[k], names, prefix);
      }
    case _ =>
  }

  /** Restoring gives back every body none of whose name fields begins as this server's aliases do. */
  lemma {:induction false} RestoreUndoesAliasingOfOthers(env: Env, body: Fields)
    requires !MentionsPrefixed(Obj(body), ServerPrefix(env))
    ensures var (out, reverse) := Aliased(env, body);
            Rename(Obj(out), reverse) == Obj(body)
  {
    hide AliasTools, Aliased, Mentions, MentionsPrefixed, Rename;
    var tools := AsArr(Get(body, "tools"));
    var (out, reverse) := Aliased(env, body);
    AliasedIs(env, body);
    AliasesAreOurs(env, Start(tools), tools);
    RestoreUndoesAliasing(env, body);
    if Mentions(Obj(body), reverse.Keys) {
      MentionsByPrefix(Obj(body), reverse.Keys, ServerPrefix(env));
    }
  }

  /** Every alias is a new name: undeclared, of MCP form, shared by no other tool, and leading back to its own tool's name. */
  lemma {:induction false} AliasesAreDistinct(env: Env, tools: seq<Json>)
    ensures var (tools', b) := AliasTools(env, Start(tools), tools);
            && (forall i :: 0 <= i < |tools| && tools'[i] != tools[i] ==>
                  NameOf(tools'[i]) !in Declared(tools) && NameOf(tools'[i]) in b.reverse &&
                  b.reverse[NameOf(tools'[i])] == NameOf(tools[i]))
            && (GoodWords(env.words) ==>
                  forall i :: 0 <= i < |tools| && tools'[i] != tools[i] ==> IsMcpName(NameOf(tools'[i])) && AllNameChars(NameOf(tools'[i])))
            && (forall i, j :: 0 <= i < j < |tools| && tools'[i] != tools[i] && tools'[j] != tools[j] ==>
                  NameOf(tools'[i]) != NameOf(tools'[j]))
  {
    hide AliasTools, NameOf, Declared, IsMcpName, GoodWords;
    StartKeeps(env, tools);
    AliasesAreOurs(env, Start(tools), tools);
  }

  // ---------------------------------------------------------------------------------------------
  // Names in the aliased body
  // ---------------------------------------------------------------------------------------------

  /** Tools that need no alias come through the loop as they are. */
  lemma {:induction false} SkippedStay(env: Env, b: Book, tools: seq<Json>)
    ensures forall i :: 0 <= i < |tools| && Skipped(tools[i]) ==> AliasTools(env, b, tools).0[i] == tools[i]
    decreases |tools|
  {
    hide Skipped, NameOf, Allocated;
    if tools != [] {
      SkippedStay(env, b, tools[..|tools| - 1]);
    }
  }

  /** Tool i was aliased, and its name goes forth to its alias. */
  predicate GoesForth(tools: seq<Json>, tools': seq<Json>, n: string, alias: string, i: nat)
    requires |tools| == |tools'|
  {
    i < |tools| && !Skipped(tools[i]) && NameOf(tools[i]) == n && NameOf(tools'[i]) == alias
  }

  ghost predicate ComesFrom(tools: seq<Json>, tools': seq<Json>, names: map<string, string>)
    requires |tools| == |tools'|
  {
    forall n :: n in names ==> exists i :: GoesForth(tools, tools', n, names[n], i)
  }

  lemma {:induction false} StillComesFrom(tools: seq<Json>, tools': seq<Json>, names: map<string, string>, tool: Json, tool': Json)
    requires |tools| == |tools'| && ComesFrom(tools, tools', names)
    ensures ComesFrom(tools + [tool], tools' + [tool'], names)
  {
    hide Skipped, NameOf;
    forall n | n in names
      ensures exists i :: GoesForth(tools + [tool], tools' + [tool'], n, names[n], i)
    {
      var i :| GoesForth(tools, tools', n, names[n], i);
      assert GoesForth(tools + [tool], tools' + [tool'], n, names[n], i);
    }
  }

  lemma {:induction false} OneMoreForth(tools: seq<Json>, tools': seq<Json>, names: map<string, string>, tool: Json, tool': Json)
    requires |tools| == |tools'| && ComesFrom(tools, tools', names) && !Skipped(tool)
    ensures ComesFrom(tools + [tool], tools' + [tool'], names[NameOf(tool) := NameOf(tool')])
  {
    hide Skipped, NameOf;
    StillComesFrom(tools, tools', names, tool, tool');
    assert GoesForth(tools + [tool], tools' + [tool'], NameOf(tool), NameOf(tool'), |tools|);
  }

  /** Every name goes forth to the alias of some tool of that name. */
  lemma {:induction false} ForwardComesFrom(env: Env, b: Book, tools: seq<Json>)
    requires b.forward == map[]
    ensures var (tools', b') := AliasTools(env, b, tools);
            ComesFrom(tools, tools', b'.forward)
    decreases |tools|
  {
    hide Skipped, NameOf, Allocated, ComesFrom;
    if tools == [] {
      NothingForth();
    } else {
      var front, tool := tools[..|tools| - 1], tools[|tools| - 1];
      ForwardComesFrom(env, b, front);
      var (done, b1) := AliasTools(env, b, front);
      var tool' := AliasTool(env, b1, tool).0;
      var alias := Allocated(env, NameOf(tool), 0, b1.reserved);
      assert tools == front + [tool];
      StillComesFrom(front, done, b1.forward, tool, tool');
      if !Skipped(tool) && alias != "" {
        NewName(tool, alias);
        OneMoreForth(front, done, b1.forward, tool, tool');
      }
    }
  }

  lemma {:induction false} NothingForth()
    ensures ComesFrom([], [], map[])
  {
  }

  lemma {:induction false} NewName(tool: Json, alias: string)
    ensures NameOf(Obj(AsMap(tool)["name" := Str(alias)])) == alias
  {
  }

  /** What the renaming of the body makes of a tool's name. */
  lemma {:induction false} RenamedName(tool: Json, names: map<string, string>)
    requires "" !in names
    ensures NameOf(Rename(tool, names)) == if NameOf(tool) in names then names[NameOf(tool)] else NameOf(tool)
  {
    if tool.Obj? && "name" in tool.fields {
      FieldIs("name", tool.fields["name"], names);
    }
  }

  /** A tool aliased by the loop keeps its alias in the body; any other follows the name it shares, if it shares one. */
  lemma {:induction false} FinalNames(env: Env, tools: seq<Json>)
    requires GoodWords(env.words) && |tools| <= |env.words|
    ensures var (tools', b) := AliasTools(env, Start(tools), tools);
            && (forall i :: 0 <= i < |tools| ==>
                  NameOf(Rename(tools'[i], b.forward)) ==
                  if !Skipped(tools[i]) then NameOf(tools'[i])
                  else if NameOf(tools[i]) in b.forward then b.forward[NameOf(tools[i])] else NameOf(tools[i]))
            && (forall i :: 0 <= i < |tools| && !Skipped(tools[i]) ==>
                  tools'[i] != tools[i] && NameOf(tools[i]) in b.forward && NameOf(tools'[i]) != "")
  {
    hide AliasTools, Skipped, NameOf, GoodWords, IsMcpName, Rename, Declared;
    var (tools', b) := AliasTools(env, Start(tools), tools);
    StartKeeps(env, tools);
    SkippedStay(env, Start(tools), tools);
    EveryToolIsAliased(env, tools);
    AliasesAreDistinct(env, tools);
    forall i | 0 <= i < |tools|
      ensures NameOf(Rename(tools'[i], b.forward)) ==
              if !Skipped(tools[i]) then NameOf(tools'[i])
              else if NameOf(tools[i]) in b.forward then b.forward[NameOf(tools[i])] else NameOf(tools[i])
      ensures !Skipped(tools[i]) ==> tools'[i] != tools[i] && NameOf(tools[i]) in b.forward && NameOf(tools'[i]) != ""
    {
      RenamedName(tools'[i], b.forward);
      if !Skipped(tools[i]) {
        assert Skipped(tools'[i]);
        McpNameIsNotEmpty(NameOf(tools'[i]));
        assert Renamed(b, tools[i], tools'[i]);
      }
    }
  }

  /** Names that follow a renaming: those renamed apart stay apart from the rest unless one of the rest had their old name. */
  lemma {:induction false} NamesApart(kept: seq<bool>, name: seq<string>, alias: seq<string>, out: seq<string>,
                                      forward: map<string, string>, declared: set<string>)
    requires |kept| == |name| == |alias| == |out|
    requires forall i :: 0 <= i < |out| ==>
               out[i] == if !kept[i] then alias[i] else if name[i] in forward then forward[name[i]] else name[i]
    requires forall i :: 0 <= i < |out| && !kept[i] ==> alias[i] !in declared && alias[i] != "" && name[i] in forward
    requires forall i, j :: 0 <= i < j < |out| && !kept[i] && !kept[j] ==> alias[i] != alias[j]
    requires forall i :: 0 <= i < |out| && name[i] in forward ==>
               exists k :: 0 <= k < |out| && !kept[k] && name[k] == name[i] && alias[k] == forward[name[i]]
    requires forall i :: 0 <= i < |out| ==> name[i] == "" || name[i] in declared
    ensures (forall i, j :: 0 <= i < |out| && 0 <= j < |out| && i != j && !kept[i] ==> out[i] != out[j])
            <==> forall i, j :: 0 <= i < |out| && 0 <= j < |out| && !kept[i] && kept[j] ==> name[i] != name[j]
  {
    if i, j :| 0 <= i < |out| && 0 <= j < |out| && !kept[i] && kept[j] && name[i] == name[j] {
      var k :| 0 <= k < |out| && !kept[k] && name[k] == name[j] && alias[k] == forward[name[j]];
      assert k != j && out[k] == out[j];
    } else {
      forall i, j | 0 <= i < |out| && 0 <= j < |out| && i != j && !kept[i]
        ensures out[i] != out[j]
      {
        assert out[i] == alias[i];
        if !kept[j] {
          assert out[j] == alias[j];
          assert i < j || j < i;
        } else {
          assert out[j] == name[j];
        }
      }
    }
  }

  /**
   With no more tools than words: in the aliased body a client tool shares its name with no other tool if and
   only if, in the original, no tool that keeps its name (a server tool, say) had the name of one that was aliased.
   */
  lemma {:induction false} AliasedNamesAreDistinct(env: Env, body: Fields)
    requires GoodWords(env.words) && |AsArr(Get(body, "tools"))| <= |env.words|
    ensures var tools, out := AsArr(Get(body, "tools")), AsArr(Get(Aliased(env, body).0, "tools"));
            && |out| == |tools|
            && ((forall i, j :: 0 <= i < |tools| && 0 <= j < |tools| && i != j && !Skipped(tools[i]) ==> NameOf(out[i]) != NameOf(out[j]))
                <==> (forall i, j :: 0 <= i < |tools| && 0 <= j < |tools| && !Skipped(tools[i]) && Skipped(tools[j]) ==>
                        NameOf(tools[i]) != NameOf(tools[j])))
  {
    hide AliasTools, Aliased, Skipped, GoodWords, NameOf, Rename, Declared, IsMcpName;
    var tools := AsArr(Get(body, "tools"));
    var (tools', b) := AliasTools(env, Start(tools), tools);
    AliasedIs(env, body);
    ToolsOfRenamed(body, tools', b.forward);
    var out := AsArr(Get(Aliased(env, body).0, "tools"));
    FinalNamesApart(env, tools, out);
    SameNames(tools, out, KeptOf(tools), NamesOf(tools), NamesOf(out));
  }

  function NamesOf(tools: seq<Json>): (r: seq<string>)
    ensures |r| == |tools| && forall i :: 0 <= i < |tools| ==> r[i] == NameOf(tools[i])
  {
    seq(|tools|, i requires 0 <= i < |tools| => NameOf(tools[i]))
  }

  function KeptOf(tools: seq<Json>): (r: seq<bool>)
    ensures |r| == |tools| && forall i :: 0 <= i < |tools| ==> r[i] == Skipped(tools[i])
  {
    seq(|tools|, i requires 0 <= i < |tools| => Skipped(tools[i]))
  }

  /** A name that goes forth is the name of some aliased tool, whose alias it goes to. */
  lemma {:induction false} ForthByName(tools: seq<Json>, tools': seq<Json>, names: map<string, string>, n: string)
    requires |tools| == |tools'| && ComesFrom(tools, tools', names) && n in names
    ensures exists k :: 0 <= k < |tools| && !KeptOf(tools)[k] && NamesOf(tools)[k] == n && NamesOf(tools')[k] == names[n]
  {
    hide Skipped, NameOf, KeptOf, NamesOf;
    var k: nat :| GoesForth(tools, tools', n, names[n], k);
    assert !KeptOf(tools)[k] && NamesOf(tools)[k] == n && NamesOf(tools')[k] == names[n];
  }

  lemma {:induction false} FinalNamesApart(env: Env, tools: seq<Json>, out: seq<Json>)
    requires GoodWords(env.words) && |tools| <= |env.words| && |out| == |tools|
    requires var (tools', b) := AliasTools(env, Start(tools), tools);
             forall i :: 0 <= i < |tools| ==> out[i] == Rename(tools'[i], b.forward)
    ensures var kept, name, named := KeptOf(tools), NamesOf(tools), NamesOf(out);
            (forall i, j :: 0 <= i < |named| && 0 <= j < |named| && i != j && !kept[i] ==> named[i] != named[j])
            <==> forall i, j :: 0 <= i < |named| && 0 <= j < |named| && !kept[i] && kept[j] ==> name[i] != name[j]
  {
    hide AliasTools, Skipped, GoodWords, NameOf, Rename, Declared, IsMcpName, KeptOf, NamesOf, ComesFrom;
    var (tools', b) := AliasTools(env, Start(tools), tools);
    var kept, name, alias, named := KeptOf(tools), NamesOf(tools), NamesOf(tools'), NamesOf(out);
    FinalNames(env, tools);
    AliasesAreDistinct(env, tools);
    ForwardComesFrom(env, Start(tools), tools);
    forall i | 0 <= i < |tools| && name[i] in b.forward
      ensures exists k :: 0 <= k < |named| && !kept[k] && name[k] == name[i] && alias[k] == b.forward[name[i]]
    {
      ForthByName(tools, tools', b.forward, name[i]);
    }
    forall i | 0 <= i < |tools|
      ensures name[i] == "" || name[i] in Declared(tools)
    {
      NamesAreDeclared(tools, i);
    }
    NamesApart(kept, name, alias, named, b.forward, Declared(tools));
  }

  lemma {:induction false} SameNames(tools: seq<Json>, out: seq<Json>, kept: seq<bool>, name: seq<string>, named: seq<string>)
    requires |tools| == |out| == |kept| == |name| == |named|
    requires forall i :: 0 <= i < |tools| ==>
               kept[i] == Skipped(tools[i]) && name[i] == NameOf(tools[i]) && named[i] == NameOf(out[i])
    ensures (forall i, j :: 0 <= i < |tools| && 0 <= j < |tools| && i != j && !Skipped(tools[i]) ==> NameOf(out[i]) != NameOf(out[j]))
            <==> (forall i, j :: 0 <= i < |named| && 0 <= j < |named| && i != j && !kept[i] ==> named[i] != named[j])
    ensures (forall i, j :: 0 <= i < |tools| && 0 <= j < |tools| && !Skipped(tools[i]) && Skipped(tools[j]) ==> NameOf(tools[i]) != NameOf(tools[j]))
            <==> (forall i, j :: 0 <= i < |named| && 0 <= j < |named| && !kept[i] && kept[j] ==> name[i] != name[j])
  {
    hide Skipped, NameOf;
  }

  lemma {:induction false} NamesAreDeclared(tools: seq<Json>, i: nat)
    requires i < |tools|
    ensures NameOf(tools[i]) == "" || NameOf(tools[i]) in Declared(tools)
  {
  }
}
