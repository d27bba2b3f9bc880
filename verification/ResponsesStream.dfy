/**
 Chat chunks as a Responses stream (internal/translate/openai_responses.go, emitChatToolsToResponses and
 assembleResponsesOutput of internal/translate/reasoning.go), and the same chunks collected into one chat
 message (collectNonStream of internal/provider/cursor/protocol.go, MergeToolCallDeltas of
 internal/translate/content.go) and translated whole (grokToResponses).
 */
module ResponsesStream {
  import opened Chat
  import opened Decimal
  import opened Sequences

  datatype Item = ReasoningItem(text: string) | MessageItem(text: string) | CallItem(call: Call)

  datatype Event =
    | Created(id: string)
    | SummaryDelta(payload: string)
    | ReasoningDelta(payload: string)
    | TextDelta(payload: string)
    | ItemAdded(id: string, name: string)
    | ArgumentsDelta(payload: string)
    | Completed(id: string, status: string, output: seq<Item>)

  type Step = (State, seq<Event>)

  // ---------------------------------------------------------------------------------------------
  // The stream
  // ---------------------------------------------------------------------------------------------

  function CallItems(calls: seq<Call>): (r: seq<Item>)
    ensures |r| == |calls|
    ensures forall i :: 0 <= i < |calls| ==> r[i] == CallItem(calls[i])
  {
    seq(|calls|, i requires 0 <= i < |calls| => CallItem(calls[i]))
  }

  function AssembleOutput(s: State): seq<Item> {
    (if s.reasoning != "" then [ReasoningItem(s.reasoning)] else []) +
    (if s.text != "" then [MessageItem(s.text)] else []) +
    CallItems(s.tools)
  }

  function AppendArgs(calls: seq<Call>, args: string): (r: seq<Call>)
    requires calls != []
    ensures |r| == |calls|
  {
    var n := |calls| - 1;
    calls[n := calls[n].(args := calls[n].args + args)]
  }

  function ArgsEvents(args: string): seq<Event> {
    if args != "" then [ArgumentsDelta(args)] else []
  }

  function ToolStep(s: State, t: ToolDelta): Step {
    var args := ArgsOf(t);
    if OpensCall(t) then
      var id := if t.id == "" then "call_" + Itoa(s.toolIndex) else t.id;
      (s.(tools := s.tools + [Call(id, t.name, args)], toolIndex := s.toolIndex + 1, hasTools := true),
       [ItemAdded(id, t.name)] + ArgsEvents(args))
    else if args != "" && s.tools != [] then (s.(tools := AppendArgs(s.tools, args)), ArgsEvents(args))
    else (s, ArgsEvents(args))
  }

  function ToolSteps(s: State, ts: seq<ToolDelta>): Step
    decreases |ts|
  {
    if ts == [] then (s, [])
    else
      var before := ToolSteps(s, ts[..|ts| - 1]);
      var now := ToolStep(before.0, ts[|ts| - 1]);
      (now.0, before.1 + now.1)
  }

  function StartStep(s: State, id: string): Step {
    if s.started then (s, [])
    else
      var s' := s.(started := true, id := if id != "" then id else s.id);
      (s', [Created(s'.id)])
  }

  function SayStep(s: State, c: Choice): Step {
    (s.(reasoning := s.reasoning + c.reasoning, text := s.text + c.content),
     (if c.reasoning != "" then [SummaryDelta(c.reasoning), ReasoningDelta(c.reasoning)] else []) +
     (if c.content != "" then [TextDelta(c.content)] else []))
  }

  function EndStep(s: State, c: Choice): Step {
    if c.finish.None? then (s, [])
    else
      var s' := CaptureError(s, c);
      var failed := c.finish.value == "error";
      (if failed then s' else s'.(finished := true),
       [Completed(s'.id, if failed then "failed" else "completed", AssembleOutput(s'))])
  }

  function ChunkStep(s: State, c: Chunk): Step {
    var start := StartStep(s, c.id);
    if c.choice.None? then start
    else
      var ch := c.choice.value;
      var said := SayStep(start.0, ch);
      var tools := ToolSteps(said.0, ch.tools);
      var end := EndStep(tools.0, ch);
      (end.0, start.1 + said.1 + tools.1 + end.1)
  }

  /** One turn of the loop over the deltas of a chunk. */
  method EmitChatTool(state: StreamState, tc: ToolDelta) returns (lines: seq<Event>)
    modifies state
    ensures (state.Value(), lines) == ToolStep(old(state.Value()), tc)
  {
    hide AppendArgs, Itoa;
    ghost var s := state.Value();
    lines := [];
    var args := ArgsOf(tc);
    if tc.id != "" || tc.name != "" {
      var id := if tc.id == "" then "call_" + Itoa(state.toolIndex) else tc.id;
      state.tools := state.tools + [Call(id, tc.name, args)];
      state.toolIndex := state.toolIndex + 1;
      state.hasTools := true;
      lines := lines + [ItemAdded(id, tc.name)];
    } else if args != "" && |state.tools| > 0 {
      state.tools := AppendArgs(state.tools, args);
    }
    if args != "" {
      lines := lines + [ArgumentsDelta(args)];
    }
    assert lines == ToolStep(s, tc).1;
  }

  method EmitChatToolsToResponses(state: StreamState, deltas: seq<ToolDelta>) returns (lines: seq<Event>)
    modifies state
    ensures (state.Value(), lines) == ToolSteps(old(state.Value()), deltas)
  {
    lines := [];
    ghost var s := state.Value();
    for i := 0 to |deltas|
      invariant (state.Value(), lines) == ToolSteps(s, deltas[..i])
    {
      assert deltas[..i + 1][..i] == deltas[..i];
      hide ToolStep;
      var toolLines := EmitChatTool(state, deltas[i]);
      lines := lines + toolLines;
    }
    assert deltas[..|deltas|] == deltas;
  }

  method GrokStreamToResponses(state: StreamState, c: Chunk) returns (lines: seq<Event>)
    modifies state
    ensures (state.Value(), lines) == ChunkStep(old(state.Value()), c)
  {
    hide ToolSteps, CaptureError, AssembleOutput;
    lines := [];
    ghost var s := state.Value();
    if !state.started {
      state.started := true;
      if c.id != "" {
        state.id := c.id;
      }
      lines := lines + [Created(state.id)];
      assert lines == [Created(state.id)];
    }
    assert (state.Value(), lines) == StartStep(s, c.id);
    if c.choice.None? {
      return;
    }
    var ch := c.choice.value;
    ghost var started, l0 := state.Value(), lines;
    if ch.reasoning != "" {
      state.reasoning := state.reasoning + ch.reasoning;
      lines := lines + [SummaryDelta(ch.reasoning), ReasoningDelta(ch.reasoning)];
    }
    if ch.content != "" {
      state.text := state.text + ch.content;
      lines := lines + [TextDelta(ch.content)];
    }
    assert state.Value() == SayStep(started, ch).0 && lines == l0 + SayStep(started, ch).1;
    hide SayStep, StartStep, EndStep;
    var toolLines := EmitChatToolsToResponses(state, ch.tools);
    lines := lines + toolLines;
    var endLines := CompleteResponse(state, ch);
    lines := lines + endLines;
  }

  /** The end of a chunk that has a finish reason. */
  method CompleteResponse(state: StreamState, ch: Choice) returns (lines: seq<Event>)
    modifies state
    ensures (state.Value(), lines) == EndStep(old(state.Value()), ch)
  {
    hide CaptureError, AssembleOutput;
    lines := [];
    if ch.finish.Some? {
      CaptureStreamError(state, ch);
      var status := if ch.finish.value == "error" then "failed" else "completed";
      lines := [Completed(state.id, status, AssembleOutput(state.Value()))];
      if ch.finish.value != "error" {
        state.finished := true;
      }
    }
  }

  function Chunks(s: State, chunks: seq<Chunk>): Step
    decreases |chunks|
  {
    if chunks == [] then (s, [])
    else
      var first := ChunkStep(s, chunks[0]);
      var rest := Chunks(first.0, chunks[1..]);
      (rest.0, first.1 + rest.1)
  }

  // ---------------------------------------------------------------------------------------------
  // The collected message
  // ---------------------------------------------------------------------------------------------

  /** A merged tool call; args is None when the delta that was taken whole had none. */
  datatype Merged = Merged(id: string, name: string, args: Option<string>)

  const BLANK := Merged("", "", Some(""))

  function Pad(dst: seq<Merged>, n: nat): (r: seq<Merged>)
    ensures |r| >= n && |r| >= |dst| && r[..|dst|] == dst
    ensures forall i :: |dst| <= i < |r| ==> r[i] == BLANK
    ensures |r| == if |dst| < n then n else |dst|
    decreases n - |dst|
  {
    if |dst| >= n then dst else Pad(dst + [BLANK], n)
  }

  function Update(cur: Merged, t: ToolDelta): Merged {
    Merged(if t.id != "" then t.id else cur.id,
           if t.name != "" then t.name else cur.name,
           if ArgsOf(t) != "" then Some((if cur.args.Some? then cur.args.value else "") + ArgsOf(t)) else cur.args)
  }

  function Merge(dst: seq<Merged>, t: ToolDelta): seq<Merged> {
    if t.index.None? || t.index.value < 0 then dst + [Merged(t.id, t.name, t.args)]
    else
      var i := t.index.value;
      var padded := Pad(dst, i + 1);
      padded[i := Update(padded[i], t)]
  }

  function MergeAll(dst: seq<Merged>, ts: seq<ToolDelta>): seq<Merged> {
    if ts == [] then dst else Merge(MergeAll(dst, ts[..|ts| - 1]), ts[|ts| - 1])
  }

  method MergeToolCallDeltas(dst: seq<Merged>, deltas: seq<ToolDelta>) returns (r: seq<Merged>)
    ensures r == MergeAll(dst, deltas)
  {
    r := dst;
    for i := 0 to |deltas|
      invariant r == MergeAll(dst, deltas[..i])
    {
      assert deltas[..i + 1][..i] == deltas[..i];
      var tc := deltas[i];
      var idx := if tc.index.Some? then tc.index.value else -1;
      if idx < 0 {
        r := r + [Merged(tc.id, tc.name, tc.args)];
        continue;
      }
      ghost var want := Pad(r, idx + 1);
      while |r| <= idx
        invariant Pad(r, idx + 1) == want
        decreases idx + 1 - |r|
      {
        r := r + [BLANK];
      }
      r := r[idx := Update(r[idx], tc)];
    }
    assert deltas[..|deltas|] == deltas;
  }

  /** What collectNonStream keeps of the chunks. */
  datatype Collected = Collected(text: string, reasoning: string, calls: seq<Merged>, finish: string)

  function Collect(c: Collected, chunk: Chunk): Collected {
    if chunk.choice.None? then c
    else
      var ch := chunk.choice.value;
      Collected(c.text + ch.content, c.reasoning + ch.reasoning, MergeAll(c.calls, ch.tools),
                if ch.finish.Some? && ch.finish.value != "" then ch.finish.value
                else if ch.tools != [] then "tool_calls" else c.finish)
  }

  function CollectAll(c: Collected, chunks: seq<Chunk>): Collected
    decreases |chunks|
  {
    if chunks == [] then c else CollectAll(Collect(c, chunks[0]), chunks[1..])
  }

  const NOTHING := Collected("", "", [], "stop")

  /** The chat message: its content is null as soon as there is a tool call. */
  datatype ChatMessage = ChatMessage(content: Option<string>, reasoning: string, calls: seq<Merged>, finish: string)

  function MessageOf(c: Collected): ChatMessage {
    ChatMessage(if c.calls != [] then None else Some(c.text), c.reasoning, c.calls, c.finish)
  }

  /** A message that ended in an error is answered with status 502. */
  function StatusOf(m: ChatMessage): int {
    if m.finish == "error" then 502 else 200
  }

  method CollectNonStream(chunks: seq<Chunk>) returns (m: ChatMessage, status: int)
    ensures m == MessageOf(CollectAll(NOTHING, chunks)) && status == StatusOf(m)
  {
    var text, reasoning := "", "";
    var toolCalls: seq<Merged> := [];
    var finish := "stop";
    assert chunks[0..] == chunks;
    for i := 0 to |chunks|
      invariant CollectAll(Collected(text, reasoning, toolCalls, finish), chunks[i..]) == CollectAll(NOTHING, chunks)
    {
      assert chunks[i..][1..] == chunks[i + 1..];
      var c := chunks[i];
      if c.choice.None? {
        continue;
      }
      var ch := c.choice.value;
      text := text + ch.content;
      reasoning := reasoning + ch.reasoning;
      if |ch.tools| > 0 {
        toolCalls := MergeToolCallDeltas(toolCalls, ch.tools);
        finish := "tool_calls";
      }
      if ch.finish.Some? && ch.finish.value != "" {
        finish := ch.finish.value;
      }
    }
    assert chunks[|chunks|..] == [];
    var content := Some(text);
    if |toolCalls| > 0 {
      content := None;
    }
    status := 200;
    if finish == "error" {
      status := 502;
    }
    m := ChatMessage(content, reasoning, toolCalls, finish);
  }

  function AsCall(m: Merged): Call {
    Call(m.id, m.name, if m.args.Some? then m.args.value else "{}")
  }

  function AsCalls(ms: seq<Merged>): (r: seq<Call>)
    ensures |r| == |ms|
    ensures forall i :: 0 <= i < |ms| ==> r[i] == AsCall(ms[i])
  {
    seq(|ms|, i requires 0 <= i < |ms| => AsCall(ms[i]))
  }

  /** The output of grokToResponses. */
  function WholeOutput(m: ChatMessage): seq<Item> {
    (if m.reasoning != "" then [ReasoningItem(m.reasoning)] else []) +
    (if m.content.Some? then [MessageItem(m.content.value)] else []) +
    CallItems(AsCalls(m.calls))
  }

  method GrokToResponses(m: ChatMessage) returns (output: seq<Item>)
    ensures output == WholeOutput(m)
  {
    output := [];
    if m.reasoning != "" {
      output := output + [ReasoningItem(m.reasoning)];
    }
    if m.content.Some? {
      output := output + [MessageItem(m.content.value)];
    }
    ghost var front := output;
    CallItemsStep(front, [], BLANK);
    hide CallItems, AsCalls, WholeOutput;
    for i := 0 to |m.calls|
      invariant output == front + CallItems(AsCalls(m.calls[..i]))
    {
      var c := m.calls[i];
      assert m.calls[..i + 1] == m.calls[..i] + [c];
      CallItemsStep(front, m.calls[..i], c);
      output := output + [CallItem(Call(c.id, c.name, if c.args.Some? then c.args.value else "{}"))];
    }
    assert m.calls[..|m.calls|] == m.calls;
    assert output == WholeOutput(m) by {
      WholeOutputParts(m);
    }
  }

  lemma {:induction false} CallItemsStep(front: seq<Item>, ms: seq<Merged>, m: Merged)
    ensures front + CallItems(AsCalls(ms + [m])) == (front + CallItems(AsCalls(ms))) + [CallItem(AsCall(m))]
    ensures front + CallItems(AsCalls([])) == front
  {
  }

  lemma {:induction false} WholeOutputParts(m: ChatMessage)
    ensures WholeOutput(m) == (if m.reasoning != "" then [ReasoningItem(m.reasoning)] else []) +
                              (if m.content.Some? then [MessageItem(m.content.value)] else []) +
                              CallItems(AsCalls(m.calls))
  {
  }

  // ---------------------------------------------------------------------------------------------
  // They agree
  // ---------------------------------------------------------------------------------------------

  /** Exactly one terminal chunk, and only chunks without choices after it. */
  predicate EndsClean(chunks: seq<Chunk>) {
    chunks != [] &&
    if chunks[0].choice.Some? && chunks[0].choice.value.finish.Some?
    then forall i :: 0 < i < |chunks| ==> chunks[i].choice.None?
    else EndsClean(chunks[1..])
  }

  function ToolsIn(c: Chunk): seq<ToolDelta> {
    if c.choice.Some? then c.choice.value.tools else []
  }

  function ContentIn(c: Chunk): string {
    if c.choice.Some? then c.choice.value.content else []
  }

  function ReasoningIn(c: Chunk): string {
    if c.choice.Some? then c.choice.value.reasoning else []
  }

  function Fragments(chunks: seq<Chunk>): seq<ToolDelta> {
    if chunks == [] then [] else ToolsIn(chunks[0]) + Fragments(chunks[1..])
  }

  /** How many calls the fragments open. */
  function Opens(ts: seq<ToolDelta>): nat {
    if ts == [] then 0 else Opens(ts[..|ts| - 1]) + if OpensCall(ts[|ts| - 1]) then 1 else 0
  }

  /** The k-th call opens with an id at index k, and its other fragments only add arguments. */
  predicate Orderly(ts: seq<ToolDelta>) {
    ts == [] ||
    var front, t := ts[..|ts| - 1], ts[|ts| - 1];
    Orderly(front) &&
    if OpensCall(t) then t.id != "" && t.index == Some(Opens(front))
    else Opens(front) > 0 && t.index == Some(Opens(front) - 1)
  }

  function Texts(chunks: seq<Chunk>): string {
    if chunks == [] then [] else ContentIn(chunks[0]) + Texts(chunks[1..])
  }

  function Reasonings(chunks: seq<Chunk>): string {
    if chunks == [] then [] else ReasoningIn(chunks[0]) + Reasonings(chunks[1..])
  }

  /** The output carried by the first response.completed event. */
  function CompletedOutput(events: seq<Event>): Option<seq<Item>> {
    if events == [] then None
    else if events[0].Completed? then Some(events[0].output)
    else CompletedOutput(events[1..])
  }

  function Output(reasoning: string, text: string, calls: seq<Call>): seq<Item> {
    (if reasoning != "" then [ReasoningItem(reasoning)] else []) +
    (if text != "" then [MessageItem(text)] else []) +
    CallItems(calls)
  }

  /** The calls that the stream makes of fragments. */
  function StreamCalls(ts: seq<ToolDelta>): seq<Call> {
    ToolSteps(EmptyState(""), ts).0.tools
  }

  lemma {:induction false} ToolStepsAppend(s: State, a: seq<ToolDelta>, b: seq<ToolDelta>)
    ensures ToolSteps(s, a + b).0 == ToolSteps(ToolSteps(s, a).0, b).0
    decreases |b|
  {
    if b == [] {
      assert a + b == a;
    } else {
      assert (a + b)[..|a + b| - 1] == a + b[..|b| - 1];
      ToolStepsAppend(s, a, b[..|b| - 1]);
    }
  }

  /** Tool fragments touch only the call list, its index and the flag. */
  lemma {:induction false} ToolStepsOnly(s: State, u: State, ts: seq<ToolDelta>)
    requires s.tools == u.tools && s.toolIndex == u.toolIndex
    ensures var a, b := ToolSteps(s, ts).0, ToolSteps(u, ts).0;
            a.tools == b.tools && a.toolIndex == b.toolIndex && a.text == s.text && a.reasoning == s.reasoning
    decreases |ts|
  {
    if ts != [] {
      hide ToolStep;
      ToolStepsOnly(s, u, ts[..|ts| - 1]);
      ToolStepOnly(ToolSteps(s, ts[..|ts| - 1]).0, ToolSteps(u, ts[..|ts| - 1]).0, ts[|ts| - 1]);
    }
  }

  lemma {:induction false} ToolStepOnly(s: State, u: State, t: ToolDelta)
    requires s.tools == u.tools && s.toolIndex == u.toolIndex
    ensures var a, b := ToolStep(s, t).0, ToolStep(u, t).0;
            a.tools == b.tools && a.toolIndex == b.toolIndex && a.text == s.text && a.reasoning == s.reasoning
  {
  }

  lemma {:induction false} ToolEventsComplete(s: State, ts: seq<ToolDelta>)
    ensures forall i :: 0 <= i < |ToolSteps(s, ts).1| ==> !ToolSteps(s, ts).1[i].Completed?
    decreases |ts|
  {
    if ts != [] {
      ToolEventsComplete(s, ts[..|ts| - 1]);
    }
  }

  lemma {:induction false} SkipUncompleted(a: seq<Event>, b: seq<Event>)
    requires forall i :: 0 <= i < |a| ==> !a[i].Completed?
    ensures CompletedOutput(a + b) == CompletedOutput(b)
    decreases |a|
  {
    if a == [] {
      assert a + b == b;
    } else {
      assert (a + b)[1..] == a[1..] + b;
      SkipUncompleted(a[1..], b);
    }
  }

  /** What one chunk does to the state that the output depends on, and whether it completes the response. */
  lemma {:induction false} ChunkCases(s: State, c: Chunk)
    ensures var s' := ChunkStep(s, c).0;
            s'.text == s.text + ContentIn(c) && s'.reasoning == s.reasoning + ReasoningIn(c) &&
            s'.tools == ToolSteps(s, ToolsIn(c)).0.tools && s'.toolIndex == ToolSteps(s, ToolsIn(c)).0.toolIndex
    ensures c.choice.None? || c.choice.value.finish.None? ==>
              forall i :: 0 <= i < |ChunkStep(s, c).1| ==> !ChunkStep(s, c).1[i].Completed?
    ensures c.choice.Some? && c.choice.value.finish.Some? ==>
              CompletedOutput(ChunkStep(s, c).1) == Some(AssembleOutput(ChunkStep(s, c).0))
  {
    hide ToolSteps, CompletedOutput, AssembleOutput;
    if c.choice.Some? {
      hide SayStep, EndStep;
      var ch := c.choice.value;
      var start := StartStep(s, c.id);
      var said := SayStep(start.0, ch);
      var tools := ToolSteps(said.0, ch.tools);
      SayCases(start.0, ch);
      ToolStepsOnly(said.0, s, ch.tools);
      ToolEventsComplete(said.0, ch.tools);
      EndCases(tools.0, ch);
      var before := start.1 + said.1 + tools.1;
      assert before + [] == before;
      SkipUncompleted(before, EndStep(tools.0, ch).1);
    } else {
      NoSteps(s);
      assert s.text + [] == s.text && s.reasoning + [] == s.reasoning;
    }
  }

  lemma {:induction false} NoSteps(s: State)
    ensures ToolSteps(s, []) == (s, [])
  {
  }

  lemma {:induction false} SayCases(s: State, c: Choice)
    ensures var (s', events) := SayStep(s, c);
            s'.text == s.text + c.content && s'.reasoning == s.reasoning + c.reasoning &&
            s'.tools == s.tools && s'.toolIndex == s.toolIndex && forall i :: 0 <= i < |events| ==> !events[i].Completed?
  {
  }

  lemma {:induction false} EndCases(s: State, c: Choice)
    ensures var (s', events) := EndStep(s, c);
            s'.text == s.text && s'.reasoning == s.reasoning && s'.tools == s.tools && s'.toolIndex == s.toolIndex &&
            (c.finish.None? ==> events == []) &&
            (c.finish.Some? ==> CompletedOutput(events) == Some(AssembleOutput(s')))
  {
  }

  lemma {:induction false} CompletedFirst(a: seq<Event>, b: seq<Event>)
    requires CompletedOutput(a).Some?
    ensures CompletedOutput(a + b) == CompletedOutput(a)
    decreases |a|
  {
    assert (a + b)[1..] == a[1..] + b;
    if !a[0].Completed? {
      CompletedFirst(a[1..], b);
    }
  }

  lemma {:induction false} NoChoicesSayNothing(chunks: seq<Chunk>)
    requires forall i :: 0 <= i < |chunks| ==> chunks[i].choice.None?
    ensures Texts(chunks) == [] && Reasonings(chunks) == [] && Fragments(chunks) == []
    decreases |chunks|
  {
    if chunks != [] {
      NoChoicesSayNothing(chunks[1..]);
    }
  }

  /** The state's calls are those of the fragments seen so far. */
  predicate HasCalls(s: State, seen: seq<ToolDelta>) {
    s.tools == StreamCalls(seen) && s.toolIndex == ToolSteps(EmptyState(""), seen).0.toolIndex
  }

  lemma {:induction false} StreamedOutput(s: State, seen: seq<ToolDelta>, chunks: seq<Chunk>)
    requires EndsClean(chunks) && HasCalls(s, seen)
    ensures CompletedOutput(Chunks(s, chunks).1) ==
            Some(Output(s.reasoning + Reasonings(chunks), s.text + Texts(chunks), StreamCalls(seen + Fragments(chunks))))
    decreases |chunks|
  {
    hide ChunkStep, ToolSteps, ContentIn, ReasoningIn, ToolsIn;
    var c := chunks[0];
    var first := ChunkStep(s, c);
    var now := ToolsIn(c);
    var rest := Chunks(first.0, chunks[1..]).1;
    ChunkCases(s, c);
    ToolStepsAppend(EmptyState(""), seen, now);
    ToolStepsOnly(ToolSteps(EmptyState(""), seen).0, s, now);
    assert HasCalls(first.0, seen + now);
    ConcatAssoc(seen, now, Fragments(chunks[1..]));
    ConcatAssoc(s.text, ContentIn(c), Texts(chunks[1..]));
    ConcatAssoc(s.reasoning, ReasoningIn(c), Reasonings(chunks[1..]));
    if c.choice.Some? && c.choice.value.finish.Some? {
      CompletedFirst(first.1, rest);
      assert forall i :: 0 <= i < |chunks| - 1 ==> chunks[1..][i] == chunks[i + 1];
      NoChoicesSayNothing(chunks[1..]);
      NothingMore(first.0.text, first.0.reasoning, seen + now);
    } else {
      SkipUncompleted(first.1, rest);
      StreamedOutput(first.0, seen + now, chunks[1..]);
    }
  }

  lemma {:induction false} NothingMore(a: string, b: string, ts: seq<ToolDelta>)
    ensures a + [] == a && b + [] == b && ts + [] == ts
  {
  }

  lemma {:induction false} MergeAllAppend(dst: seq<Merged>, a: seq<ToolDelta>, b: seq<ToolDelta>)
    ensures MergeAll(dst, a + b) == MergeAll(MergeAll(dst, a), b)
    decreases |b|
  {
    if b == [] {
      assert a + b == a;
    } else {
      assert (a + b)[..|a + b| - 1] == a + b[..|b| - 1];
      MergeAllAppend(dst, a, b[..|b| - 1]);
    }
  }

  lemma {:induction false} CollectedAll(c: Collected, seen: seq<ToolDelta>, chunks: seq<Chunk>)
    requires c.calls == MergeAll([], seen)
    ensures var all := CollectAll(c, chunks);
            all.text == c.text + Texts(chunks) && all.reasoning == c.reasoning + Reasonings(chunks) &&
            all.calls == MergeAll([], seen + Fragments(chunks))
    decreases |chunks|
  {
    hide MergeAll, Collect, ContentIn, ReasoningIn, ToolsIn;
    if chunks == [] {
      NothingMore(c.text, c.reasoning, seen);
    } else {
      var ch := chunks[0];
      CollectCases(c, ch);
      MergeAllAppend([], seen, ToolsIn(ch));
      CollectedAll(Collect(c, ch), seen + ToolsIn(ch), chunks[1..]);
      ConcatAssoc(seen, ToolsIn(ch), Fragments(chunks[1..]));
      ConcatAssoc(c.text, ContentIn(ch), Texts(chunks[1..]));
      ConcatAssoc(c.reasoning, ReasoningIn(ch), Reasonings(chunks[1..]));
    }
  }

  lemma {:induction false} CollectCases(c: Collected, ch: Chunk)
    ensures var c' := Collect(c, ch);
            c'.text == c.text + ContentIn(ch) && c'.reasoning == c.reasoning + ReasoningIn(ch) &&
            c'.calls == MergeAll(c.calls, ToolsIn(ch))
  {
    assert c.text + [] == c.text && c.reasoning + [] == c.reasoning;
  }

  /** Orderly fragments make the same calls by index as by order of arrival. */
  lemma {:induction false} OrderlyCallsAgree(ts: seq<ToolDelta>)
    requires Orderly(ts)
    ensures StreamCalls(ts) == AsCalls(MergeAll([], ts))
    ensures |MergeAll([], ts)| == Opens(ts)
    ensures forall i :: 0 <= i < |MergeAll([], ts)| ==> MergeAll([], ts)[i].args.Some?
    ensures ts != [] ==> Opens(ts) > 0
    decreases |ts|
  {
    if ts != [] {
      var front, t := ts[..|ts| - 1], ts[|ts| - 1];
      OrderlyCallsAgree(front);
      var merged := MergeAll([], front);
      var s := ToolSteps(EmptyState(""), front).0;
      OrderlyStep(s, merged, t);
    }
  }

  lemma {:induction false} OrderlyStep(s: State, merged: seq<Merged>, t: ToolDelta)
    requires s.tools == AsCalls(merged) && forall i :: 0 <= i < |merged| ==> merged[i].args.Some?
    requires if OpensCall(t) then t.id != "" && t.index == Some(|merged|) else |merged| > 0 && t.index == Some(|merged| - 1)
    ensures ToolStep(s, t).0.tools == AsCalls(Merge(merged, t))
    ensures |Merge(merged, t)| == |merged| + if OpensCall(t) then 1 else 0
    ensures forall i :: 0 <= i < |Merge(merged, t)| ==> Merge(merged, t)[i].args.Some?
  {
    var args := ArgsOf(t);
    PadCases(merged);
    hide Pad, Itoa;
    if OpensCall(t) {
      assert "" + args == args;
      assert Merge(merged, t) == merged + [Merged(t.id, t.name, Some(args))];
    } else {
      var n := |merged| - 1;
      assert merged[n].args.value + "" == merged[n].args.value;
      var told := Merged(merged[n].id, merged[n].name, Some(merged[n].args.value + args));
      assert Merge(merged, t) == merged[n := told];
      hide Merge;
      assert AsCalls(merged)[n := AsCall(told)] == AsCalls(merged[n := told]);
    }
  }

  lemma {:induction false} PadCases(dst: seq<Merged>)
    ensures Pad(dst, |dst|) == dst && Pad(dst, |dst| + 1) == dst + [BLANK]
  {
    assert Pad(dst + [BLANK], |dst| + 1) == dst + [BLANK];
  }

  /**
   For a turn with one terminal chunk and orderly fragments, the streamed output is the output of the
   collected message exactly when the turn has text or tool calls but not both.
   */
  lemma {:induction false} StreamAgreesWithWhole(generated: string, chunks: seq<Chunk>)
    requires EndsClean(chunks) && Orderly(Fragments(chunks))
    ensures CompletedOutput(Chunks(EmptyState(generated), chunks).1) == Some(WholeOutput(MessageOf(CollectAll(NOTHING, chunks))))
            <==> (Texts(chunks) == "") != (Fragments(chunks) == [])
  {
    hide Chunks, CollectAll, ToolSteps, MergeAll, Orderly, CompletedOutput, CallItems;
    var all := CollectAll(NOTHING, chunks);
    var frags := Fragments(chunks);
    ToolStepsNothing();
    StreamedOutput(EmptyState(generated), [], chunks);
    CollectedAll(NOTHING, [], chunks);
    assert [] + frags == frags;
    assert "" + Texts(chunks) == Texts(chunks) && "" + Reasonings(chunks) == Reasonings(chunks);
    OrderlyCallsAgree(frags);
    OutputsDiffer(Reasonings(chunks), Texts(chunks), StreamCalls(frags), MessageOf(all));
  }

  lemma {:induction false} ToolStepsNothing()
    ensures MergeAll([], []) == []
    ensures forall s: State :: s.tools == [] && s.toolIndex == 0 ==> HasCalls(s, [])
    ensures Opens([]) == 0
  {
  }

  lemma {:induction false} OutputsDiffer(reasoning: string, text: string, calls: seq<Call>, m: ChatMessage)
    requires m.reasoning == reasoning && calls == AsCalls(m.calls)
    requires m.content == if m.calls != [] then None else Some(text)
    ensures Output(reasoning, text, calls) == WholeOutput(m) <==> (text == "") != (calls == [])
  {
    var a, b := Output(reasoning, text, calls), WholeOutput(m);
    assert |a| == (if reasoning != "" then 1 else 0) + (if text != "" then 1 else 0) + |calls|;
    assert |b| == (if reasoning != "" then 1 else 0) + (if m.content.Some? then 1 else 0) + |calls|;
  }
}
