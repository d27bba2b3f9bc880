/**
 The streams translated into Claude events: internal/translate/reasoning.go and the stream steps of
 internal/translate/claude_messages.go, for chat chunks (grokStreamToClaude) and for Responses events
 (codexStreamToClaude). SSE lines are shown as events; token usage is not part of this model.
 */
module ClaudeStream {
  import opened Chat
  import opened Decimal
  import opened Sequences

  datatype Head = ThinkingHead | TextHead | ToolHead(id: string, name: string)

  datatype Event =
    | MessageStart(id: string)
    | BlockStart(index: nat, head: Head)
    | BlockDelta(index: nat, kind: Kind, payload: string)
    | BlockStop(index: nat)
    | MessageDelta(stop: string)
    | MessageStop

  /** What both translators do to the state, one thing at a time. */
  datatype Action =
    | Start(id: string)
    | Delta(kind: Kind, payload: string)
    | ToolPart(id: string, name: string, args: string)
    | OpenCall(id: string, name: string)
    | Finish(reason: string, choice: Choice)

  predicate Speaks(a: Action) {
    a.Delta? ==> a.kind == Thinking || a.kind == Text
  }

  type Step = (State, seq<Event>)

  function HeadFor(kind: Kind): Head {
    if kind == Thinking then ThinkingHead else TextHead
  }

  function KindOf(h: Head): Kind {
    match h
    case ThinkingHead => Thinking
    case TextHead => Text
    case ToolHead(_, _) => Tool
  }

  // ---------------------------------------------------------------------------------------------
  // The block functions on values
  // ---------------------------------------------------------------------------------------------

  function OpenBlock(s: State, kind: Kind): Step {
    if s.blockKind == kind then (s, [])
    else if s.blockKind != NoBlock then
      (s.(blockIndex := s.blockIndex + 1, blockKind := kind),
       [BlockStop(s.blockIndex), BlockStart(s.blockIndex + 1, HeadFor(kind))])
    else (s.(blockKind := kind), [BlockStart(s.blockIndex, HeadFor(kind))])
  }

  function CloseBlock(s: State): Step {
    if s.blockKind == NoBlock then (s, []) else (s.(blockKind := NoBlock), [BlockStop(s.blockIndex)])
  }

  function FinishBlocks(s: State): Step {
    if s.blockKind != NoBlock then CloseBlock(s)
    else if s.hasTools then (s, [])
    else
      var open := OpenBlock(s, Text);
      var closed := CloseBlock(open.0);
      (closed.0, open.1 + closed.1)
  }

  function OpenTool(s: State, id: string, name: string): Step {
    var at := if s.blockKind != NoBlock then s.blockIndex + 1 else s.blockIndex;
    (s.(blockIndex := at, blockKind := Tool, hasTools := true),
     (if s.blockKind != NoBlock then [BlockStop(s.blockIndex)] else []) + [BlockStart(at, ToolHead(id, name))])
  }

  function ArgsDelta(s: State, args: string): seq<Event> {
    if args == "" || s.blockKind != Tool then [] else [BlockDelta(s.blockIndex, Tool, args)]
  }

  function CallId(s: State, id: string): string {
    if id == "" then "call_" + Itoa(s.toolIndex) else id
  }

  function StopReason(hasTools: bool, finish: string): string {
    if finish == "tool_calls" || hasTools then "tool_use"
    else if finish == "length" then "max_tokens"
    else "end_turn"
  }

  function Act(s: State, a: Action): Step {
    match a
    case Start(id) =>
      var s' := s.(started := true, id := if id != "" then id else s.id);
      (s', [MessageStart(s'.id)])
    case Delta(kind, payload) =>
      var open := OpenBlock(s, kind);
      (open.0, open.1 + [BlockDelta(open.0.blockIndex, kind, payload)])
    case ToolPart(id, name, args) =>
      if id != "" || name != "" then
        var open := OpenTool(s, CallId(s, id), name);
        var s' := open.0.(toolIndex := s.toolIndex + 1);
        (s', open.1 + ArgsDelta(s', args))
      else (s, ArgsDelta(s, args))
    case OpenCall(id, name) => OpenTool(s, id, name)
    case Finish(reason, choice) =>
      var closed := FinishBlocks(CaptureError(s, choice));
      (if reason != "error" then closed.0.(finished := true) else closed.0,
       closed.1 + [MessageDelta(StopReason(closed.0.hasTools, reason)), MessageStop])
  }

  function Run(s: State, acts: seq<Action>): Step
    decreases |acts|
  {
    if acts == [] then (s, [])
    else
      var first := Act(s, acts[0]);
      var rest := Run(first.0, acts[1..]);
      (rest.0, first.1 + rest.1)
  }

  lemma {:induction false} RunAppend(s: State, a: seq<Action>, b: seq<Action>)
    ensures Run(s, a + b) == (Run(Run(s, a).0, b).0, Run(s, a).1 + Run(Run(s, a).0, b).1)
    decreases |a|
  {
    if a == [] {
      assert a + b == b;
      assert [] + Run(s, b).1 == Run(s, b).1;
    } else {
      assert (a + b)[1..] == a[1..] + b;
      var first := Act(s, a[0]);
      RunAppend(first.0, a[1..], b);
      ConcatAssoc(first.1, Run(first.0, a[1..]).1, Run(Run(s, a).0, b).1);
    }
  }

  lemma {:induction false} RunNothing(s: State, acts: seq<Action>)
    ensures Run(s, acts[..0]) == (s, [])
    ensures Run(s, []) == (s, [])
  {
  }

  lemma {:induction false} RunOne(s: State, a: Action)
    ensures Run(s, [a]) == Act(s, a)
  {
    var first := Act(s, a);
    assert [a][1..] == [];
    assert Run(first.0, [a][1..]) == (first.0, []);
    assert first.1 + [] == first.1;
  }

  lemma {:induction false} RunSnoc(s: State, acts: seq<Action>, i: nat)
    requires i < |acts|
    ensures var before := Run(s, acts[..i]); var now := Act(before.0, acts[i]);
            Run(s, acts[..i + 1]) == (now.0, before.1 + now.1)
  {
    assert acts[..i + 1] == acts[..i] + [acts[i]];
    RunAppend(s, acts[..i], [acts[i]]);
    RunOne(Run(s, acts[..i]).0, acts[i]);
  }

  lemma {:induction false} Extend(s: State, acts: seq<Action>, a: Action)
    ensures var before := Run(s, acts); var now := Act(before.0, a);
            Run(s, acts + [a]) == (now.0, before.1 + now.1)
  {
    RunAppend(s, acts, [a]);
    RunOne(Run(s, acts).0, a);
  }

  lemma {:induction false} ToolPartCases(s: State, t: ToolDelta)
    ensures var now := Act(s, ToolPart(t.id, t.name, ArgsOf(t)));
            if t.id != "" || t.name != "" then
              var open := OpenTool(s, CallId(s, t.id), t.name);
              var s' := open.0.(toolIndex := s.toolIndex + 1);
              now == (s', open.1 + ArgsDelta(s', ArgsOf(t)))
            else now == (s, ArgsDelta(s, ArgsOf(t)))
  {
  }

  // ---------------------------------------------------------------------------------------------
  // Chunks and Responses events as actions
  // ---------------------------------------------------------------------------------------------

  function ToolActions(tools: seq<ToolDelta>): (acts: seq<Action>)
    ensures |acts| == |tools|
    ensures forall i :: 0 <= i < |tools| ==> acts[i] == ToolPart(tools[i].id, tools[i].name, ArgsOf(tools[i]))
  {
    seq(|tools|, i requires 0 <= i < |tools| => ToolPart(tools[i].id, tools[i].name, ArgsOf(tools[i])))
  }

  function ChoiceActions(c: Choice): seq<Action> {
    ThinkPart(c) + TextPart(c) + ToolActions(c.tools) + FinishPart(c)
  }

  function ChunkActions(started: bool, c: Chunk): seq<Action> {
    StartPart(started, c) + (if c.choice.Some? then ChoiceActions(c.choice.value) else [])
  }

  function ChatActions(started: bool, chunks: seq<Chunk>): seq<Action>
    decreases |chunks|
  {
    if chunks == [] then [] else ChunkActions(started, chunks[0]) + ChatActions(true, chunks[1..])
  }

  function StartPart(started: bool, c: Chunk): seq<Action> {
    if started then [] else [Start(c.id)]
  }

  function ThinkPart(c: Choice): seq<Action> {
    if c.reasoning != "" then [Delta(Thinking, c.reasoning)] else []
  }

  function TextPart(c: Choice): seq<Action> {
    if c.content != "" then [Delta(Text, c.content)] else []
  }

  function FinishPart(c: Choice): seq<Action> {
    if c.finish.Some? then [Finish(c.finish.value, c)] else []
  }

  const NO_CHOICE := Choice("", "", [], None)

  lemma {:induction false} ChunkParts(started: bool, c: Chunk, choice: Choice)
    requires choice == if c.choice.Some? then c.choice.value else NO_CHOICE
    ensures ChunkActions(started, c) ==
            (((StartPart(started, c) + ThinkPart(choice)) + TextPart(choice)) + ToolActions(choice.tools)) + FinishPart(choice)
    ensures choice.finish.None? ==>
              ChunkActions(started, c) ==
              ((StartPart(started, c) + ThinkPart(choice)) + TextPart(choice)) + ToolActions(choice.tools)
  {
    assert ChoiceActions(NO_CHOICE) == [];
  }

  /** The upstream Responses events that codexStreamToClaude reacts to. */
  datatype Upstream =
    | Created(id: string)
    | ReasoningDelta(payload: string)
    | OutputText(payload: string)
    | ItemAdded(isCall: bool, callId: string, id: string, name: string)
    | ArgumentsDelta(payload: string)
    | Completed
    | Other

  function EventActions(started: bool, e: Upstream): seq<Action> {
    match e
    case Created(id) => if started then [] else [Start(id)]
    case ReasoningDelta(payload) => if payload != "" then [Delta(Thinking, payload)] else []
    case OutputText(payload) => [Delta(Text, payload)]
    case ItemAdded(isCall, callId, id, name) => if isCall then [OpenCall(if callId == "" then id else callId, name)] else []
    case ArgumentsDelta(payload) => [ToolPart("", "", payload)]
    case Completed => [Finish("", NO_CHOICE)]
    case Other => []
  }

  function ResponsesActions(started: bool, events: seq<Upstream>): seq<Action>
    decreases |events|
  {
    if events == [] then []
    else EventActions(started, events[0]) + ResponsesActions(started || events[0].Created?, events[1..])
  }

  // ---------------------------------------------------------------------------------------------
  // The translators, updating the stream state
  // ---------------------------------------------------------------------------------------------

  method ClaudeOpenBlock(state: StreamState, kind: Kind) returns (lines: seq<Event>)
    modifies state
    ensures (state.Value(), lines) == OpenBlock(old(state.Value()), kind)
  {
    lines := [];
    if state.blockKind == kind {
      return;
    }
    if state.blockKind != NoBlock {
      lines := lines + [BlockStop(state.blockIndex)];
      state.blockIndex := state.blockIndex + 1;
    }
    lines := lines + [BlockStart(state.blockIndex, HeadFor(kind))];
    state.blockKind := kind;
    assert lines == OpenBlock(old(state.Value()), kind).1;
  }

  method ClaudeCloseBlock(state: StreamState) returns (lines: seq<Event>)
    modifies state
    ensures (state.Value(), lines) == CloseBlock(old(state.Value()))
  {
    if state.blockKind == NoBlock {
      return [];
    }
    lines := [BlockStop(state.blockIndex)];
    state.blockKind := NoBlock;
  }

  method ClaudeFinishBlocks(state: StreamState) returns (lines: seq<Event>)
    modifies state
    ensures (state.Value(), lines) == FinishBlocks(old(state.Value()))
  {
    if state.blockKind != NoBlock {
      lines := ClaudeCloseBlock(state);
      return;
    }
    if state.hasTools {
      return [];
    }
    var start := ClaudeOpenBlock(state, Text);
    var stop := ClaudeCloseBlock(state);
    lines := start + stop;
  }

  method ClaudeOpenTool(state: StreamState, callId: string, name: string) returns (lines: seq<Event>)
    modifies state
    ensures (state.Value(), lines) == OpenTool(old(state.Value()), callId, name)
  {
    lines := [];
    if state.blockKind != NoBlock {
      lines := lines + [BlockStop(state.blockIndex)];
      state.blockIndex := state.blockIndex + 1;
    }
    lines := lines + [BlockStart(state.blockIndex, ToolHead(callId, name))];
    state.blockKind := Tool;
    state.hasTools := true;
    assert lines == OpenTool(old(state.Value()), callId, name).1;
  }

  method ClaudeToolDelta(state: StreamState, args: string) returns (lines: seq<Event>)
    ensures lines == ArgsDelta(state.Value(), args)
  {
    if args == "" || state.blockKind != Tool {
      return [];
    }
    return [BlockDelta(state.blockIndex, Tool, args)];
  }

  method EmitChatToolsToClaude(state: StreamState, deltas: seq<ToolDelta>) returns (lines: seq<Event>)
    modifies state
    ensures (state.Value(), lines) == Run(old(state.Value()), ToolActions(deltas))
  {
    hide Run, Act;
    lines := [];
    ghost var all := ToolActions(deltas);
    ghost var start := state.Value();
    RunNothing(start, all);
    for i := 0 to |deltas|
      invariant Run(start, all[..i]) == (state.Value(), lines)
    {
      ghost var before := state.Value();
      ghost var sofar := lines;
      RunSnoc(start, all, i);
      ToolPartCases(before, deltas[i]);
      var tc := deltas[i];
      var args := ArgsOf(tc);
      if tc.id != "" || tc.name != "" {
        var callId := if tc.id == "" then "call_" + Itoa(state.toolIndex) else tc.id;
        var open := ClaudeOpenTool(state, callId, tc.name);
        lines := lines + open;
        state.toolIndex := state.toolIndex + 1;
        ConcatAssoc(sofar, open, ArgsDelta(state.Value(), args));
      }
      var part := ClaudeToolDelta(state, args);
      lines := lines + part;
    }
    assert all[..|deltas|] == all;
  }

  /** The first event of a message; an upstream id replaces the generated one. */
  method ClaudeStart(state: StreamState, upstreamId: string) returns (lines: seq<Event>)
    modifies state
    ensures (state.Value(), lines) == Act(old(state.Value()), Start(upstreamId))
  {
    state.started := true;
    if upstreamId != "" {
      state.id := upstreamId;
    }
    lines := [MessageStart(state.id)];
  }

  /** Opens a block of this kind unless one is open, and adds a delta to it. */
  method ClaudeBlockDelta(state: StreamState, kind: Kind, payload: string) returns (lines: seq<Event>)
    modifies state
    ensures (state.Value(), lines) == Act(old(state.Value()), Delta(kind, payload))
  {
    lines := ClaudeOpenBlock(state, kind);
    lines := lines + [BlockDelta(state.blockIndex, kind, payload)];
  }

  /** The two last events of a message, after its open block is closed. */
  method ClaudeFinish(state: StreamState, reason: string, c: Choice) returns (lines: seq<Event>)
    modifies state
    ensures (state.Value(), lines) == Act(old(state.Value()), Finish(reason, c))
  {
    CaptureStreamError(state, c);
    lines := ClaudeFinishBlocks(state);
    lines := lines + [MessageDelta(StopReason(state.hasTools, reason)), MessageStop];
    if reason != "error" {
      state.finished := true;
    }
  }

  /** One chat chunk; the lines and the new state are those of the chunk's actions. */
  method GrokStreamToClaude(state: StreamState, c: Chunk) returns (lines: seq<Event>)
    modifies state
    ensures (state.Value(), lines) == Run(old(state.Value()), ChunkActions(old(state.started), c))
  {
    hide Run, Act, ToolActions, OpenBlock, FinishBlocks, CaptureError, ChunkActions;
    var choice := if c.choice.Some? then c.choice.value else NO_CHOICE;
    ghost var s := state.Value();
    ghost var acts: seq<Action> := [];
    lines := [];
    RunNothing(s, []);
    ChunkParts(s.started, c, choice);
    if !state.started {
      Extend(s, acts, Start(c.id));
      acts := acts + [Start(c.id)];
      var first := ClaudeStart(state, c.id);
      lines := lines + first;
    }
    assert (state.Value(), lines) == Run(s, acts) && acts == StartPart(s.started, c);
    if choice.reasoning != "" {
      Extend(s, acts, Delta(Thinking, choice.reasoning));
      acts := acts + [Delta(Thinking, choice.reasoning)];
      var part := ClaudeBlockDelta(state, Thinking, choice.reasoning);
      lines := lines + part;
    }
    assert (state.Value(), lines) == Run(s, acts) && acts == StartPart(s.started, c) + ThinkPart(choice);
    if choice.content != "" {
      Extend(s, acts, Delta(Text, choice.content));
      acts := acts + [Delta(Text, choice.content)];
      var part := ClaudeBlockDelta(state, Text, choice.content);
      lines := lines + part;
    }
    assert (state.Value(), lines) == Run(s, acts) && acts == StartPart(s.started, c) + ThinkPart(choice) + TextPart(choice);
    RunAppend(s, acts, ToolActions(choice.tools));
    var toolLines := EmitChatToolsToClaude(state, choice.tools);
    lines := lines + toolLines;
    acts := acts + ToolActions(choice.tools);
    assert (state.Value(), lines) == Run(s, acts);
    if choice.finish.Some? {
      var reason := choice.finish.value;
      Extend(s, acts, Finish(reason, choice));
      acts := acts + [Finish(reason, choice)];
      var last := ClaudeFinish(state, reason, choice);
      lines := lines + last;
    }
  }

  /** One Responses event. */
  method CodexStreamToClaude(state: StreamState, e: Upstream) returns (lines: seq<Event>)
    modifies state
    ensures (state.Value(), lines) == Run(old(state.Value()), EventActions(old(state.started), e))
  {
    hide Run, Act, OpenBlock, FinishBlocks, OpenTool;
    ghost var s := state.Value();
    ghost var acts: seq<Action> := [];
    lines := [];
    RunNothing(s, []);
    if e.Created? && !state.started {
      Extend(s, acts, Start(e.id));
      acts := acts + [Start(e.id)];
      var first := ClaudeStart(state, e.id);
      lines := lines + first;
    } else if e.ReasoningDelta? {
      if e.payload != "" {
        Extend(s, acts, Delta(Thinking, e.payload));
        acts := acts + [Delta(Thinking, e.payload)];
        var part := ClaudeBlockDelta(state, Thinking, e.payload);
        lines := lines + part;
      }
    } else if e.OutputText? {
      Extend(s, acts, Delta(Text, e.payload));
      acts := acts + [Delta(Text, e.payload)];
      var part := ClaudeBlockDelta(state, Text, e.payload);
      lines := lines + part;
    } else if e.ItemAdded? {
      if e.isCall {
        var callId := if e.callId == "" then e.id else e.callId;
        Extend(s, acts, OpenCall(callId, e.name));
        OpenCallCase(s, callId, e.name);
        acts := acts + [OpenCall(callId, e.name)];
        var open := ClaudeOpenTool(state, callId, e.name);
        lines := lines + open;
      }
    } else if e.ArgumentsDelta? {
      Extend(s, acts, ToolPart("", "", e.payload));
      ToolPartCases(s, ToolDelta(None, "", "", Some(e.payload)));
      acts := acts + [ToolPart("", "", e.payload)];
      var part := ClaudeToolDelta(state, e.payload);
      lines := lines + part;
    } else if e.Completed? {
      Extend(s, acts, Finish("", NO_CHOICE));
      acts := acts + [Finish("", NO_CHOICE)];
      var last := ClaudeFinish(state, "", NO_CHOICE);
      lines := lines + last;
    }
    assert acts == EventActions(s.started, e);
  }

  lemma {:induction false} OpenCallCase(s: State, id: string, name: string)
    ensures Act(s, OpenCall(id, name)) == OpenTool(s, id, name)
  {
  }

  lemma {:induction false} RunKeepsStarted(s: State, acts: seq<Action>)
    ensures s.started ==> Run(s, acts).0.started
    ensures acts != [] && acts[0].Start? ==> Run(s, acts).0.started
    decreases |acts|
  {
    if acts != [] {
      ActKeepsStarted(s, acts[0]);
      hide Act;
      RunKeepsStarted(Act(s, acts[0]).0, acts[1..]);
    }
  }

  lemma {:induction false} ActKeepsStarted(s: State, a: Action)
    ensures Act(s, a).0.started == (s.started || a.Start?)
  {
  }

  /** The proxy's loop over a chat upstream: every chunk in turn, with one state, and whether to record it as ok. */
  method TranslateChatStream(generated: string, chunks: seq<Chunk>) returns (events: seq<Event>, ok: bool)
    ensures events == Run(EmptyState(generated), ChatActions(false, chunks)).1
    ensures ok == EndsWell(Run(EmptyState(generated), ChatActions(false, chunks)).0)
  {
    hide Run, ChunkActions;
    var state := new StreamState(generated);
    ghost var s := state.Value();
    ghost var all := ChatActions(false, chunks);
    ghost var acts: seq<Action> := [];
    events := [];
    RunNothing(s, []);
    assert chunks[0..] == chunks;
    for i := 0 to |chunks|
      invariant Run(s, acts) == (state.Value(), events)
      invariant acts + ChatActions(state.started, chunks[i..]) == all
    {
      assert chunks[i..][1..] == chunks[i + 1..];
      ghost var here := ChunkActions(state.started, chunks[i]);
      RunAppend(s, acts, here);
      StartsFirst(state.started, chunks[i]);
      RunKeepsStarted(state.Value(), here);
      ConcatAssoc(acts, here, ChatActions(true, chunks[i + 1..]));
      var lines := GrokStreamToClaude(state, chunks[i]);
      events := events + lines;
      acts := acts + here;
    }
    assert chunks[|chunks|..] == [];
    assert acts + [] == acts;
    ok := state.error == "" && state.finished;
  }

  lemma {:induction false} StartsFirst(started: bool, c: Chunk)
    ensures !started ==> ChunkActions(started, c) != [] && ChunkActions(started, c)[0].Start?
  {
  }

  /** The proxy's loop over a Responses upstream, in the same way. */
  method TranslateResponsesStream(generated: string, upstream: seq<Upstream>) returns (events: seq<Event>, ok: bool)
    ensures events == Run(EmptyState(generated), ResponsesActions(false, upstream)).1
    ensures ok == EndsWell(Run(EmptyState(generated), ResponsesActions(false, upstream)).0)
  {
    hide Run, EventActions;
    var state := new StreamState(generated);
    ghost var s := state.Value();
    ghost var all := ResponsesActions(false, upstream);
    ghost var acts: seq<Action> := [];
    events := [];
    RunNothing(s, []);
    assert upstream[0..] == upstream;
    for i := 0 to |upstream|
      invariant Run(s, acts) == (state.Value(), events)
      invariant acts + ResponsesActions(state.started, upstream[i..]) == all
    {
      assert upstream[i..][1..] == upstream[i + 1..];
      ghost var here := EventActions(state.started, upstream[i]);
      RunAppend(s, acts, here);
      EventStarts(state.Value(), upstream[i]);
      ConcatAssoc(acts, here, ResponsesActions(state.started || upstream[i].Created?, upstream[i + 1..]));
      var lines := CodexStreamToClaude(state, upstream[i]);
      events := events + lines;
      acts := acts + here;
    }
    assert upstream[|upstream|..] == [];
    assert acts + [] == acts;
    ok := state.error == "" && state.finished;
  }

  /** response.created, and nothing else, marks the stream as started. */
  lemma {:induction false} EventStarts(s: State, e: Upstream)
    ensures Run(s, EventActions(s.started, e)).0.started == (s.started || e.Created?)
  {
    var acts := EventActions(s.started, e);
    if acts == [] {
      RunNothing(s, []);
    } else {
      assert acts == [acts[0]];
      RunOne(s, acts[0]);
      ActKeepsStarted(s, acts[0]);
    }
  }
}
