/**
 What a Claude client reads off the ends of a message, and in which order it was told: the stop reason, the empty
 message, and thinking against text, each from the upstream alone.
 */
module ClaudeReadings {
  import opened Chat
  import opened ClaudeStream
  import opened ClaudeGrammar
  import opened ClaudeRuns
  import opened Sequences

  // ---------------------------------------------------------------------------------------------
  // The stop reason of a chat stream
  // ---------------------------------------------------------------------------------------------

  /** Some entry of tool_calls names a call. */
  predicate Calls(chunks: seq<Chunk>) {
    exists i, j :: 0 <= i < |chunks| && chunks[i].choice.Some? && 0 <= j < |chunks[i].choice.value.tools| &&
                   OpensCall(chunks[i].choice.value.tools[j])
  }

  /** The finish reason of the terminal chunk. */
  function Finishing(chunks: seq<Chunk>): string
    requires EndsOnce(chunks)
    decreases |chunks|
  {
    if Terminal(chunks[0]) then chunks[0].choice.value.finish.value else Finishing(chunks[1..])
  }

  lemma {:induction false} FinishOfBody(body: seq<Action>, tail: seq<Action>)
    requires AllBody(body) && Finishes(tail)
    ensures Finishes(body + tail) && FinishOf(body + tail) == FinishOf(tail)
    decreases |body|
  {
    if body == [] {
      assert body + tail == tail;
    } else {
      assert IsBody(body[0]) && (body + tail)[1..] == body[1..] + tail;
      FinishOfBody(body[1..], tail);
    }
  }

  lemma {:induction false} FinishingChunk(chunks: seq<Chunk>)
    requires EndsOnce(chunks)
    ensures Finishes(ChatActions(true, chunks)) && FinishOf(ChatActions(true, chunks)).Finish?
    ensures FinishOf(ChatActions(true, chunks)).reason == Finishing(chunks)
    decreases |chunks|
  {
    hide AllSilent, ChunkActions, BodyPart, AllBody;
    var c, rest := chunks[0], ChatActions(true, chunks[1..]);
    FinishingChunks(chunks);
    FinishReasonIs(ChatActions(true, chunks));
    if Terminal(c) {
      var ch := c.choice.value;
      ChunkIsBodyThenFinish(c);
      BodyPartIsBody(ch);
      ConcatAssoc(BodyPart(ch), FinishPart(ch), rest);
      AllSilentActions(chunks[1..]);
      assert (FinishPart(ch) + rest)[1..] == rest && (FinishPart(ch) + rest)[0] == Finish(ch.finish.value, ch);
      FinishOfBody(BodyPart(ch), FinishPart(ch) + rest);
    } else {
      FinishingChunk(chunks[1..]);
      if c.choice.Some? {
        var ch := c.choice.value;
        ChunkIsBodyThenFinish(c);
        BodyPartIsBody(ch);
        assert BodyPart(ch) + FinishPart(ch) == BodyPart(ch);
        FinishOfBody(BodyPart(ch), rest);
      } else {
        NoChoiceNoActions(c);
        assert [] + rest == rest;
      }
    }
  }

  lemma {:induction false} NoChoiceNoActions(c: Chunk)
    requires c.choice.None?
    ensures ChunkActions(true, c) == []
  {
  }

  /** The actions open a call. */
  predicate Opens(acts: seq<Action>) {
    exists i :: 0 <= i < |acts| && ((acts[i].ToolPart? && !IsFragment(acts[i])) || acts[i].OpenCall?)
  }

  lemma {:induction false} OpensSplit(a: seq<Action>, b: seq<Action>)
    ensures Opens(a + b) <==> Opens(a) || Opens(b)
  {
    assert forall i :: 0 <= i < |a| ==> (a + b)[i] == a[i];
    assert forall i :: 0 <= i < |b| ==> (a + b)[|a| + i] == b[i];
    assert forall i :: |a| <= i < |a + b| ==> (a + b)[i] == b[i - |a|];
  }

  /** A message has a tool block exactly when an action of its body opened a call. */
  lemma {:induction false} ToolsOpened(b: Build, acts: seq<Action>)
    requires AllBody(acts)
    ensures HasTool(AddAll(b, acts).blocks) <==> HasTool(b.blocks) || Opens(acts)
    decreases |acts|
  {
    hide HasTool, Add, Opens;
    if acts == [] {
      NothingOpens();
    } else {
      assert IsBody(acts[0]);
      ToolsOpened(Add(b, acts[0]), acts[1..]);
      OneOpens(b, acts[0]);
      assert acts == [acts[0]] + acts[1..];
      OpensSplit([acts[0]], acts[1..]);
    }
  }

  lemma {:induction false} NothingOpens()
    ensures !Opens([])
  {
  }

  lemma {:induction false} OneOpens(b: Build, a: Action)
    requires IsBody(a)
    ensures HasTool(Add(b, a).blocks) <==> HasTool(b.blocks) || Opens([a])
  {
    hide HasTool;
    assert [a][0] == a;
    match a
    case Delta(kind, payload) =>
      if b.blocks != [] && KindOf(Last(b.blocks).head) == kind {
        AddPartTracks(b.blocks, payload);
      } else {
        HasToolSnoc(b.blocks, Block(HeadFor(kind), [payload]));
      }
    case ToolPart(id, name, args) =>
      if id != "" || name != "" {
        HasToolSnoc(b.blocks, Last(Add(b, a).blocks));
      } else if args != "" && b.blocks != [] && IsTool(Last(b.blocks)) {
        AddPartTracks(b.blocks, args);
      }
    case OpenCall(id, name) =>
      HasToolSnoc(b.blocks, Block(ToolHead(id, name), []));
    case _ =>
  }

  lemma {:induction false} ChoiceOpens(c: Choice)
    ensures Opens(BodyPart(c)) <==> exists j :: 0 <= j < |c.tools| && OpensCall(c.tools[j])
  {
    var said, tools := ThinkPart(c) + TextPart(c), ToolActions(c.tools);
    OpensSplit(said, tools);
    assert forall j :: 0 <= j < |tools| ==> (!IsFragment(tools[j]) <==> OpensCall(c.tools[j]));
    if Opens(tools) {
      var j :| 0 <= j < |tools| && ((tools[j].ToolPart? && !IsFragment(tools[j])) || tools[j].OpenCall?);
      assert OpensCall(c.tools[j]);
    }
    if j :| 0 <= j < |c.tools| && OpensCall(c.tools[j]) {
      assert tools[j].ToolPart? && !IsFragment(tools[j]);
    }
  }

  lemma {:induction false} CallsSplit(c: Chunk, rest: seq<Chunk>)
    ensures Calls([c] + rest) <==>
            (c.choice.Some? && exists j :: 0 <= j < |c.choice.value.tools| && OpensCall(c.choice.value.tools[j])) || Calls(rest)
  {
    var all := [c] + rest;
    assert all[0] == c && forall i :: 0 <= i < |rest| ==> all[i + 1] == rest[i];
    if Calls(rest) {
      var i, j :| 0 <= i < |rest| && rest[i].choice.Some? && 0 <= j < |rest[i].choice.value.tools| &&
                  OpensCall(rest[i].choice.value.tools[j]);
      assert OpensCall(all[i + 1].choice.value.tools[j]);
    }
    if c.choice.Some? && exists j :: 0 <= j < |c.choice.value.tools| && OpensCall(c.choice.value.tools[j]) {
      var j :| 0 <= j < |c.choice.value.tools| && OpensCall(c.choice.value.tools[j]);
      assert OpensCall(all[0].choice.value.tools[j]);
    }
  }

  lemma {:induction false} SilentCallsNothing(chunks: seq<Chunk>)
    requires AllSilent(chunks)
    ensures !Calls(chunks)
  {
  }

  lemma {:induction false} BodyOpens(chunks: seq<Chunk>)
    requires EndsOnce(chunks)
    ensures Opens(BodyOf(ChatActions(true, chunks))) <==> Calls(chunks)
    decreases |chunks|
  {
    hide ChunkActions, BodyPart, Opens, BodyOf, Calls, AllSilent;
    var c, rest := chunks[0], ChatActions(true, chunks[1..]);
    assert chunks == [c] + chunks[1..];
    BodyOfChunk(c, rest);
    CallsSplit(c, chunks[1..]);
    if c.choice.Some? {
      ChoiceOpens(c.choice.value);
      OpensSplit(BodyPart(c.choice.value), BodyOf(rest));
    }
    if Terminal(c) {
      SilentCallsNothing(chunks[1..]);
    } else {
      BodyOpens(chunks[1..]);
    }
  }

  lemma {:induction false} FinalKeepsTools(blocks: seq<Block>)
    ensures HasTool(Final(blocks)) <==> HasTool(blocks)
  {
    if blocks == [] {
      assert !IsTool(Final(blocks)[0]);
    }
  }

  lemma {:induction false} NoToolYet()
    ensures !HasTool([])
  {
  }

  /** The last two events of a message. */
  lemma {:induction false} MessageEnds(id: string, blocks: seq<Block>, stop: string)
    ensures var es := Message(id, blocks, stop);
            |es| >= 3 && es[0] == MessageStart(id) && es[|es| - 2] == MessageDelta(stop) && es[|es| - 1] == MessageStop
  {
  }

  /**
   A chat stream that ends once tells the client why it stopped: "tool_use" if its finish reason says so or some
   fragment named a call, and then the message has a tool block; else "max_tokens" if the reason is "length"; else
   "end_turn", whatever the reason.
   */
  lemma {:induction false} ChatStops(generated: string, chunks: seq<Chunk>)
    requires EndsOnce(chunks)
    ensures var es := Run(EmptyState(generated), ChatActions(false, chunks)).1;
            var stop := if Finishing(chunks) == "tool_calls" || Calls(chunks) then "tool_use"
                        else if Finishing(chunks) == "length" then "max_tokens" else "end_turn";
            |es| >= 3 && es[0] == MessageStart(if chunks[0].id != "" then chunks[0].id else generated)
            && es[|es| - 2] == MessageDelta(stop) && es[|es| - 1] == MessageStop
    ensures HasTool(Final(BlocksOf(ChatActions(true, chunks)))) <==> Calls(chunks)
  {
    hide Run, ChatActions, BodyOf, Calls, Finishing, Message, HasTool, AllSilent, Finishes, FinishOf, Opens;
    var acts := ChatActions(true, chunks);
    ChatMessage(generated, chunks);
    FinishingChunk(chunks);
    FinishingBody(acts);
    ToolsOpened(Build([], 0), BodyOf(acts));
    NoToolYet();
    BodyOpens(chunks);
    FinalKeepsTools(BlocksOf(acts));
    MessageEnds(if chunks[0].id != "" then chunks[0].id else generated, Final(BlocksOf(acts)), StopOf(acts));
  }

  // ---------------------------------------------------------------------------------------------
  // The stop reason of a Responses stream
  // ---------------------------------------------------------------------------------------------

  /** Some function_call item was added. */
  predicate CallsItem(events: seq<Upstream>) {
    exists i :: 0 <= i < |events| && events[i].ItemAdded? && events[i].isCall
  }

  lemma {:induction false} ItemsSplit(e: Upstream, rest: seq<Upstream>)
    ensures CallsItem([e] + rest) <==> (e.ItemAdded? && e.isCall) || CallsItem(rest)
  {
    var all := [e] + rest;
    assert all[0] == e && forall i :: 0 <= i < |rest| ==> all[i + 1] == rest[i];
  }

  lemma {:induction false} EventOpens(e: Upstream)
    ensures Opens(EventActions(true, e)) <==> e.ItemAdded? && e.isCall
  {
    var acts := EventActions(true, e);
    if e.ItemAdded? && e.isCall {
      assert acts[0].OpenCall?;
    }
  }

  lemma {:induction false} QuietCallsNothing(events: seq<Upstream>)
    requires forall i :: 0 <= i < |events| ==> Quiet(events[i]) || events[i].Created?
    ensures !CallsItem(events)
  {
  }

  lemma {:induction false} EventsFinish(events: seq<Upstream>)
    requires CompletesOnce(events)
    ensures var acts := ResponsesActions(true, events);
            Finishes(acts) && FinishOf(acts) == Finish("", NO_CHOICE) && (Opens(BodyOf(acts)) <==> CallsItem(events))
    decreases |events|
  {
    hide EventActions, Opens, BodyOf, CallsItem;
    var e, rest := events[0], ResponsesActions(true, events[1..]);
    assert events == [e] + events[1..];
    CompletingEvents(events);
    BodyOfEvent(e, rest);
    ItemsSplit(e, events[1..]);
    EventCases(e);
    if e.Completed? {
      CompletedActs();
      assert ([Finish("", NO_CHOICE)] + rest)[1..] == rest;
      assert forall i :: 0 <= i < |events| - 1 ==> events[1..][i] == events[i + 1];
      QuietCallsNothing(events[1..]);
      NothingOpens();
    } else {
      EventsFinish(events[1..]);
      FinishOfBody(EventActions(true, e), rest);
      OpensSplit(EventActions(true, e), BodyOf(rest));
      EventOpens(e);
    }
  }

  lemma {:induction false} CompletedActs()
    ensures EventActions(true, Completed) == [Finish("", NO_CHOICE)]
  {
  }

  lemma {:induction false} CalledAfterCreated(events: seq<Upstream>)
    requires CreatedThenCompleted(events)
    ensures CallsItem(AfterCreated(events)) <==> CallsItem(events)
    decreases |events|
  {
    hide CallsItem;
    assert events == [events[0]] + events[1..];
    ItemsSplit(events[0], events[1..]);
    if !events[0].Created? {
      CalledAfterCreated(events[1..]);
    }
  }

  /** A Responses stream tells "tool_use" exactly when a call item was added, and "end_turn" otherwise. */
  lemma {:induction false} ResponsesStops(generated: string, events: seq<Upstream>)
    requires CreatedThenCompleted(events)
    ensures var es := Run(EmptyState(generated), ResponsesActions(false, events)).1;
            |es| >= 3 && es[0] == MessageStart(if CreatedId(events) != "" then CreatedId(events) else generated)
            && es[|es| - 2] == MessageDelta(if CallsItem(events) then "tool_use" else "end_turn")
            && es[|es| - 1] == MessageStop
    ensures HasTool(Final(BlocksOf(ResponsesActions(true, AfterCreated(events))))) <==> CallsItem(events)
  {
    hide Run, ResponsesActions, BodyOf, CallsItem, Message, HasTool, Finishes, FinishOf, Opens, CreatedThenCompleted, CompletesOnce;
    var acts := ResponsesActions(true, AfterCreated(events));
    ResponsesMessage(generated, events);
    EventsFinish(AfterCreated(events));
    FinishingBody(acts);
    ToolsOpened(Build([], 0), BodyOf(acts));
    NoToolYet();
    CalledAfterCreated(events);
    FinalKeepsTools(BlocksOf(acts));
    MessageEnds(if CreatedId(events) != "" then CreatedId(events) else generated, Final(BlocksOf(acts)), StopOf(acts));
  }

  // ---------------------------------------------------------------------------------------------
  // Thinking against text
  // ---------------------------------------------------------------------------------------------

  /** One delta that is not of a call. */
  datatype Voice = Voice(kind: Kind, payload: string)

  function VoicesOf(kind: Kind, parts: seq<string>): (r: seq<Voice>)
    ensures |r| == |parts| && forall i :: 0 <= i < |parts| ==> r[i] == Voice(kind, parts[i])
  {
    seq(|parts|, i requires 0 <= i < |parts| => Voice(kind, parts[i]))
  }

  /** The deltas of text and thinking in the order the client gets them. */
  function Voices(blocks: seq<Block>): seq<Voice> {
    if blocks == [] then []
    else Voices(blocks[..|blocks| - 1]) + if IsTool(Last(blocks)) then [] else VoicesOf(KindOf(Last(blocks).head), Last(blocks).parts)
  }

  /** In each chunk the reasoning comes first, then the content. */
  function ChunkVoices(chunks: seq<Chunk>): seq<Voice> {
    if chunks == [] then []
    else
      var c := chunks[0];
      (if c.choice.Some? && c.choice.value.reasoning != "" then [Voice(Thinking, c.choice.value.reasoning)] else []) +
      (if c.choice.Some? && c.choice.value.content != "" then [Voice(Text, c.choice.value.content)] else []) +
      ChunkVoices(chunks[1..])
  }

  function EventVoices(events: seq<Upstream>): seq<Voice> {
    if events == [] then []
    else
      var e := events[0];
      (if e.ReasoningDelta? && e.payload != "" then [Voice(Thinking, e.payload)]
       else if e.OutputText? then [Voice(Text, e.payload)] else []) +
      EventVoices(events[1..])
  }

  function ActionVoices(acts: seq<Action>): seq<Voice> {
    if acts == [] then []
    else (if acts[0].Delta? then [Voice(acts[0].kind, acts[0].payload)] else []) + ActionVoices(acts[1..])
  }

  lemma {:induction false} VoicesSnoc(blocks: seq<Block>, b: Block)
    ensures Voices(blocks + [b]) == Voices(blocks) + if IsTool(b) then [] else VoicesOf(KindOf(b.head), b.parts)
  {
    assert (blocks + [b])[..|blocks|] == blocks;
  }

  lemma {:induction false} VoicesPart(blocks: seq<Block>, part: string)
    requires blocks != []
    ensures Voices(AddPart(blocks, part)) ==
            Voices(blocks) + if IsTool(Last(blocks)) then [] else [Voice(KindOf(Last(blocks).head), part)]
  {
    var front, b := blocks[..|blocks| - 1], Last(blocks);
    var more := b.(parts := b.parts + [part]);
    assert blocks == front + [b];
    VoicesSnoc(front, b);
    VoicesSnoc(front, more);
    assert VoicesOf(KindOf(b.head), more.parts) == VoicesOf(KindOf(b.head), b.parts) + [Voice(KindOf(b.head), part)];
  }

  lemma {:induction false} OneVoice(b: Build, a: Action)
    requires IsBody(a)
    ensures Voices(Add(b, a).blocks) == Voices(b.blocks) + if a.Delta? then [Voice(a.kind, a.payload)] else []
  {
    hide Voices;
    match a
    case Delta(kind, payload) =>
      if b.blocks != [] && KindOf(Last(b.blocks).head) == kind {
        VoicesPart(b.blocks, payload);
      } else {
        VoicesSnoc(b.blocks, Block(HeadFor(kind), [payload]));
        assert VoicesOf(kind, [payload]) == [Voice(kind, payload)];
      }
    case ToolPart(id, name, args) =>
      if id != "" || name != "" {
        VoicesSnoc(b.blocks, Last(Add(b, a).blocks));
      } else if args != "" && b.blocks != [] && IsTool(Last(b.blocks)) {
        VoicesPart(b.blocks, args);
      }
    case OpenCall(id, name) =>
      VoicesSnoc(b.blocks, Block(ToolHead(id, name), []));
    case _ =>
  }

  lemma {:induction false} AllVoices(b: Build, acts: seq<Action>)
    requires AllBody(acts)
    ensures Voices(AddAll(b, acts).blocks) == Voices(b.blocks) + ActionVoices(acts)
    decreases |acts|
  {
    hide Voices, Add;
    if acts != [] {
      var a := acts[0];
      assert IsBody(a);
      OneVoice(b, a);
      AllVoices(Add(b, a), acts[1..]);
      ConcatAssoc(Voices(b.blocks), if a.Delta? then [Voice(a.kind, a.payload)] else [], ActionVoices(acts[1..]));
    }
  }

  lemma {:induction false} ActionVoicesAppend(a: seq<Action>, b: seq<Action>)
    ensures ActionVoices(a + b) == ActionVoices(a) + ActionVoices(b)
    decreases |a|
  {
    if a == [] {
      assert a + b == b;
    } else {
      assert (a + b)[0] == a[0] && (a + b)[1..] == a[1..] + b;
      ActionVoicesAppend(a[1..], b);
    }
  }

  lemma {:induction false} NoDeltaNoVoice(acts: seq<Action>)
    requires forall i :: 0 <= i < |acts| ==> !acts[i].Delta?
    ensures ActionVoices(acts) == []
    decreases |acts|
  {
    if acts != [] {
      NoDeltaNoVoice(acts[1..]);
    }
  }

  lemma {:induction false} ChoiceVoices(c: Choice)
    ensures ActionVoices(BodyPart(c)) ==
            (if c.reasoning != "" then [Voice(Thinking, c.reasoning)] else []) + (if c.content != "" then [Voice(Text, c.content)] else [])
  {
    hide ToolActions;
    ActionVoicesAppend(ThinkPart(c) + TextPart(c), ToolActions(c.tools));
    ActionVoicesAppend(ThinkPart(c), TextPart(c));
    NoDeltaNoVoice(ToolActions(c.tools));
    assert ThinkPart(c) != [] ==> ThinkPart(c)[1..] == [];
    assert TextPart(c) != [] ==> TextPart(c)[1..] == [];
  }

  lemma {:induction false} SilentHasNoVoice(chunks: seq<Chunk>)
    requires AllSilent(chunks)
    ensures ChunkVoices(chunks) == []
    decreases |chunks|
  {
    if chunks != [] {
      assert Silent(chunks[0]);
      SilentHasNoVoice(chunks[1..]);
    }
  }

  lemma {:induction false} BodyVoices(chunks: seq<Chunk>)
    requires EndsOnce(chunks)
    ensures ActionVoices(BodyOf(ChatActions(true, chunks))) == ChunkVoices(chunks)
    decreases |chunks|
  {
    hide ChunkActions, BodyPart, ActionVoices, BodyOf, AllSilent;
    var c, rest := chunks[0], ChatActions(true, chunks[1..]);
    BodyOfChunk(c, rest);
    if c.choice.Some? {
      ChoiceVoices(c.choice.value);
      ActionVoicesAppend(BodyPart(c.choice.value), BodyOf(rest));
    }
    if Terminal(c) {
      SilentHasNoVoice(chunks[1..]);
    } else {
      BodyVoices(chunks[1..]);
    }
  }

  lemma {:induction false} FinalKeepsVoices(blocks: seq<Block>)
    ensures Voices(Final(blocks)) == Voices(blocks)
  {
    if blocks == [] {
      assert [] + [Block(TextHead, [])] == [Block(TextHead, [])];
      VoicesSnoc([], Block(TextHead, []));
    }
  }

  /** The text and thinking deltas of a message are those of the chunks, one for one and in order; a message that says and calls nothing is one empty text block. */
  lemma {:induction false} ChatIsToldInOrder(chunks: seq<Chunk>)
    requires EndsOnce(chunks)
    ensures var blocks := Final(BlocksOf(ChatActions(true, chunks)));
            && Voices(blocks) == ChunkVoices(chunks)
            && (ChunkVoices(chunks) == [] && !Calls(chunks) ==> blocks == [Block(TextHead, [])])
  {
    hide Voices, ChunkVoices, ActionVoices, BodyOf, ChatActions, EndsOnce, Finishes, Opens, Calls;
    var acts := ChatActions(true, chunks);
    FinishingChunks(chunks);
    FinishingBody(acts);
    AllVoices(Build([], 0), BodyOf(acts));
    NoVoices();
    BodyVoices(chunks);
    BodyOpens(chunks);
    FinalKeepsVoices(BlocksOf(acts));
    SilentBuildsNothing(Build([], 0), BodyOf(acts));
  }

  lemma {:induction false} NoVoices()
    ensures Voices([]) == []
  {
  }

  /** Actions that neither say nor open anything build no block. */
  lemma {:induction false} SilentBuildsNothing(b: Build, acts: seq<Action>)
    requires AllBody(acts) && b.blocks == []
    ensures ActionVoices(acts) == [] && !Opens(acts) ==> AddAll(b, acts).blocks == []
    decreases |acts|
  {
    hide Opens;
    if acts != [] {
      assert IsBody(acts[0]);
      assert acts == [acts[0]] + acts[1..];
      OpensSplit([acts[0]], acts[1..]);
      OpensOne(acts[0]);
      if !acts[0].Delta? && IsFragment(acts[0]) {
        SilentBuildsNothing(Add(b, acts[0]), acts[1..]);
      }
    }
  }

  lemma {:induction false} OpensOne(a: Action)
    ensures Opens([a]) <==> (a.ToolPart? && !IsFragment(a)) || a.OpenCall?
  {
    assert [a][0] == a;
  }

  lemma {:induction false} EventHasVoice(e: Upstream)
    ensures ActionVoices(EventActions(true, e)) ==
            (if e.ReasoningDelta? && e.payload != "" then [Voice(Thinking, e.payload)]
             else if e.OutputText? then [Voice(Text, e.payload)] else [])
    ensures Quiet(e) || e.Created? ==> ActionVoices(EventActions(true, e)) == []
  {
    var acts := EventActions(true, e);
    assert acts != [] ==> acts[1..] == [];
  }

  lemma {:induction false} QuietHasNoVoice(events: seq<Upstream>)
    requires forall i :: 0 <= i < |events| ==> Quiet(events[i]) || events[i].Created?
    ensures EventVoices(events) == []
    decreases |events|
  {
    hide EventActions, ActionVoices;
    if events != [] {
      EventHasVoice(events[0]);
      QuietHasNoVoice(events[1..]);
    }
  }

  lemma {:induction false} BodyOfEventsVoices(events: seq<Upstream>)
    requires CompletesOnce(events)
    ensures ActionVoices(BodyOf(ResponsesActions(true, events))) == EventVoices(events)
    decreases |events|
  {
    hide EventActions, ActionVoices, BodyOf, Quiet;
    var e, rest := events[0], ResponsesActions(true, events[1..]);
    BodyOfEvent(e, rest);
    EventHasVoice(e);
    if e.Completed? {
      assert forall i :: 0 <= i < |events| - 1 ==> events[1..][i] == events[i + 1];
      QuietHasNoVoice(events[1..]);
      NothingVoiced();
    } else {
      ActionVoicesAppend(EventActions(true, e), BodyOf(rest));
      BodyOfEventsVoices(events[1..]);
    }
  }

  lemma {:induction false} NothingVoiced()
    ensures ActionVoices([]) == []
  {
  }

  /** Of a Responses stream too, in the order of its events. */
  lemma {:induction false} ResponsesAreToldInOrder(events: seq<Upstream>)
    requires CompletesOnce(events)
    ensures Voices(Final(BlocksOf(ResponsesActions(true, events)))) == EventVoices(events)
  {
    hide Voices, EventVoices, ActionVoices, BodyOf, ResponsesActions, CompletesOnce, Finishes;
    var acts := ResponsesActions(true, events);
    CompletingEvents(events);
    FinishingBody(acts);
    AllVoices(Build([], 0), BodyOf(acts));
    NoVoices();
    BodyOfEventsVoices(events);
    FinalKeepsVoices(BlocksOf(acts));
  }
}
