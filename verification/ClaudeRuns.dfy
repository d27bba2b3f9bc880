/**
 The theorems of ClaudeGrammar for the two upstream formats, and what the blocks of a message carry.
 */
module ClaudeRuns {
  import opened Chat
  import opened ClaudeStream
  import opened ClaudeGrammar
  import opened Decimal
  import opened Sequences

  // ---------------------------------------------------------------------------------------------
  // Which chat streams become messages
  // ---------------------------------------------------------------------------------------------

  predicate Terminal(c: Chunk) {
    c.choice.Some? && c.choice.value.finish.Some?
  }

  /** A chunk with nothing a client would see: a usage chunk, or one with at most argument fragments. */
  predicate Silent(c: Chunk) {
    c.choice.Some? ==>
      var ch := c.choice.value;
      ch.reasoning == "" && ch.content == "" && ch.finish.None? &&
      forall i :: 0 <= i < |ch.tools| ==> !OpensCall(ch.tools[i])
  }

  predicate AllSilent(chunks: seq<Chunk>) {
    forall i :: 0 <= i < |chunks| ==> Silent(chunks[i])
  }

  /** Exactly one terminal chunk, and only silent ones after it. */
  predicate EndsOnce(chunks: seq<Chunk>) {
    chunks != [] && if Terminal(chunks[0]) then AllSilent(chunks[1..]) else EndsOnce(chunks[1..])
  }

  function BodyPart(c: Choice): seq<Action> {
    ThinkPart(c) + TextPart(c) + ToolActions(c.tools)
  }

  lemma {:induction false} BodyPartIsBody(c: Choice)
    ensures AllBody(BodyPart(c))
    ensures AllFragments(BodyPart(c)) <==>
            c.reasoning == "" && c.content == "" && forall i :: 0 <= i < |c.tools| ==> !OpensCall(c.tools[i])
  {
    hide ToolActions;
    var said, tools := ThinkPart(c) + TextPart(c), ToolActions(c.tools);
    ToolsAreBody(c.tools);
    AllFragmentsSplit(said, tools);
    assert c.reasoning != "" ==> said[0] == Delta(Thinking, c.reasoning);
    assert c.content != "" ==> said[|said| - 1] == Delta(Text, c.content);
    assert BodyPart(c) == said + tools;
  }

  lemma {:induction false} ToolsAreBody(tools: seq<ToolDelta>)
    ensures AllBody(ToolActions(tools))
    ensures AllFragments(ToolActions(tools)) <==> forall i :: 0 <= i < |tools| ==> !OpensCall(tools[i])
  {
    var acts := ToolActions(tools);
    assert forall i :: 0 <= i < |tools| ==> (IsFragment(acts[i]) <==> !OpensCall(tools[i]));
  }

  lemma {:induction false} FinishesAfterBody(body: seq<Action>, tail: seq<Action>)
    requires AllBody(body)
    ensures Finishes(body + tail) <==> Finishes(tail)
    decreases |body|
  {
    if body == [] {
      assert body + tail == tail;
    } else {
      assert IsBody(body[0]);
      assert (body + tail)[1..] == body[1..] + tail;
      FinishesAfterBody(body[1..], tail);
    }
  }

  lemma {:induction false} FinishesAfterChunk(c: Chunk, tail: seq<Action>)
    ensures Finishes(ChunkActions(true, c) + tail) <==> if Terminal(c) then AllFragments(tail) else Finishes(tail)
  {
    if c.choice.Some? {
      var ch := c.choice.value;
      BodyPartIsBody(ch);
      ChunkIsBodyThenFinish(c);
      hide ChunkActions, BodyPart, AllBody, AllFragments;
      ConcatAssoc(BodyPart(ch), FinishPart(ch), tail);
      FinishesAfterBody(BodyPart(ch), FinishPart(ch) + tail);
      assert ch.finish.Some? ==> (FinishPart(ch) + tail)[1..] == tail;
      assert ch.finish.None? ==> FinishPart(ch) + tail == tail;
    } else {
      assert ChunkActions(true, c) + tail == tail;
    }
  }

  lemma {:induction false} ChunkIsBodyThenFinish(c: Chunk)
    requires c.choice.Some?
    ensures ChunkActions(true, c) == BodyPart(c.choice.value) + FinishPart(c.choice.value)
  {
  }

  lemma {:induction false} AllFragmentsSplit(a: seq<Action>, b: seq<Action>)
    ensures AllFragments(a + b) <==> AllFragments(a) && AllFragments(b)
  {
    if AllFragments(a + b) {
      assert forall i :: 0 <= i < |a| ==> a[i] == (a + b)[i];
      assert forall i :: 0 <= i < |b| ==> b[i] == (a + b)[|a| + i];
    }
  }

  lemma {:induction false} SilentActions(c: Chunk)
    ensures AllFragments(ChunkActions(true, c)) <==> Silent(c)
  {
    if c.choice.Some? {
      var ch := c.choice.value;
      BodyPartIsBody(ch);
      assert ChunkActions(true, c) == BodyPart(ch) + FinishPart(ch);
      AllFragmentsSplit(BodyPart(ch), FinishPart(ch));
      assert ch.finish.Some? ==> !IsFragment(FinishPart(ch)[0]);
    }
  }

  lemma {:induction false} AllSilentActions(chunks: seq<Chunk>)
    ensures AllFragments(ChatActions(true, chunks)) <==> AllSilent(chunks)
    decreases |chunks|
  {
    if chunks != [] {
      AllFragmentsSplit(ChunkActions(true, chunks[0]), ChatActions(true, chunks[1..]));
      SilentActions(chunks[0]);
      AllSilentActions(chunks[1..]);
      assert AllSilent(chunks) <==> Silent(chunks[0]) && AllSilent(chunks[1..]) by {
        assert forall i :: 0 <= i < |chunks| - 1 ==> chunks[1..][i] == chunks[i + 1];
        assert AllSilent(chunks[1..]) ==> forall i :: 0 < i < |chunks| ==> chunks[i] == chunks[1..][i - 1];
      }
    }
  }

  lemma {:induction false} FinishingChunks(chunks: seq<Chunk>)
    ensures Finishes(ChatActions(true, chunks)) <==> EndsOnce(chunks)
    decreases |chunks|
  {
    if chunks != [] {
      FinishesAfterChunk(chunks[0], ChatActions(true, chunks[1..]));
      if Terminal(chunks[0]) {
        AllSilentActions(chunks[1..]);
      } else {
        FinishingChunks(chunks[1..]);
      }
    }
  }

  lemma {:induction false} ChatSpeaks(started: bool, chunks: seq<Chunk>)
    ensures forall i :: 0 <= i < |ChatActions(started, chunks)| ==> Speaks(ChatActions(started, chunks)[i])
    decreases |chunks|
  {
    if chunks != [] {
      ChatSpeaks(true, chunks[1..]);
    }
  }

  lemma {:induction false} StartedFirst(chunks: seq<Chunk>)
    requires chunks != []
    ensures ChatActions(false, chunks) == [Start(chunks[0].id)] + ChatActions(true, chunks)
  {
    hide ChoiceActions;
    var c := chunks[0];
    assert ChunkActions(false, c) == [Start(c.id)] + ChunkActions(true, c);
    ConcatAssoc([Start(c.id)], ChunkActions(true, c), ChatActions(true, chunks[1..]));
  }

  /** A chat stream becomes one complete Claude message exactly when it ends once. */
  lemma {:induction false} ChatStreamIsMessage(generated: string, chunks: seq<Chunk>)
    ensures Transcript(Run(EmptyState(generated), ChatActions(false, chunks)).1) <==> EndsOnce(chunks)
  {
    var acts := ChatActions(false, chunks);
    ChatSpeaks(false, chunks);
    TranscriptIffDisciplined(generated, acts);
    if chunks != [] {
      StartedFirst(chunks);
      assert acts[1..] == ChatActions(true, chunks);
      FinishingChunks(chunks);
    }
  }

  /** The message of a chat stream that ends once: its blocks are those its actions build. */
  lemma {:induction false} ChatMessage(generated: string, chunks: seq<Chunk>)
    requires EndsOnce(chunks)
    ensures var acts := ChatActions(true, chunks);
            var id := if chunks[0].id != "" then chunks[0].id else generated;
            Finishes(acts) &&
            Run(EmptyState(generated), ChatActions(false, chunks)).1 == Message(id, Final(BlocksOf(acts)), StopOf(acts))
  {
    StartedFirst(chunks);
    FinishingChunks(chunks);
    assert ChatActions(false, chunks)[1..] == ChatActions(true, chunks);
    DisciplinedRun(generated, ChatActions(false, chunks));
  }

  // ---------------------------------------------------------------------------------------------
  // Which Responses streams become messages
  // ---------------------------------------------------------------------------------------------

  /** Events that say nothing outside a message. */
  predicate Quiet(e: Upstream) {
    e.Other? || e.ArgumentsDelta? || (e.ReasoningDelta? && e.payload == "") || (e.ItemAdded? && !e.isCall)
  }

  /** response.created before anything that speaks, then one completion, then nothing that speaks. */
  predicate CreatedThenCompleted(events: seq<Upstream>) {
    events != [] && if events[0].Created? then CompletesOnce(events[1..]) else Quiet(events[0]) && CreatedThenCompleted(events[1..])
  }

  predicate CompletesOnce(events: seq<Upstream>) {
    events != [] &&
    if events[0].Completed? then forall i :: 0 < i < |events| ==> Quiet(events[i]) || events[i].Created?
    else CompletesOnce(events[1..])
  }

  lemma {:induction false} EventCases(e: Upstream)
    ensures AllFragments(EventActions(true, e)) <==> Quiet(e) || e.Created?
    ensures !e.Created? ==> EventActions(false, e) == EventActions(true, e)
    ensures !e.Completed? ==> AllBody(EventActions(true, e))
  {
    var acts := EventActions(true, e);
    if AllFragments(acts) && acts != [] {
      assert IsFragment(acts[0]);
    }
  }

  lemma {:induction false} QuietEvents(events: seq<Upstream>)
    ensures AllFragments(ResponsesActions(true, events)) <==> forall i :: 0 <= i < |events| ==> Quiet(events[i]) || events[i].Created?
    decreases |events|
  {
    if events != [] {
      EventCases(events[0]);
      AllFragmentsSplit(EventActions(true, events[0]), ResponsesActions(true, events[1..]));
      QuietEvents(events[1..]);
      assert forall i :: 0 < i < |events| ==> events[i] == events[1..][i - 1];
      assert forall i :: 0 <= i < |events| - 1 ==> events[1..][i] == events[i + 1];
    }
  }

  lemma {:induction false} CompletingEvents(events: seq<Upstream>)
    ensures Finishes(ResponsesActions(true, events)) <==> CompletesOnce(events)
    decreases |events|
  {
    if events != [] {
      var e, rest := events[0], ResponsesActions(true, events[1..]);
      EventCases(e);
      if e.Completed? {
        assert (EventActions(true, e) + rest)[1..] == rest;
        QuietEvents(events[1..]);
        assert forall i :: 0 < i < |events| ==> events[i] == events[1..][i - 1];
        assert forall i :: 0 <= i < |events| - 1 ==> events[1..][i] == events[i + 1];
      } else {
        FinishesAfterBody(EventActions(true, e), rest);
        CompletingEvents(events[1..]);
      }
    }
  }

  lemma {:induction false} ResponsesSpeak(started: bool, events: seq<Upstream>)
    ensures forall i :: 0 <= i < |ResponsesActions(started, events)| ==> Speaks(ResponsesActions(started, events)[i])
    decreases |events|
  {
    if events != [] {
      ResponsesSpeak(started || events[0].Created?, events[1..]);
    }
  }

  lemma {:induction false} CreatedDiscipline(events: seq<Upstream>)
    ensures Disciplined(ResponsesActions(false, events)) <==> CreatedThenCompleted(events)
    decreases |events|
  {
    if events != [] {
      var e := events[0];
      EventCases(e);
      if e.Created? {
        assert ResponsesActions(false, events)[1..] == ResponsesActions(true, events[1..]);
        CompletingEvents(events[1..]);
      } else {
        var rest := ResponsesActions(false, events[1..]);
        CreatedDiscipline(events[1..]);
        if Quiet(e) {
          assert e.ArgumentsDelta? ==> (EventActions(false, e) + rest)[1..] == rest;
          assert !e.ArgumentsDelta? ==> EventActions(false, e) + rest == rest;
        } else {
          assert !IsFragment(EventActions(false, e)[0]) && !EventActions(false, e)[0].Start?;
        }
      }
    }
  }

  /** A Responses stream becomes one complete Claude message exactly when it is created first and completed once. */
  lemma {:induction false} ResponsesStreamIsMessage(generated: string, events: seq<Upstream>)
    ensures Transcript(Run(EmptyState(generated), ResponsesActions(false, events)).1) <==> CreatedThenCompleted(events)
  {
    ResponsesSpeak(false, events);
    TranscriptIffDisciplined(generated, ResponsesActions(false, events));
    CreatedDiscipline(events);
  }

  // ---------------------------------------------------------------------------------------------
  // How a drained stream is recorded
  // ---------------------------------------------------------------------------------------------

  /** Some action finishes without an error; some carries an error. */
  predicate Succeeds(acts: seq<Action>) {
    exists i :: 0 <= i < |acts| && acts[i].Finish? && acts[i].reason != "error"
  }

  predicate Errs(acts: seq<Action>) {
    exists i :: 0 <= i < |acts| && acts[i].Finish? && acts[i].choice.finish == Some("error")
  }

  /** Blocks have nothing to do with how the stream ends. */
  lemma {:induction false} BlocksKeepEnd(s: State, kind: Kind, id: string, name: string)
    ensures OpenBlock(s, kind).0.finished == s.finished && OpenBlock(s, kind).0.error == s.error
    ensures OpenTool(s, id, name).0.finished == s.finished && OpenTool(s, id, name).0.error == s.error
    ensures FinishBlocks(s).0.finished == s.finished && FinishBlocks(s).0.error == s.error
  {
  }

  lemma {:induction false} CapturedError(s: State, c: Choice)
    ensures CaptureError(s, c).finished == s.finished
    ensures CaptureError(s, c).error == "" <==> s.error == "" && c.finish != Some("error")
  {
  }

  lemma {:induction false} ActEnds(s: State, a: Action)
    ensures Act(s, a).0.finished == (s.finished || (a.Finish? && a.reason != "error"))
    ensures Act(s, a).0.error == "" <==> s.error == "" && !(a.Finish? && a.choice.finish == Some("error"))
  {
    hide OpenBlock, OpenTool, FinishBlocks, CaptureError, CallId, ArgsDelta, StopReason;
    match a
    case Start(_) =>
    case Delta(kind, _) => BlocksKeepEnd(s, kind, "", "");
    case ToolPart(id, name, _) => BlocksKeepEnd(s, Tool, CallId(s, id), name);
    case OpenCall(id, name) => BlocksKeepEnd(s, Tool, id, name);
    case Finish(_, choice) =>
      CapturedError(s, choice);
      BlocksKeepEnd(CaptureError(s, choice), Tool, "", "");
  }

  lemma {:induction false} RunEnds(s: State, acts: seq<Action>)
    ensures Run(s, acts).0.finished == (s.finished || Succeeds(acts))
    ensures Run(s, acts).0.error == "" <==> s.error == "" && !Errs(acts)
    decreases |acts|
  {
    hide Act;
    if acts != [] {
      ActEnds(s, acts[0]);
      RunEnds(Act(s, acts[0]).0, acts[1..]);
      assert Succeeds(acts) <==> (acts[0].Finish? && acts[0].reason != "error") || Succeeds(acts[1..]) by {
        assert forall i :: 0 <= i < |acts| - 1 ==> acts[1..][i] == acts[i + 1];
        assert forall i :: 0 < i < |acts| ==> acts[i] == acts[1..][i - 1];
      }
      assert Errs(acts) <==> (acts[0].Finish? && acts[0].choice.finish == Some("error")) || Errs(acts[1..]) by {
        assert forall i :: 0 <= i < |acts| - 1 ==> acts[1..][i] == acts[i + 1];
        assert forall i :: 0 < i < |acts| ==> acts[i] == acts[1..][i - 1];
      }
    }
  }

  lemma {:induction false} EndsSplit(a: seq<Action>, b: seq<Action>)
    ensures Succeeds(a + b) <==> Succeeds(a) || Succeeds(b)
    ensures Errs(a + b) <==> Errs(a) || Errs(b)
  {
    assert forall i :: 0 <= i < |a| ==> (a + b)[i] == a[i];
    assert forall i :: 0 <= i < |b| ==> (a + b)[|a| + i] == b[i];
    assert forall i :: |a| <= i < |a + b| ==> (a + b)[i] == b[i - |a|];
  }

  /** A terminal chunk with another reason than error; one with error. */
  predicate Good(c: Chunk) {
    Terminal(c) && c.choice.value.finish.value != "error"
  }

  predicate Bad(c: Chunk) {
    Terminal(c) && c.choice.value.finish.value == "error"
  }

  lemma {:induction false} ChunkEnds(started: bool, c: Chunk)
    ensures Succeeds(ChunkActions(started, c)) <==> Good(c)
    ensures Errs(ChunkActions(started, c)) <==> Bad(c)
  {
    if c.choice.Some? {
      var ch := c.choice.value;
      var before, acts := StartPart(started, c) + BodyPart(ch), ChunkActions(started, c);
      BodyPartIsBody(ch);
      assert acts == before + FinishPart(ch);
      EndsSplit(before, FinishPart(ch));
      EndsSplit(StartPart(started, c), BodyPart(ch));
      assert forall i :: 0 <= i < |BodyPart(ch)| ==> IsBody(BodyPart(ch)[i]);
      if ch.finish.Some? {
        assert FinishPart(ch)[0] == Finish(ch.finish.value, ch);
      }
    }
  }

  lemma {:induction false} ChunksEnd(started: bool, chunks: seq<Chunk>)
    ensures Succeeds(ChatActions(started, chunks)) <==> exists i :: 0 <= i < |chunks| && Good(chunks[i])
    ensures Errs(ChatActions(started, chunks)) <==> exists i :: 0 <= i < |chunks| && Bad(chunks[i])
    decreases |chunks|
  {
    hide ChunkActions, Succeeds, Errs, Good, Bad;
    if chunks == [] {
      NoneEnds();
    } else {
      ChunkEnds(started, chunks[0]);
      EndsSplit(ChunkActions(started, chunks[0]), ChatActions(true, chunks[1..]));
      ChunksEnd(true, chunks[1..]);
      assert forall i :: 0 <= i < |chunks| - 1 ==> chunks[1..][i] == chunks[i + 1];
      assert forall i :: 0 < i < |chunks| ==> chunks[i] == chunks[1..][i - 1];
    }
  }

  lemma {:induction false} NoneEnds()
    ensures !Succeeds([]) && !Errs([])
  {
  }

  /** A drained chat stream is recorded as ok exactly when some chunk ends it and none ends it in error. */
  lemma {:induction false} ChatEndsWell(generated: string, chunks: seq<Chunk>)
    ensures EndsWell(Run(EmptyState(generated), ChatActions(false, chunks)).0) <==>
            (exists i :: 0 <= i < |chunks| && Good(chunks[i])) && !(exists i :: 0 <= i < |chunks| && Bad(chunks[i]))
  {
    RunEnds(EmptyState(generated), ChatActions(false, chunks));
    ChunksEnd(false, chunks);
    hide Succeeds, Errs, Good, Bad;
  }

  lemma {:induction false} EventEnds(started: bool, e: Upstream)
    ensures Succeeds(EventActions(started, e)) <==> e.Completed?
    ensures !Errs(EventActions(started, e))
  {
    if e.Completed? {
      assert EventActions(started, e)[0] == Finish("", NO_CHOICE);
    }
  }

  lemma {:induction false} EventsEnd(started: bool, events: seq<Upstream>)
    ensures Succeeds(ResponsesActions(started, events)) <==> exists i :: 0 <= i < |events| && events[i].Completed?
    ensures !Errs(ResponsesActions(started, events))
    decreases |events|
  {
    hide EventActions, Succeeds, Errs;
    if events == [] {
      NoneEnds();
    } else {
      EventEnds(started, events[0]);
      EndsSplit(EventActions(started, events[0]), ResponsesActions(started || events[0].Created?, events[1..]));
      EventsEnd(started || events[0].Created?, events[1..]);
      assert forall i :: 0 <= i < |events| - 1 ==> events[1..][i] == events[i + 1];
      assert forall i :: 0 < i < |events| ==> events[i] == events[1..][i - 1];
    }
  }

  /** A drained Responses stream is recorded as ok exactly when it was completed. */
  lemma {:induction false} ResponsesEndsWell(generated: string, events: seq<Upstream>)
    ensures EndsWell(Run(EmptyState(generated), ResponsesActions(false, events)).0) <==>
            exists i :: 0 <= i < |events| && events[i].Completed?
  {
    RunEnds(EmptyState(generated), ResponsesActions(false, events));
    EventsEnd(false, events);
    hide Succeeds, Errs;
  }

  // ---------------------------------------------------------------------------------------------
  // What the blocks carry
  // ---------------------------------------------------------------------------------------------

  /** Everything said in blocks of one kind. */
  function Said(blocks: seq<Block>, kind: Kind): string {
    if blocks == [] then []
    else Said(blocks[..|blocks| - 1], kind) + if KindOf(Last(blocks).head) == kind then Flatten(Last(blocks).parts) else []
  }

  /** Everything the actions say of one kind. */
  function Spoken(acts: seq<Action>, kind: Kind): string {
    if acts == [] then []
    else (if acts[0].Delta? && acts[0].kind == kind then acts[0].payload else []) + Spoken(acts[1..], kind)
  }

  lemma {:induction false} SaidSnoc(blocks: seq<Block>, b: Block, kind: Kind)
    ensures Said(blocks + [b], kind) == Said(blocks, kind) + if KindOf(b.head) == kind then Flatten(b.parts) else []
  {
    assert (blocks + [b])[..|blocks|] == blocks;
  }

  lemma {:induction false} SaidPart(blocks: seq<Block>, part: string, kind: Kind)
    requires blocks != []
    ensures Said(AddPart(blocks, part), kind) == Said(blocks, kind) + if KindOf(Last(blocks).head) == kind then part else []
  {
    var front, b := blocks[..|blocks| - 1], Last(blocks);
    assert AddPart(blocks, part)[..|blocks| - 1] == front;
    FlattenAppend(b.parts, [part]);
    FlattenOne(part);
    ConcatAssoc(Said(front, kind), Flatten(b.parts), part);
  }

  /** Each body action adds to Said exactly what it says. */
  lemma {:induction false} AddSays(b: Build, a: Action, kind: Kind)
    requires IsBody(a) && (kind == Thinking || kind == Text)
    ensures Said(Add(b, a).blocks, kind) == Said(b.blocks, kind) + if a.Delta? && a.kind == kind then a.payload else []
  {
    hide Said;
    match a
    case Delta(k, payload) =>
      if b.blocks != [] && KindOf(Last(b.blocks).head) == k {
        SaidPart(b.blocks, payload, kind);
      } else {
        SaidSnoc(b.blocks, Block(HeadFor(k), [payload]), kind);
        FlattenOne(payload);
      }
    case ToolPart(id, name, args) =>
      if id != "" || name != "" {
        SaidSnoc(b.blocks, Last(Add(b, a).blocks), kind);
      } else if args != "" && b.blocks != [] && IsTool(Last(b.blocks)) {
        SaidPart(b.blocks, args, kind);
      }
    case OpenCall(id, name) =>
      SaidSnoc(b.blocks, Last(Add(b, a).blocks), kind);
    case _ =>
  }

  /** No text and no thinking is lost or reordered: the blocks of a kind say what the actions of that kind say. */
  lemma {:induction false} NothingSaidIsLost(b: Build, acts: seq<Action>, kind: Kind)
    requires AllBody(acts) && (kind == Thinking || kind == Text)
    ensures Said(AddAll(b, acts).blocks, kind) == Said(b.blocks, kind) + Spoken(acts, kind)
    decreases |acts|
  {
    hide Said, Add;
    if acts != [] {
      var said := if acts[0].Delta? && acts[0].kind == kind then acts[0].payload else [];
      AddSays(b, acts[0], kind);
      NothingSaidIsLost(Add(b, acts[0]), acts[1..], kind);
      ConcatAssoc(Said(b.blocks, kind), said, Spoken(acts[1..], kind));
    }
  }

  /** Everything a chat stream says of one kind, up to and including its terminal chunk. */
  function Upstreamed(chunks: seq<Chunk>, kind: Kind): string {
    if chunks == [] then []
    else
      var c := chunks[0];
      (if c.choice.None? then [] else if kind == Text then c.choice.value.content else c.choice.value.reasoning) +
      Upstreamed(chunks[1..], kind)
  }

  lemma {:induction false} SpokenAppend(a: seq<Action>, b: seq<Action>, kind: Kind)
    ensures Spoken(a + b, kind) == Spoken(a, kind) + Spoken(b, kind)
    decreases |a|
  {
    if a == [] {
      assert a + b == b;
    } else {
      assert (a + b)[1..] == a[1..] + b;
      SpokenAppend(a[1..], b, kind);
    }
  }

  lemma {:induction false} ToolsSpeakNothing(acts: seq<Action>, kind: Kind)
    requires forall i :: 0 <= i < |acts| ==> !acts[i].Delta?
    ensures Spoken(acts, kind) == []
    decreases |acts|
  {
    if acts != [] {
      ToolsSpeakNothing(acts[1..], kind);
    }
  }

  lemma {:induction false} ChoiceSpeaks(c: Choice, kind: Kind)
    requires kind == Text || kind == Thinking
    ensures Spoken(BodyPart(c), kind) == if kind == Text then c.content else c.reasoning
  {
    SpokenAppend(ThinkPart(c) + TextPart(c), ToolActions(c.tools), kind);
    SpokenAppend(ThinkPart(c), TextPart(c), kind);
    ToolsSpeakNothing(ToolActions(c.tools), kind);
    if c.reasoning != "" {
      assert ThinkPart(c)[1..] == [];
    }
    if c.content != "" {
      assert TextPart(c)[1..] == [];
    }
  }

  lemma {:induction false} BodyOfAppend(body: seq<Action>, tail: seq<Action>)
    requires AllBody(body)
    ensures BodyOf(body + tail) == body + BodyOf(tail)
    decreases |body|
  {
    if body == [] {
      assert body + tail == tail;
    } else {
      assert IsBody(body[0]);
      assert (body + tail)[1..] == body[1..] + tail;
      BodyOfAppend(body[1..], tail);
    }
  }

  lemma {:induction false} FinishingBody(acts: seq<Action>)
    requires Finishes(acts)
    ensures AllBody(BodyOf(acts))
    decreases |acts|
  {
    if !acts[0].Finish? {
      FinishingBody(acts[1..]);
    }
  }

  lemma {:induction false} SilentSaysNothing(chunks: seq<Chunk>, kind: Kind)
    requires AllSilent(chunks)
    ensures Upstreamed(chunks, kind) == []
    decreases |chunks|
  {
    if chunks != [] {
      assert Silent(chunks[0]);
      SilentSaysNothing(chunks[1..], kind);
    }
  }

  lemma {:induction false} BodySpeaksUpstream(chunks: seq<Chunk>, kind: Kind)
    requires EndsOnce(chunks) && (kind == Text || kind == Thinking)
    ensures Spoken(BodyOf(ChatActions(true, chunks)), kind) == Upstreamed(chunks, kind)
    decreases |chunks|
  {
    hide ChunkActions, BodyPart, Spoken, BodyOf, Silent;
    var c, rest := chunks[0], ChatActions(true, chunks[1..]);
    BodyOfChunk(c, rest);
    if c.choice.Some? {
      ChoiceSpeaks(c.choice.value, kind);
      SpokenAppend(BodyPart(c.choice.value), BodyOf(rest), kind);
    }
    if Terminal(c) {
      SilentSaysNothing(chunks[1..], kind);
    } else {
      BodySpeaksUpstream(chunks[1..], kind);
    }
  }

  lemma {:induction false} BodyOfChunk(c: Chunk, rest: seq<Action>)
    ensures BodyOf(ChunkActions(true, c) + rest) ==
            if c.choice.None? then BodyOf(rest)
            else if Terminal(c) then BodyPart(c.choice.value)
            else BodyPart(c.choice.value) + BodyOf(rest)
  {
    if c.choice.None? {
      assert ChunkActions(true, c) + rest == rest;
    } else {
      var ch := c.choice.value;
      var tail := FinishPart(ch) + rest;
      BodyPartIsBody(ch);
      assert ChunkActions(true, c) == BodyPart(ch) + FinishPart(ch);
      ConcatAssoc(BodyPart(ch), FinishPart(ch), rest);
      BodyOfAppend(BodyPart(ch), tail);
      if ch.finish.None? {
        assert tail == rest;
      } else {
        assert BodyOf(tail) == [];
      }
    }
  }

  /** In the message of a chat stream, the text blocks hold the upstream content and the thinking blocks the upstream reasoning. */
  lemma {:induction false} MessageCarriesUpstream(chunks: seq<Chunk>, kind: Kind)
    requires EndsOnce(chunks) && (kind == Text || kind == Thinking)
    ensures Said(Final(BlocksOf(ChatActions(true, chunks))), kind) == Upstreamed(chunks, kind)
  {
    hide BodyOf, EndsOnce, Upstreamed, Finishes, ChatActions, Spoken;
    var acts := ChatActions(true, chunks);
    FinishingChunks(chunks);
    FinishingBody(acts);
    NothingSaidIsLost(Build([], 0), BodyOf(acts), kind);
    BodySpeaksUpstream(chunks, kind);
    var e := Block(TextHead, []);
    assert [] + [e] == [e];
    SaidSnoc([], e, kind);
  }

  // ---------------------------------------------------------------------------------------------
  // Tool calls
  // ---------------------------------------------------------------------------------------------

  /** The calls of a message: its tool blocks with their arguments joined. */
  function ToolCalls(blocks: seq<Block>): seq<Call> {
    if blocks == [] then []
    else
      var b := Last(blocks);
      ToolCalls(blocks[..|blocks| - 1]) + if IsTool(b) then [Call(b.head.id, b.head.name, Flatten(b.parts))] else []
  }

  /** The calls in order of arrival: a fragment is added to the last call opened, whatever was said in between. */
  function AddCall(calls: seq<Call>, named: nat, a: Action): seq<Call> {
    match a
    case ToolPart(id, name, args) =>
      if id != "" || name != "" then calls + [Call(if id == "" then "call_" + Itoa(named) else id, name, args)]
      else if calls == [] then calls
      else
        var last := calls[|calls| - 1];
        calls[..|calls| - 1] + [last.(args := last.args + args)]
    case OpenCall(id, name) => calls + [Call(id, name, [])]
    case _ => calls
  }

  function AddCalls(calls: seq<Call>, named: nat, acts: seq<Action>): seq<Call>
    decreases |acts|
  {
    if acts == [] then calls
    else
      var a := acts[0];
      AddCalls(AddCall(calls, named, a), if a.ToolPart? && !IsFragment(a) then named + 1 else named, acts[1..])
  }

  /** The fragment comes after a call, but another block has been opened since. */
  predicate Strays(b: Build, a: Action) {
    IsFragment(a) && a.args != "" && ToolCalls(b.blocks) != [] && !IsTool(Last(b.blocks))
  }

  predicate NoneStrays(b: Build, acts: seq<Action>)
    decreases |acts|
  {
    acts == [] || (!Strays(b, acts[0]) && NoneStrays(Add(b, acts[0]), acts[1..]))
  }

  lemma {:induction false} ToolCallsSnoc(blocks: seq<Block>, b: Block)
    ensures ToolCalls(blocks + [b]) ==
            ToolCalls(blocks) + if IsTool(b) then [Call(b.head.id, b.head.name, Flatten(b.parts))] else []
  {
    assert (blocks + [b])[..|blocks|] == blocks;
  }

  lemma {:induction false} ToolCallsPart(blocks: seq<Block>, part: string)
    requires blocks != []
    ensures !IsTool(Last(blocks)) ==> ToolCalls(AddPart(blocks, part)) == ToolCalls(blocks)
    ensures IsTool(Last(blocks)) ==>
              var calls := ToolCalls(blocks); var n := |calls| - 1;
              calls != [] && ToolCalls(AddPart(blocks, part)) == calls[..n] + [calls[n].(args := calls[n].args + part)]
  {
    var front, b := blocks[..|blocks| - 1], Last(blocks);
    assert AddPart(blocks, part)[..|blocks| - 1] == front;
    FlattenAppend(b.parts, [part]);
    FlattenOne(part);
  }

  lemma {:induction false} NoToolNoCalls(blocks: seq<Block>)
    ensures ToolCalls(blocks) == [] <==> !HasTool(blocks)
  {
    if blocks != [] {
      var front := blocks[..|blocks| - 1];
      assert blocks == front + [Last(blocks)];
      HasToolSnoc(front, Last(blocks));
      NoToolNoCalls(front);
    }
  }

  function ArgsSize(calls: seq<Call>): nat {
    if calls == [] then 0 else ArgsSize(calls[..|calls| - 1]) + |calls[|calls| - 1].args|
  }

  /** One action changes the blocks' calls as arrival does, unless it is a stray fragment, which goes nowhere. */
  lemma {:induction false} AddCallCases(b: Build, a: Action)
    requires IsBody(a)
    ensures ToolCalls(Add(b, a).blocks) ==
            if Strays(b, a) then ToolCalls(b.blocks) else AddCall(ToolCalls(b.blocks), b.named, a)
    ensures Add(b, a).named == if a.ToolPart? && !IsFragment(a) then b.named + 1 else b.named
  {
    hide ToolCalls;
    match a
    case Delta(kind, payload) =>
      if b.blocks != [] && KindOf(Last(b.blocks).head) == kind {
        ToolCallsPart(b.blocks, payload);
      } else {
        ToolCallsSnoc(b.blocks, Block(HeadFor(kind), [payload]));
      }
    case ToolPart(id, name, args) =>
      if id != "" || name != "" {
        ToolCallsSnoc(b.blocks, Last(Add(b, a).blocks));
        FlattenOne(args);
      } else if args != "" && b.blocks != [] && IsTool(Last(b.blocks)) {
        ToolCallsPart(b.blocks, args);
      } else {
        FragmentCases(b, args);
      }
    case OpenCall(id, name) =>
      ToolCallsSnoc(b.blocks, Last(Add(b, a).blocks));
    case _ =>
  }

  lemma {:induction false} FragmentCases(b: Build, args: string)
    requires args == "" || b.blocks == [] || !IsTool(Last(b.blocks))
    ensures var calls := ToolCalls(b.blocks); var n := |calls| - 1;
            (args == "" && calls != [] ==> calls[..n] + [calls[n].(args := calls[n].args + args)] == calls) &&
            (b.blocks == [] ==> calls == [])
  {
    var calls := ToolCalls(b.blocks);
    if args == "" && calls != [] {
      assert calls[|calls| - 1].args + args == calls[|calls| - 1].args;
    }
  }

  lemma {:induction false} ArgsSizeSnoc(calls: seq<Call>, c: Call)
    ensures ArgsSize(calls + [c]) == ArgsSize(calls) + |c.args|
  {
    assert (calls + [c])[..|calls|] == calls;
  }

  lemma {:induction false} AddCallSize(calls: seq<Call>, named: nat, a: Action)
    ensures ArgsSize(AddCall(calls, named, a)) == ArgsSize(calls) + if a.ToolPart? && (!IsFragment(a) || calls != []) then |a.args| else 0
    ensures AddCall(calls, named, a) == [] <==> calls == [] && (IsFragment(a) || !(a.ToolPart? || a.OpenCall?))
  {
    if a.ToolPart? && IsFragment(a) && calls != [] {
      var n := |calls| - 1;
      ArgsSizeSnoc(calls[..n], calls[n].(args := calls[n].args + a.args));
    } else if a.ToolPart? && !IsFragment(a) {
      ArgsSizeSnoc(calls, AddCall(calls, named, a)[|calls|]);
    } else if a.OpenCall? {
      ArgsSizeSnoc(calls, Call(a.id, a.name, []));
    }
  }

  /** Once characters are missing from the blocks' arguments they stay missing. */
  lemma {:induction false} MissingStaysMissing(b: Build, calls: seq<Call>, acts: seq<Action>)
    requires AllBody(acts)
    requires ArgsSize(ToolCalls(b.blocks)) < ArgsSize(calls)
    requires ToolCalls(b.blocks) == [] <==> calls == []
    ensures ToolCalls(AddAll(b, acts).blocks) != AddCalls(calls, b.named, acts)
    decreases |acts|
  {
    hide ToolCalls, Add, AddCall, ArgsSize;
    if acts != [] {
      var a := acts[0];
      assert IsBody(a);
      AddCallCases(b, a);
      AddCallSize(ToolCalls(b.blocks), b.named, a);
      AddCallSize(calls, b.named, a);
      MissingStaysMissing(Add(b, a), AddCall(calls, b.named, a), acts[1..]);
    }
  }

  /** The blocks carry every call with all arguments that arrived after it opened exactly when no fragment strays. */
  lemma {:induction false} CallsKeptIffNoneStrays(b: Build, acts: seq<Action>)
    requires AllBody(acts)
    ensures ToolCalls(AddAll(b, acts).blocks) == AddCalls(ToolCalls(b.blocks), b.named, acts) <==> NoneStrays(b, acts)
    decreases |acts|
  {
    hide ToolCalls, Add, AddCall, ArgsSize;
    if acts != [] {
      var a := acts[0];
      assert IsBody(a);
      AddCallCases(b, a);
      if Strays(b, a) {
        AddCallSize(ToolCalls(b.blocks), b.named, a);
        MissingStaysMissing(Add(b, a), AddCall(ToolCalls(b.blocks), b.named, a), acts[1..]);
      } else {
        CallsKeptIffNoneStrays(Add(b, a), acts[1..]);
      }
    }
  }

  /** For a whole message: the calls in order of arrival, if and only if no fragment strays. */
  lemma {:induction false} MessageCarriesCalls(acts: seq<Action>)
    requires Finishes(acts)
    ensures ToolCalls(Final(BlocksOf(acts))) == AddCalls([], 0, BodyOf(acts)) <==> NoneStrays(Build([], 0), BodyOf(acts))
  {
    FinishingBody(acts);
    CallsKeptIffNoneStrays(Build([], 0), BodyOf(acts));
    ToolCallsSnoc([], Block(TextHead, []));
    assert [] + [Block(TextHead, [])] == [Block(TextHead, [])];
  }

  // ---------------------------------------------------------------------------------------------
  // What the message of a Responses stream carries
  // ---------------------------------------------------------------------------------------------

  function SaidIn(e: Upstream, kind: Kind): string {
    if kind == Text && e.OutputText? then e.payload
    else if kind == Thinking && e.ReasoningDelta? then e.payload
    else []
  }

  /** Everything a Responses stream says of one kind. */
  function EventsSay(events: seq<Upstream>, kind: Kind): string {
    if events == [] then [] else SaidIn(events[0], kind) + EventsSay(events[1..], kind)
  }

  lemma {:induction false} EventSpeaks(e: Upstream, kind: Kind)
    requires kind == Text || kind == Thinking
    ensures Spoken(EventActions(true, e), kind) == SaidIn(e, kind)
    ensures Quiet(e) || e.Created? ==> SaidIn(e, kind) == []
  {
    var acts := EventActions(true, e);
    if acts != [] {
      assert acts[1..] == [];
    }
  }

  lemma {:induction false} QuietEventsSayNothing(events: seq<Upstream>, kind: Kind)
    requires kind == Text || kind == Thinking
    requires forall i :: 0 <= i < |events| ==> Quiet(events[i]) || events[i].Created?
    ensures EventsSay(events, kind) == []
    decreases |events|
  {
    if events != [] {
      EventSpeaks(events[0], kind);
      QuietEventsSayNothing(events[1..], kind);
    }
  }

  lemma {:induction false} BodyOfEvent(e: Upstream, rest: seq<Action>)
    ensures BodyOf(EventActions(true, e) + rest) == if e.Completed? then [] else EventActions(true, e) + BodyOf(rest)
  {
    EventCases(e);
    if !e.Completed? {
      BodyOfAppend(EventActions(true, e), rest);
    }
  }

  lemma {:induction false} BodySpeaksEvents(events: seq<Upstream>, kind: Kind)
    requires CompletesOnce(events) && (kind == Text || kind == Thinking)
    ensures Spoken(BodyOf(ResponsesActions(true, events)), kind) == EventsSay(events, kind)
    decreases |events|
  {
    hide EventActions, Spoken, BodyOf, Quiet;
    var e, rest := events[0], ResponsesActions(true, events[1..]);
    BodyOfEvent(e, rest);
    EventSpeaks(e, kind);
    if e.Completed? {
      assert forall i :: 0 <= i < |events| - 1 ==> events[1..][i] == events[i + 1];
      QuietEventsSayNothing(events[1..], kind);
      NothingSpoken(kind);
    } else {
      SpokenAppend(EventActions(true, e), BodyOf(rest), kind);
      BodySpeaksEvents(events[1..], kind);
    }
  }

  lemma {:induction false} NothingSpoken(kind: Kind)
    ensures Spoken([], kind) == []
  {
  }

  /** The text blocks hold the text of the Responses stream and the thinking blocks its reasoning. */
  lemma {:induction false} MessageCarriesEvents(events: seq<Upstream>, kind: Kind)
    requires CompletesOnce(events) && (kind == Text || kind == Thinking)
    ensures Said(Final(BlocksOf(ResponsesActions(true, events))), kind) == EventsSay(events, kind)
  {
    hide BodyOf, CompletesOnce, EventsSay, Finishes, ResponsesActions, Spoken;
    var acts := ResponsesActions(true, events);
    CompletingEvents(events);
    FinishingBody(acts);
    NothingSaidIsLost(Build([], 0), BodyOf(acts), kind);
    BodySpeaksEvents(events, kind);
    var e := Block(TextHead, []);
    assert [] + [e] == [e];
    SaidSnoc([], e, kind);
  }

  /** The calls of a Responses stream: each added item is one, and arguments are for the last item added. */
  function EventCalls(calls: seq<Call>, events: seq<Upstream>): seq<Call>
    decreases |events|
  {
    if events == [] then calls
    else
      match events[0]
      case Completed => calls
      case ItemAdded(isCall, callId, id, name) =>
        EventCalls(if isCall then calls + [Call(if callId == "" then id else callId, name, "")] else calls, events[1..])
      case ArgumentsDelta(payload) =>
        var n := |calls| - 1;
        EventCalls(if n >= 0 then calls[n := calls[n].(args := calls[n].args + payload)] else calls, events[1..])
      case _ => EventCalls(calls, events[1..])
  }

  /** Before completion, arguments that follow a call come before anything said after that call. */
  predicate ArgumentsFollow(called: bool, live: bool, events: seq<Upstream>)
    decreases |events|
  {
    events == [] ||
    match events[0]
    case Completed => true
    case ItemAdded(isCall, _, _, _) => ArgumentsFollow(called || isCall, live || isCall, events[1..])
    case ArgumentsDelta(payload) => (called && payload != "" ==> live) && ArgumentsFollow(called, live, events[1..])
    case ReasoningDelta(payload) => ArgumentsFollow(called, live && payload == "", events[1..])
    case OutputText(_) => ArgumentsFollow(called, false, events[1..])
    case _ => ArgumentsFollow(called, live, events[1..])
  }

  lemma {:induction false} EventCallsStep(calls: seq<Call>, named: nat, e: Upstream, rest: seq<Action>)
    requires !e.Completed?
    ensures AddCalls(calls, named, EventActions(true, e) + rest) ==
            AddCalls(match e
                     case ItemAdded(isCall, callId, id, name) =>
                       if isCall then calls + [Call(if callId == "" then id else callId, name, "")] else calls
                     case ArgumentsDelta(payload) =>
                       var n := |calls| - 1; if n >= 0 then calls[n := calls[n].(args := calls[n].args + payload)] else calls
                     case _ => calls, named, rest)
  {
    var acts := EventActions(true, e);
    if acts == [] {
      assert acts + rest == rest;
    } else {
      assert (acts + rest)[0] == acts[0] && (acts + rest)[1..] == rest;
      if e.ArgumentsDelta? && calls != [] {
        var n := |calls| - 1;
        var longer := calls[n].(args := calls[n].args + e.payload);
        assert calls[..n] + [longer] == calls[n := longer];
      }
    }
  }

  lemma {:induction false} BodyCallsEvents(calls: seq<Call>, named: nat, events: seq<Upstream>)
    ensures AddCalls(calls, named, BodyOf(ResponsesActions(true, events))) == EventCalls(calls, events)
    decreases |events|
  {
    hide EventActions, AddCalls, BodyOf;
    if events == [] {
      NothingCalled(calls, named);
    } else {
      var e, rest := events[0], ResponsesActions(true, events[1..]);
      BodyOfEvent(e, rest);
      NothingCalled(calls, named);
      if !e.Completed? {
        EventCallsStep(calls, named, e, BodyOf(rest));
      }
      match e
      case Completed =>
      case ItemAdded(isCall, callId, id, name) =>
        BodyCallsEvents(if isCall then calls + [Call(if callId == "" then id else callId, name, "")] else calls,
                        named, events[1..]);
      case ArgumentsDelta(payload) =>
        var n := |calls| - 1;
        BodyCallsEvents(if n >= 0 then calls[n := calls[n].(args := calls[n].args + payload)] else calls,
                        named, events[1..]);
      case _ => BodyCallsEvents(calls, named, events[1..]);
    }
  }

  lemma {:induction false} NothingCalled(calls: seq<Call>, named: nat)
    ensures AddCalls(calls, named, []) == calls && BodyOf([]) == []
  {
  }

  /** The block being filled is a tool's. */
  predicate InTool(b: Build) {
    b.blocks != [] && IsTool(Last(b.blocks))
  }

  lemma {:induction false} ActionLeaves(b: Build, a: Action)
    requires IsBody(a)
    ensures ToolCalls(Add(b, a).blocks) != [] <==> ToolCalls(b.blocks) != [] || (!IsFragment(a) && !a.Delta?)
    ensures InTool(Add(b, a)) <==> !a.Delta? && (InTool(b) || !IsFragment(a))
  {
    AddCallCases(b, a);
    AddCallSize(ToolCalls(b.blocks), b.named, a);
    hide ToolCalls;
  }

  /** One event's actions before the rest: whether a fragment strays, and whether a tool's block is left live. */
  lemma {:induction false} EventStrays(b: Build, e: Upstream, rest: seq<Action>)
    requires !e.Completed?
    ensures var called, b' := ToolCalls(b.blocks) != [], AddAll(b, EventActions(true, e));
            && (NoneStrays(b, EventActions(true, e) + rest) <==>
                  (e.ArgumentsDelta? && called && e.payload != "" ==> InTool(b)) && NoneStrays(b', rest))
            && (ToolCalls(b'.blocks) != [] <==> called || (e.ItemAdded? && e.isCall))
            && (InTool(b') <==>
                  if e.ItemAdded? then InTool(b) || e.isCall
                  else if e.ReasoningDelta? then InTool(b) && e.payload == ""
                  else !e.OutputText? && InTool(b))
  {
    var acts := EventActions(true, e);
    EventCases(e);
    if acts == [] {
      assert acts + rest == rest;
    } else {
      assert (acts + rest)[0] == acts[0] && (acts + rest)[1..] == rest;
      AddAllOne(b, acts[0]);
      assert acts == [acts[0]] && IsBody(acts[0]);
      ActionLeaves(b, acts[0]);
      hide ToolCalls, AddAll, Add;
    }
  }

  lemma {:induction false} NoneStraysInEvents(b: Build, events: seq<Upstream>)
    ensures NoneStrays(b, BodyOf(ResponsesActions(true, events))) <==>
            ArgumentsFollow(ToolCalls(b.blocks) != [], InTool(b), events)
    decreases |events|
  {
    hide EventActions, BodyOf, NoneStrays, ToolCalls, AddAll, InTool;
    if events == [] {
      NothingCalled([], 0);
      NoneStrayInNothing(b);
    } else {
      var e, rest := events[0], ResponsesActions(true, events[1..]);
      BodyOfEvent(e, rest);
      NoneStrayInNothing(b);
      if !e.Completed? {
        EventStrays(b, e, BodyOf(rest));
        NoneStraysInEvents(AddAll(b, EventActions(true, e)), events[1..]);
      }
    }
  }

  lemma {:induction false} NoneStrayInNothing(b: Build)
    ensures NoneStrays(b, [])
  {
  }

  /** The tool blocks hold the calls of a Responses stream exactly when nothing is said between a call and its arguments. */
  lemma {:induction false} MessageCarriesEventCalls(events: seq<Upstream>)
    requires CompletesOnce(events)
    ensures ToolCalls(Final(BlocksOf(ResponsesActions(true, events)))) == EventCalls([], events)
            <==> ArgumentsFollow(false, false, events)
  {
    hide AddCalls, NoneStrays, BlocksOf, ArgumentsFollow;
    var acts := ResponsesActions(true, events);
    CompletingEvents(events);
    MessageCarriesCalls(acts);
    BodyCallsEvents([], 0, events);
    NoneStraysInEvents(Build([], 0), events);
  }

  /** The events of the message: those after the first response.created. */
  function AfterCreated(events: seq<Upstream>): (r: seq<Upstream>)
    requires CreatedThenCompleted(events)
    ensures CompletesOnce(r)
    decreases |events|
  {
    if events[0].Created? then events[1..] else AfterCreated(events[1..])
  }

  function CreatedId(events: seq<Upstream>): string
    requires CreatedThenCompleted(events)
    decreases |events|
  {
    if events[0].Created? then events[0].id else CreatedId(events[1..])
  }

  lemma {:induction false} StartOfEvents(events: seq<Upstream>)
    requires CreatedThenCompleted(events)
    ensures var acts := ResponsesActions(false, events);
            && Disciplined(acts) && AfterStart(acts) == ResponsesActions(true, AfterCreated(events))
            && StartOf(acts).id == CreatedId(events)
    decreases |events|
  {
    CreatedDiscipline(events);
    var e := events[0];
    if e.Created? {
      assert ResponsesActions(false, events)[1..] == ResponsesActions(true, events[1..]);
    } else {
      var rest := ResponsesActions(false, events[1..]);
      StartOfEvents(events[1..]);
      if e.ArgumentsDelta? {
        assert (EventActions(false, e) + rest)[1..] == rest;
      } else {
        assert EventActions(false, e) + rest == rest;
      }
    }
  }

  /** The message of a Responses stream: its id, and the blocks of the events after response.created. */
  lemma {:induction false} ResponsesMessage(generated: string, events: seq<Upstream>)
    requires CreatedThenCompleted(events)
    ensures var acts := ResponsesActions(true, AfterCreated(events));
            var id := if CreatedId(events) != "" then CreatedId(events) else generated;
            && Finishes(acts)
            && Run(EmptyState(generated), ResponsesActions(false, events)).1 == Message(id, Final(BlocksOf(acts)), StopOf(acts))
  {
    hide Message, Final, BlocksOf, Run, StopOf;
    StartOfEvents(events);
    CompletingEvents(AfterCreated(events));
    DisciplinedRun(generated, ResponsesActions(false, events));
  }

  // ---------------------------------------------------------------------------------------------
  // Cutting text differently
  // ---------------------------------------------------------------------------------------------

  /** A message up to the boundaries between deltas. */
  function Joined(blocks: seq<Block>): (r: seq<(Head, string)>)
    ensures |r| == |blocks|
    ensures forall i :: 0 <= i < |blocks| ==> r[i] == (blocks[i].head, Flatten(blocks[i].parts))
  {
    seq(|blocks|, i requires 0 <= i < |blocks| => (blocks[i].head, Flatten(blocks[i].parts)))
  }

  predicate SameMessage(a: Build, b: Build) {
    Joined(a.blocks) == Joined(b.blocks) && a.named == b.named
  }

  lemma {:induction false} JoinedPart(blocks: seq<Block>, part: string)
    requires blocks != []
    ensures var n := |blocks| - 1; var j := Joined(blocks);
            Joined(AddPart(blocks, part)) == j[..n] + [(j[n].0, j[n].1 + part)]
  {
    FlattenAppend(Last(blocks).parts, [part]);
    FlattenOne(part);
  }

  lemma {:induction false} JoinedSnoc(blocks: seq<Block>, b: Block)
    ensures Joined(blocks + [b]) == Joined(blocks) + [(b.head, Flatten(b.parts))]
  {
  }

  /** What an action adds depends on the message only, not on its delta boundaries. */
  lemma {:induction false} AddRespects(a: Build, b: Build, act: Action)
    requires SameMessage(a, b)
    ensures SameMessage(Add(a, act), Add(b, act))
  {
    assert a.blocks != [] ==> Joined(a.blocks)[|a.blocks| - 1] == Joined(b.blocks)[|b.blocks| - 1];
    match act
    case Delta(kind, payload) =>
      PartRespects(a, b, payload);
      BlockRespects(a, b, Block(HeadFor(kind), [payload]));
    case ToolPart(id, name, args) =>
      PartRespects(a, b, args);
      var head := ToolHead(if id == "" then "call_" + Itoa(a.named) else id, name);
      BlockRespects(a, b, Block(head, if args == "" then [] else [args]));
    case OpenCall(id, name) =>
      BlockRespects(a, b, Block(ToolHead(id, name), []));
    case _ =>
  }

  lemma {:induction false} BlockRespects(a: Build, b: Build, block: Block)
    requires SameMessage(a, b)
    ensures Joined(a.blocks + [block]) == Joined(b.blocks + [block])
  {
    hide Joined;
    JoinedSnoc(a.blocks, block);
    JoinedSnoc(b.blocks, block);
  }

  lemma {:induction false} PartRespects(a: Build, b: Build, part: string)
    requires SameMessage(a, b)
    ensures |a.blocks| == |b.blocks|
    ensures a.blocks != [] ==> Joined(AddPart(a.blocks, part)) == Joined(AddPart(b.blocks, part))
  {
    hide Joined;
    assert |Joined(a.blocks)| == |Joined(b.blocks)|;
    if a.blocks != [] {
      JoinedPart(a.blocks, part);
      JoinedPart(b.blocks, part);
    }
  }

  lemma {:induction false} AddAllRespects(a: Build, b: Build, acts: seq<Action>)
    requires SameMessage(a, b)
    ensures SameMessage(AddAll(a, acts), AddAll(b, acts))
    decreases |acts|
  {
    hide Add, SameMessage;
    if acts != [] {
      AddRespects(a, b, acts[0]);
      AddAllRespects(Add(a, acts[0]), Add(b, acts[0]), acts[1..]);
    }
  }

  lemma {:induction false} AddAllOne(b: Build, a: Action)
    ensures AddAll(b, [a]) == Add(b, a)
  {
    assert [a][1..] == [];
    assert AddAll(Add(b, a), []) == Add(b, a);
  }

  lemma {:induction false} AddAllAppend(b: Build, x: seq<Action>, y: seq<Action>)
    ensures AddAll(b, x + y) == AddAll(AddAll(b, x), y)
    decreases |x|
  {
    if x == [] {
      assert x + y == y;
    } else {
      assert (x + y)[1..] == x[1..] + y;
      AddAllAppend(Add(b, x[0]), x[1..], y);
    }
  }

  /** The action `whole` cut in two. */
  predicate CutInTwo(whole: Action, first: Action, second: Action) {
    || (whole.Delta? && first.Delta? && second.Delta? && whole.kind == first.kind == second.kind &&
        (whole.kind == Thinking || whole.kind == Text) && whole.payload == first.payload + second.payload)
    || (whole.ToolPart? && first.ToolPart? && IsFragment(second) && whole.id == first.id && whole.name == first.name &&
        whole.args == first.args + second.args)
  }

  lemma {:induction false} CutAdds(b: Build, whole: Action, first: Action, second: Action)
    requires CutInTwo(whole, first, second)
    ensures SameMessage(Add(b, whole), Add(Add(b, first), second))
  {
    if whole.Delta? {
      CutDelta(b, whole.kind, first.payload, second.payload);
    } else {
      CutTool(b, whole, first, second);
    }
  }

  lemma {:induction false} CutDelta(b: Build, kind: Kind, x: string, y: string)
    requires kind == Thinking || kind == Text
    ensures SameMessage(Add(b, Delta(kind, x + y)), Add(Add(b, Delta(kind, x)), Delta(kind, y)))
  {
    hide Joined;
    var once := Add(b, Delta(kind, x));
    JoinedPart(once.blocks, y);
    if b.blocks != [] && KindOf(Last(b.blocks).head) == kind {
      JoinedPart(b.blocks, x);
      JoinedPart(b.blocks, x + y);
      var j := Joined(b.blocks)[|b.blocks| - 1];
      ConcatAssoc(j.1, x, y);
    } else {
      JoinedSnoc(b.blocks, Block(HeadFor(kind), [x]));
      JoinedSnoc(b.blocks, Block(HeadFor(kind), [x + y]));
      FlattenOne(x);
      FlattenOne(x + y);
    }
  }

  lemma {:induction false} CutTool(b: Build, whole: Action, first: Action, second: Action)
    requires whole.ToolPart? && CutInTwo(whole, first, second)
    ensures SameMessage(Add(b, whole), Add(Add(b, first), second))
  {
    hide SameMessage, Add;
    if IsFragment(first) {
      CutFragment(b, first.args, second.args);
    } else {
      CutCall(b, first.id, first.name, first.args, second.args);
    }
  }

  lemma {:induction false} CutFragment(b: Build, x: string, y: string)
    ensures var part := (args: string) => ToolPart("", "", args);
            SameMessage(Add(b, part(x + y)), Add(Add(b, part(x)), part(y)))
  {
    if b.blocks != [] && IsTool(Last(b.blocks)) {
      assert x == "" ==> x + y == y;
      assert y == "" ==> x + y == x;
      if x != "" && y != "" {
        hide Joined;
        JoinedPart(AddPart(b.blocks, x), y);
        JoinedPart(b.blocks, x);
        JoinedPart(b.blocks, x + y);
        ConcatAssoc(Joined(b.blocks)[|b.blocks| - 1].1, x, y);
      }
    }
  }

  lemma {:induction false} CutCall(b: Build, id: string, name: string, x: string, y: string)
    requires id != "" || name != ""
    ensures SameMessage(Add(b, ToolPart(id, name, x + y)), Add(Add(b, ToolPart(id, name, x)), ToolPart("", "", y)))
  {
    var head := ToolHead(if id == "" then "call_" + Itoa(b.named) else id, name);
    assert x == "" ==> x + y == y;
    assert y == "" ==> x + y == x;
    if y != "" {
      hide Joined;
      var once := b.blocks + [Block(head, if x == "" then [] else [x])];
      JoinedPart(once, y);
      JoinedSnoc(b.blocks, Block(head, if x == "" then [] else [x]));
      JoinedSnoc(b.blocks, Block(head, [x + y]));
      FlattenOne(x);
      FlattenOne(x + y);
    }
  }

  /** However a delta or an argument fragment is cut in two, the message is the same up to delta boundaries. */
  lemma {:induction false} CutsDoNotMatter(before: seq<Action>, whole: Action, first: Action, second: Action, after: seq<Action>)
    requires CutInTwo(whole, first, second)
    ensures SameMessage(AddAll(Build([], 0), before + [whole] + after), AddAll(Build([], 0), before + [first, second] + after))
  {
    hide Add, SameMessage;
    var b := AddAll(Build([], 0), before);
    AddAllAppend(Build([], 0), before + [whole], after);
    AddAllAppend(Build([], 0), before, [whole]);
    AddAllAppend(Build([], 0), before + [first, second], after);
    AddAllAppend(Build([], 0), before, [first, second]);
    AddAllOne(b, whole);
    AddAllOne(Add(b, first), second);
    assert [first, second][1..] == [second];
    CutAdds(b, whole, first, second);
    AddAllRespects(Add(b, whole), Add(Add(b, first), second), after);
  }
}
