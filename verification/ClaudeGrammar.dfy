/**
 What a Claude client can rely on in a translated stream: the events are one message of numbered
 content blocks, each opened once and closed once around deltas of its own kind, and they carry
 everything that came from upstream.
 */
module ClaudeGrammar {
  import opened Chat
  import opened ClaudeStream
  import opened Decimal
  import opened Sequences

  /** A content block: its opening and the payloads of its deltas, in order. */
  datatype Block = Block(head: Head, parts: seq<string>)

  function Deltas(index: nat, b: Block): (es: seq<Event>)
    ensures |es| == |b.parts|
  {
    seq(|b.parts|, i requires 0 <= i < |b.parts| => BlockDelta(index, KindOf(b.head), b.parts[i]))
  }

  function RenderOpen(index: nat, b: Block): seq<Event> {
    [BlockStart(index, b.head)] + Deltas(index, b)
  }

  function Render(index: nat, b: Block): seq<Event> {
    RenderOpen(index, b) + [BlockStop(index)]
  }

  /** Blocks numbered from 0, each closed. */
  function RenderAll(blocks: seq<Block>): seq<Event> {
    if blocks == [] then []
    else RenderAll(blocks[..|blocks| - 1]) + Render(|blocks| - 1, blocks[|blocks| - 1])
  }

  /** The same with the last block still open. */
  function RenderLive(blocks: seq<Block>): seq<Event> {
    if blocks == [] then []
    else RenderAll(blocks[..|blocks| - 1]) + RenderOpen(|blocks| - 1, blocks[|blocks| - 1])
  }

  function Message(id: string, blocks: seq<Block>, stop: string): seq<Event> {
    [MessageStart(id)] + RenderAll(blocks) + [MessageDelta(stop), MessageStop]
  }

  /** A complete message of at least one block. */
  ghost predicate Transcript(events: seq<Event>) {
    exists id, blocks, stop :: blocks != [] && events == Message(id, blocks, stop)
  }

  // ---------------------------------------------------------------------------------------------
  // The blocks that the actions build
  // ---------------------------------------------------------------------------------------------

  predicate IsTool(b: Block) {
    b.head.ToolHead?
  }

  function ToolCount(blocks: seq<Block>): nat {
    if blocks == [] then 0 else ToolCount(blocks[..|blocks| - 1]) + if IsTool(blocks[|blocks| - 1]) then 1 else 0
  }

  function Last(blocks: seq<Block>): Block
    requires blocks != []
  {
    blocks[|blocks| - 1]
  }

  function AddPart(blocks: seq<Block>, part: string): (r: seq<Block>)
    requires blocks != []
    ensures |r| == |blocks|
  {
    blocks[..|blocks| - 1] + [Last(blocks).(parts := Last(blocks).parts + [part])]
  }

  /** What was built, and how many calls were named so far. */
  datatype Build = Build(blocks: seq<Block>, named: nat)

  function Add(b: Build, a: Action): Build {
    match a
    case Delta(kind, payload) =>
      if b.blocks != [] && KindOf(Last(b.blocks).head) == kind then b.(blocks := AddPart(b.blocks, payload))
      else b.(blocks := b.blocks + [Block(HeadFor(kind), [payload])])
    case ToolPart(id, name, args) =>
      if id != "" || name != "" then
        var head := ToolHead(if id == "" then "call_" + Itoa(b.named) else id, name);
        Build(b.blocks + [Block(head, if args == "" then [] else [args])], b.named + 1)
      else if args != "" && b.blocks != [] && IsTool(Last(b.blocks)) then b.(blocks := AddPart(b.blocks, args))
      else b
    case OpenCall(id, name) => b.(blocks := b.blocks + [Block(ToolHead(id, name), [])])
    case _ => b
  }

  function AddAll(b: Build, acts: seq<Action>): Build
    decreases |acts|
  {
    if acts == [] then b else AddAll(Add(b, acts[0]), acts[1..])
  }

  predicate HasTool(blocks: seq<Block>) {
    exists i :: 0 <= i < |blocks| && IsTool(blocks[i])
  }

  /** Actions between the start and the finish. */
  predicate IsBody(a: Action) {
    !a.Start? && !a.Finish? && (a.Delta? ==> a.kind == Thinking || a.kind == Text)
  }

  /** The state agrees with the blocks built, the last of them being open. */
  predicate Tracks(s: State, b: Build) {
    && s.toolIndex == b.named
    && (s.hasTools <==> HasTool(b.blocks))
    && s.blockKind == (if b.blocks == [] then NoBlock else KindOf(Last(b.blocks).head))
    && s.blockIndex == (if b.blocks == [] then 0 else |b.blocks| - 1)
  }

  lemma {:induction false} HasToolSnoc(blocks: seq<Block>, b: Block)
    ensures HasTool(blocks + [b]) <==> HasTool(blocks) || IsTool(b)
  {
    if HasTool(blocks) {
      var i :| 0 <= i < |blocks| && IsTool(blocks[i]);
      assert (blocks + [b])[i] == blocks[i];
    }
    if IsTool(b) {
      assert (blocks + [b])[|blocks|] == b;
    }
  }

  lemma {:induction false} RenderClose(blocks: seq<Block>)
    requires blocks != []
    ensures RenderLive(blocks) + [BlockStop(|blocks| - 1)] == RenderAll(blocks)
  {
    var front := RenderAll(blocks[..|blocks| - 1]);
    ConcatAssoc(front, RenderOpen(|blocks| - 1, Last(blocks)), [BlockStop(|blocks| - 1)]);
  }

  function Closing(blocks: seq<Block>): seq<Event> {
    if blocks == [] then [] else [BlockStop(|blocks| - 1)]
  }

  /** A new block after the ones built: the last one is closed first. */
  lemma {:induction false} RenderNext(blocks: seq<Block>, head: Head)
    ensures RenderLive(blocks + [Block(head, [])]) == RenderLive(blocks) + (Closing(blocks) + [BlockStart(|blocks|, head)])
  {
    var b := Block(head, []);
    assert (blocks + [b])[..|blocks|] == blocks;
    assert RenderOpen(|blocks|, b) == [BlockStart(|blocks|, head)];
    ConcatAssoc(RenderLive(blocks), Closing(blocks), [BlockStart(|blocks|, head)]);
    if blocks != [] {
      RenderClose(blocks);
    }
  }

  /** The first delta of a new block. */
  lemma {:induction false} AddFirstPart(blocks: seq<Block>, head: Head, part: string)
    ensures AddPart(blocks + [Block(head, [])], part) == blocks + [Block(head, [part])]
  {
    assert (blocks + [Block(head, [])])[..|blocks|] == blocks;
    assert [] + [part] == [part];
  }

  lemma {:induction false} RenderPart(blocks: seq<Block>, part: string)
    requires blocks != []
    ensures RenderLive(AddPart(blocks, part)) ==
            RenderLive(blocks) + [BlockDelta(|blocks| - 1, KindOf(Last(blocks).head), part)]
  {
    var n := |blocks| - 1;
    var b := Last(blocks);
    var b' := b.(parts := b.parts + [part]);
    assert AddPart(blocks, part)[..n] == blocks[..n];
    assert Deltas(n, b') == Deltas(n, b) + [BlockDelta(n, KindOf(b.head), part)];
    assert RenderOpen(n, b') == RenderOpen(n, b) + [BlockDelta(n, KindOf(b.head), part)];
    ConcatAssoc(RenderAll(blocks[..n]), RenderOpen(n, b), [BlockDelta(n, KindOf(b.head), part)]);
  }

  lemma {:induction false} AddPartTracks(blocks: seq<Block>, part: string)
    requires blocks != []
    ensures Last(AddPart(blocks, part)).head == Last(blocks).head
    ensures HasTool(AddPart(blocks, part)) <==> HasTool(blocks)
  {
    var front := blocks[..|blocks| - 1];
    assert blocks == front + [Last(blocks)];
    HasToolSnoc(front, Last(blocks));
    HasToolSnoc(front, Last(blocks).(parts := Last(blocks).parts + [part]));
  }

  /** One action between start and finish emits exactly what its blocks add to the rendering. */
  lemma {:induction false} ActBuilds(s: State, b: Build, a: Action)
    requires Tracks(s, b) && IsBody(a)
    ensures Tracks(Act(s, a).0, Add(b, a))
    ensures RenderLive(b.blocks) + Act(s, a).1 == RenderLive(Add(b, a).blocks)
  {
    match a
    case Delta(kind, payload) => DeltaBuilds(s, b, kind, payload);
    case ToolPart(id, name, args) => ToolPartBuilds(s, b, id, name, args);
    case OpenCall(id, name) => OpenToolBuilds(s, b, id, name);
    case _ =>
  }

  /** A state whose last open block is new tracks the blocks with it appended. */
  predicate TracksNew(s: State, s': State, b: Build, head: Head) {
    && s'.toolIndex == s.toolIndex && s'.blockKind == KindOf(head) && s'.blockIndex == |b.blocks|
    && s'.hasTools == (s.hasTools || head.ToolHead?)
  }

  lemma {:induction false} NewBlock(s: State, s': State, b: Build, head: Head)
    requires Tracks(s, b) && TracksNew(s, s', b, head)
    ensures Tracks(s', b.(blocks := b.blocks + [Block(head, [])]))
  {
    HasToolSnoc(b.blocks, Block(head, []));
  }

  lemma {:induction false} NewPart(s: State, b: Build, part: string)
    requires Tracks(s, b) && b.blocks != []
    ensures Tracks(s, b.(blocks := AddPart(b.blocks, part)))
    ensures RenderLive(AddPart(b.blocks, part)) == RenderLive(b.blocks) + [BlockDelta(s.blockIndex, s.blockKind, part)]
  {
    AddPartTracks(b.blocks, part);
    RenderPart(b.blocks, part);
  }

  lemma {:induction false} OpenToolBuilds(s: State, b: Build, id: string, name: string)
    requires Tracks(s, b)
    ensures var blocks' := b.blocks + [Block(ToolHead(id, name), [])];
            Tracks(OpenTool(s, id, name).0, b.(blocks := blocks')) &&
            RenderLive(b.blocks) + OpenTool(s, id, name).1 == RenderLive(blocks')
  {
    NewBlock(s, OpenTool(s, id, name).0, b, ToolHead(id, name));
    RenderNext(b.blocks, ToolHead(id, name));
  }

  lemma {:induction false} DeltaBuilds(s: State, b: Build, kind: Kind, payload: string)
    requires Tracks(s, b) && (kind == Thinking || kind == Text)
    ensures var a := Delta(kind, payload);
            Tracks(Act(s, a).0, Add(b, a)) && RenderLive(b.blocks) + Act(s, a).1 == RenderLive(Add(b, a).blocks)
  {
    hide RenderLive, Tracks;
    var (s', lines) := OpenBlock(s, kind);
    DeltaLines(s, kind, payload);
    if SameKind(s, b, kind) {
      NewPart(s, b, payload);
      assert [] + [BlockDelta(s.blockIndex, kind, payload)] == [BlockDelta(s.blockIndex, kind, payload)];
    } else {
      var head := HeadFor(kind);
      OpenBlockLines(s, b, kind);
      NewBlock(s, s', b, head);
      RenderNext(b.blocks, head);
      var b' := b.(blocks := b.blocks + [Block(head, [])]);
      NewPart(s', b', payload);
      AddFirstPart(b.blocks, head, payload);
      ConcatAssoc(RenderLive(b.blocks), lines, [BlockDelta(s'.blockIndex, kind, payload)]);
    }
  }

  lemma {:induction false} DeltaLines(s: State, kind: Kind, payload: string)
    ensures var (s', lines) := OpenBlock(s, kind);
            Act(s, Delta(kind, payload)) == (s', lines + [BlockDelta(s'.blockIndex, kind, payload)])
  {
  }

  predicate SameKind(s: State, b: Build, kind: Kind)
    ensures SameKind(s, b, kind) && Tracks(s, b) ==> OpenBlock(s, kind) == (s, [])
    ensures SameKind(s, b, kind) && Tracks(s, b) ==> s.blockKind == kind
  {
    b.blocks != [] && KindOf(Last(b.blocks).head) == kind
  }

  lemma {:induction false} OpenBlockLines(s: State, b: Build, kind: Kind)
    requires Tracks(s, b) && (kind == Thinking || kind == Text) && !SameKind(s, b, kind)
    ensures var (s', lines) := OpenBlock(s, kind);
            TracksNew(s, s', b, HeadFor(kind)) && lines == Closing(b.blocks) + [BlockStart(|b.blocks|, HeadFor(kind))]
  {
    assert OpenBlock(s, kind).1 == Closing(b.blocks) + [BlockStart(|b.blocks|, HeadFor(kind))];
  }

  lemma {:induction false} ToolPartBuilds(s: State, b: Build, id: string, name: string, args: string)
    requires Tracks(s, b)
    ensures var a := ToolPart(id, name, args);
            Tracks(Act(s, a).0, Add(b, a)) && RenderLive(b.blocks) + Act(s, a).1 == RenderLive(Add(b, a).blocks)
  {
    hide RenderLive, OpenTool;
    if id != "" || name != "" {
      var callId := CallId(s, id);
      var head := ToolHead(callId, name);
      OpenToolBuilds(s, b, callId, name);
      var (s', lines) := OpenTool(s, callId, name);
      var b' := b.(blocks := b.blocks + [Block(head, [])]);
      if args != "" {
        NewPart(s', b', args);
        AddFirstPart(b.blocks, head, args);
        ConcatAssoc(RenderLive(b.blocks), lines, [BlockDelta(s'.blockIndex, Tool, args)]);
      } else {
        assert lines + [] == lines;
      }
    } else if args != "" && b.blocks != [] && IsTool(Last(b.blocks)) {
      NewPart(s, b, args);
    } else {
      assert RenderLive(b.blocks) + [] == RenderLive(b.blocks);
    }
  }

  // ---------------------------------------------------------------------------------------------
  // Whole runs
  // ---------------------------------------------------------------------------------------------

  predicate AllBody(acts: seq<Action>) {
    forall i :: 0 <= i < |acts| ==> IsBody(acts[i])
  }

  lemma {:induction false} BodyBuilds(s: State, b: Build, acts: seq<Action>)
    requires Tracks(s, b) && AllBody(acts)
    ensures Tracks(Run(s, acts).0, AddAll(b, acts))
    ensures RenderLive(b.blocks) + Run(s, acts).1 == RenderLive(AddAll(b, acts).blocks)
    decreases |acts|
  {
    hide Tracks, Act, Add, RenderLive;
    if acts == [] {
      assert RenderLive(b.blocks) + [] == RenderLive(b.blocks);
    } else {
      var (s', lines) := Act(s, acts[0]);
      ActBuilds(s, b, acts[0]);
      BodyBuilds(s', Add(b, acts[0]), acts[1..]);
      ConcatAssoc(RenderLive(b.blocks), lines, Run(s', acts[1..]).1);
    }
  }

  /** A message without any block gets an empty text block. */
  function Final(blocks: seq<Block>): (r: seq<Block>)
    ensures r != []
  {
    if blocks == [] then [Block(TextHead, [])] else blocks
  }

  lemma {:induction false} FinishCloses(s: State, b: Build, reason: string, c: Choice)
    requires Tracks(s, b)
    ensures var (s', lines) := Act(s, Finish(reason, c));
            RenderLive(b.blocks) + lines ==
            RenderAll(Final(b.blocks)) + [MessageDelta(StopReason(HasTool(b.blocks), reason)), MessageStop] &&
            s'.blockKind == NoBlock
  {
    var (s', closing) := FinishBlocks(CaptureError(s, c));
    var last := [MessageDelta(StopReason(s'.hasTools, reason)), MessageStop];
    ClosingEvents(s, b, c);
    hide RenderLive, RenderAll, FinishBlocks;
    ConcatAssoc(RenderLive(b.blocks), closing, last);
  }

  lemma {:induction false} ClosingEvents(s: State, b: Build, c: Choice)
    requires Tracks(s, b)
    ensures var (s', closing) := FinishBlocks(CaptureError(s, c));
            RenderLive(b.blocks) + closing == RenderAll(Final(b.blocks)) &&
            s'.blockKind == NoBlock && s'.hasTools == HasTool(b.blocks)
  {
    if b.blocks == [] {
      var e := Block(TextHead, []);
      assert [e][..0] == [];
      assert Render(0, e) == [BlockStart(0, TextHead), BlockStop(0)];
    } else {
      RenderClose(b.blocks);
    }
  }

  /** Fragments of arguments that open no call: they say nothing once the message is finished. */
  predicate IsFragment(a: Action) {
    a.ToolPart? && a.id == "" && a.name == ""
  }

  predicate AllFragments(acts: seq<Action>) {
    forall i :: 0 <= i < |acts| ==> IsFragment(acts[i])
  }

  lemma {:induction false} FragmentsAreSilent(s: State, acts: seq<Action>)
    requires s.blockKind != Tool && AllFragments(acts)
    ensures Run(s, acts) == (s, [])
    decreases |acts|
  {
    if acts != [] {
      assert IsFragment(acts[0]);
      FragmentsAreSilent(s, acts[1..]);
      var nothing: seq<Event> := [];
      assert nothing + nothing == nothing;
    }
  }

  /** One start, then a body, then one finish, and nothing that speaks before or after. */
  predicate Disciplined(acts: seq<Action>)
    decreases |acts|
  {
    acts != [] && if acts[0].Start? then Finishes(acts[1..]) else IsFragment(acts[0]) && Disciplined(acts[1..])
  }

  predicate Finishes(acts: seq<Action>)
    decreases |acts|
  {
    acts != [] && if acts[0].Finish? then AllFragments(acts[1..]) else IsBody(acts[0]) && Finishes(acts[1..])
  }

  /** The body of a message: from its start, or from inside it, up to its finish. */
  function BodyOf(acts: seq<Action>): seq<Action>
    decreases |acts|
  {
    if acts == [] || acts[0].Finish? then [] else [acts[0]] + BodyOf(acts[1..])
  }

  function FinishOf(acts: seq<Action>): Action
    requires Finishes(acts)
    decreases |acts|
  {
    if acts[0].Finish? then acts[0] else FinishOf(acts[1..])
  }

  function AfterStart(acts: seq<Action>): (r: seq<Action>)
    requires Disciplined(acts)
    ensures Finishes(r)
    decreases |acts|
  {
    if acts[0].Start? then acts[1..] else AfterStart(acts[1..])
  }

  function StartOf(acts: seq<Action>): (r: Action)
    requires Disciplined(acts)
    ensures r.Start?
    decreases |acts|
  {
    if acts[0].Start? then acts[0] else StartOf(acts[1..])
  }

  function StopOf(acts: seq<Action>): string
    requires Finishes(acts)
  {
    FinishReasonIs(acts);
    StopReason(HasTool(BlocksOf(acts)), FinishOf(acts).reason)
  }

  lemma {:induction false} FinishReasonIs(acts: seq<Action>)
    requires Finishes(acts)
    ensures FinishOf(acts).Finish?
    decreases |acts|
  {
    if !acts[0].Finish? {
      FinishReasonIs(acts[1..]);
    }
  }

  function BlocksOf(acts: seq<Action>): seq<Block> {
    AddAll(Build([], 0), BodyOf(acts)).blocks
  }

  /** From inside a message: the rest of the run completes and closes the blocks. */
  lemma {:induction false} FinishingRun(s: State, b: Build, acts: seq<Action>)
    requires Tracks(s, b) && Finishes(acts)
    ensures FinishOf(acts).Finish?
    ensures var blocks := AddAll(b, BodyOf(acts)).blocks;
            RenderLive(b.blocks) + Run(s, acts).1 ==
            RenderAll(Final(blocks)) + [MessageDelta(StopReason(HasTool(blocks), FinishOf(acts).reason)), MessageStop]
    decreases |acts|
  {
    hide Tracks, Act, Add, RenderLive, RenderAll;
    var (s', lines) := Act(s, acts[0]);
    ConcatAssoc(RenderLive(b.blocks), lines, Run(s', acts[1..]).1);
    if acts[0].Finish? {
      FinishCloses(s, b, acts[0].reason, acts[0].choice);
      FragmentsAreSilent(s', acts[1..]);
      assert lines + [] == lines;
    } else {
      ActBuilds(s, b, acts[0]);
      FinishingRun(s', Add(b, acts[0]), acts[1..]);
      assert ([acts[0]] + BodyOf(acts[1..]))[1..] == BodyOf(acts[1..]);
    }
  }

  lemma {:induction false} FreshTracks(id: string)
    ensures Tracks(EmptyState(id), Build([], 0))
    ensures forall id' :: Tracks(EmptyState(id).(started := true, id := id'), Build([], 0))
  {
  }

  /** A disciplined run is one message, made of exactly the blocks its body builds. */
  lemma {:induction false} DisciplinedRun(generated: string, acts: seq<Action>)
    requires Disciplined(acts)
    ensures var id := if StartOf(acts).id != "" then StartOf(acts).id else generated;
            var rest := AfterStart(acts);
            Run(EmptyState(generated), acts).1 == Message(id, Final(BlocksOf(rest)), StopOf(rest))
    decreases |acts|
  {
    hide RenderLive, RenderAll, Tracks, StopReason;
    var s := EmptyState(generated);
    if acts[0].Start? {
      var (s', lines) := Act(s, acts[0]);
      FreshTracks(generated);
      FinishingRun(s', Build([], 0), acts[1..]);
      LiveNothing();
      var rest := AfterStart(acts);
      assert [] + Run(s', rest).1 == Run(s', rest).1;
      ConcatAssoc(lines, RenderAll(Final(BlocksOf(rest))), [MessageDelta(StopOf(rest)), MessageStop]);
    } else {
      FragmentsAreSilent(s, [acts[0]]);
      RunOne(s, acts[0]);
      DisciplinedRun(generated, acts[1..]);
      var rest := Run(s, acts[1..]);
      assert [] + rest.1 == rest.1;
    }
  }

  lemma {:induction false} LiveNothing()
    ensures RenderLive([]) == [] && RenderAll([]) == []
  {
  }

  // ---------------------------------------------------------------------------------------------
  // Only disciplined runs are messages
  // ---------------------------------------------------------------------------------------------

  predicate IsInner(e: Event) {
    !e.MessageStart? && !e.MessageStop?
  }

  lemma {:induction false} RenderAllInner(blocks: seq<Block>)
    ensures forall i :: 0 <= i < |RenderAll(blocks)| ==> IsInner(RenderAll(blocks)[i])
  {
    if blocks != [] {
      RenderAllInner(blocks[..|blocks| - 1]);
    }
  }

  /** A message starts once, at the front, and stops once, at the end. */
  lemma {:induction false} TranscriptEnds(events: seq<Event>)
    requires Transcript(events)
    ensures |events| > 1 && events[0].MessageStart? && events[|events| - 1].MessageStop?
    ensures forall i :: 0 < i < |events| - 1 ==> IsInner(events[i])
  {
    var id, blocks, stop :| blocks != [] && events == Message(id, blocks, stop);
    RenderAllInner(blocks);
  }

  /** The events of one action, and whether they start or stop a message. */
  lemma {:induction false} ActEvents(s: State, a: Action)
    ensures var lines := Act(s, a).1;
            (a.Start? ==> lines != [] && lines[0].MessageStart?) &&
            (a.Finish? ==> lines != [] && lines[|lines| - 1].MessageStop? && Act(s, a).0.blockKind == NoBlock) &&
            (!a.Start? && !a.Finish? && !IsFragment(a) ==> lines != []) &&
            (!a.Start? && !a.Finish? ==> forall i :: 0 <= i < |lines| ==> IsInner(lines[i]))
  {
  }

  lemma {:induction false} SpeaksAfterStop(s: State, acts: seq<Action>)
    requires s.blockKind == NoBlock && Run(s, acts).1 == []
    ensures AllFragments(acts)
    decreases |acts|
  {
    if acts != [] {
      ActEvents(s, acts[0]);
      FragmentsAreSilent(s, [acts[0]]);
      RunOne(s, acts[0]);
      SpeaksAfterStop(s, acts[1..]);
    }
  }

  /** Inside a message: if the whole is a transcript, the rest finishes it. */
  lemma {:induction false} MustFinish(before: seq<Event>, s: State, acts: seq<Action>)
    requires before != [] && (forall i :: 0 < i < |before| ==> IsInner(before[i])) && before[0].MessageStart?
    requires forall i :: 0 <= i < |acts| ==> Speaks(acts[i])
    requires Transcript(before + Run(s, acts).1)
    ensures Finishes(acts)
    decreases |acts|
  {
    hide Act;
    var events := before + Run(s, acts).1;
    TranscriptEnds(events);
    assert acts == [] ==> events == before;
    if acts != [] {
      var (s', lines) := Act(s, acts[0]);
      ActEvents(s, acts[0]);
      var rest := Run(s', acts[1..]).1;
      ConcatAssoc(before, lines, rest);
      assert events == (before + lines) + rest;
      assert lines != [] ==> events[|before|] == lines[0];
      if acts[0].Finish? {
        var k := |before| + |lines| - 1;
        assert events[k] == lines[|lines| - 1];
        assert k == |events| - 1;
        SpeaksAfterStop(s', acts[1..]);
      } else {
        MustFinish(before + lines, s', acts[1..]);
      }
    }
  }

  lemma {:induction false} MustBeDisciplined(s: State, acts: seq<Action>)
    requires s.blockKind == NoBlock
    requires forall i :: 0 <= i < |acts| ==> Speaks(acts[i])
    requires Transcript(Run(s, acts).1)
    ensures Disciplined(acts)
    decreases |acts|
  {
    TranscriptEnds(Run(s, acts).1);
    hide Act, Transcript;
    if acts != [] {
      var (s', lines) := Act(s, acts[0]);
      ActEvents(s, acts[0]);
      assert lines != [] ==> Run(s, acts).1[0] == lines[0];
      if acts[0].Start? {
        MustFinish(lines, s', acts[1..]);
      } else if IsFragment(acts[0]) {
        FragmentsAreSilent(s, [acts[0]]);
        RunOne(s, acts[0]);
        assert [] + Run(s, acts[1..]).1 == Run(s, acts[1..]).1;
        MustBeDisciplined(s, acts[1..]);
      }
    }
  }

  /** The translated events are one complete message exactly when the actions are disciplined. */
  lemma {:induction false} TranscriptIffDisciplined(generated: string, acts: seq<Action>)
    requires forall i :: 0 <= i < |acts| ==> Speaks(acts[i])
    ensures Transcript(Run(EmptyState(generated), acts).1) <==> Disciplined(acts)
  {
    if Disciplined(acts) {
      DisciplinedRun(generated, acts);
    }
    if Transcript(Run(EmptyState(generated), acts).1) {
      MustBeDisciplined(EmptyState(generated), acts);
    }
  }
}
