/**
 Tool calls by the index their fragments carry, as MergeToolCallDeltas of internal/translate/content.go reads
 it, against the order of arrival in which the streaming translators read them (claudeToolDelta,
 emitChatToolsToClaude and emitChatToolsToResponses of internal/translate/reasoning.go).
 */
module CallsByIndex {
  import opened Chat
  import opened ClaudeStream
  import opened ClaudeGrammar
  import opened ClaudeRuns
  import opened Decimal
  import opened Sequences
  import W = ResponsesStream

  // ---------------------------------------------------------------------------------------------
  // A chat stream as pieces
  // ---------------------------------------------------------------------------------------------

  /** One thing a chunk delivers: something said, or an entry of tool_calls with its index. */
  datatype Piece = Say(kind: Kind, payload: string) | Part(t: ToolDelta)

  predicate Told(p: Piece) {
    p.Say? ==> p.kind == Thinking || p.kind == Text
  }

  predicate AllTold(ps: seq<Piece>) {
    forall i :: 0 <= i < |ps| ==> Told(ps[i])
  }

  function PartsOf(ts: seq<ToolDelta>): (ps: seq<Piece>)
    ensures |ps| == |ts| && forall i :: 0 <= i < |ts| ==> ps[i] == Part(ts[i])
  {
    seq(|ts|, i requires 0 <= i < |ts| => Part(ts[i]))
  }

  function ChoicePieces(c: Choice): seq<Piece> {
    SayIf(Thinking, c.reasoning) + SayIf(Text, c.content) + PartsOf(c.tools)
  }

  /** Everything a chat stream delivers, in order. */
  function Pieces(chunks: seq<Chunk>): seq<Piece> {
    if chunks == [] then []
    else (if chunks[0].choice.Some? then ChoicePieces(chunks[0].choice.value) else []) + Pieces(chunks[1..])
  }

  function ActionOf(p: Piece): Action {
    match p
    case Say(kind, payload) => Delta(kind, payload)
    case Part(t) => ToolPart(t.id, t.name, ArgsOf(t))
  }

  function ActionsOf(ps: seq<Piece>): (acts: seq<Action>)
    ensures |acts| == |ps| && forall i :: 0 <= i < |ps| ==> acts[i] == ActionOf(ps[i])
  {
    seq(|ps|, i requires 0 <= i < |ps| => ActionOf(ps[i]))
  }

  /** The tool entries among the pieces. */
  function ToolsOf(ps: seq<Piece>): seq<ToolDelta> {
    if ps == [] then [] else (if ps[0].Part? then [ps[0].t] else []) + ToolsOf(ps[1..])
  }

  lemma {:induction false} ToolsOfAppend(a: seq<Piece>, b: seq<Piece>)
    ensures ToolsOf(a + b) == ToolsOf(a) + ToolsOf(b)
    decreases |a|
  {
    if a == [] {
      assert a + b == b;
    } else {
      assert (a + b)[0] == a[0] && (a + b)[1..] == a[1..] + b;
      ToolsOfAppend(a[1..], b);
    }
  }

  lemma {:induction false} ToolsOfParts(ts: seq<ToolDelta>)
    ensures ToolsOf(PartsOf(ts)) == ts
    decreases |ts|
  {
    if ts != [] {
      assert PartsOf(ts)[1..] == PartsOf(ts[1..]);
      ToolsOfParts(ts[1..]);
      assert ts == [ts[0]] + ts[1..];
    }
  }

  lemma {:induction false} ActionsOfAppend(a: seq<Piece>, b: seq<Piece>)
    ensures ActionsOf(a + b) == ActionsOf(a) + ActionsOf(b)
  {
  }

  function SayIf(kind: Kind, payload: string): seq<Piece> {
    if payload != "" then [Say(kind, payload)] else []
  }

  lemma {:induction false} SayIfTools(kind: Kind, payload: string)
    requires kind == Thinking || kind == Text
    ensures ToolsOf(SayIf(kind, payload)) == [] && AllTold(SayIf(kind, payload))
    ensures ActionsOf(SayIf(kind, payload)) == if payload != "" then [Delta(kind, payload)] else []
  {
    if payload != "" {
      assert [Say(kind, payload)][1..] == [];
    }
  }

  lemma {:induction false} AllToldAppend(a: seq<Piece>, b: seq<Piece>)
    ensures AllTold(a + b) <==> AllTold(a) && AllTold(b)
  {
    if AllTold(a + b) {
      assert forall i :: 0 <= i < |a| ==> a[i] == (a + b)[i];
      assert forall i :: 0 <= i < |b| ==> b[i] == (a + b)[|a| + i];
    }
  }

  lemma {:induction false} PartsAreTools(ts: seq<ToolDelta>)
    ensures ActionsOf(PartsOf(ts)) == ToolActions(ts) && AllTold(PartsOf(ts))
  {
  }

  lemma {:induction false} ChoiceTools(c: Choice)
    ensures ToolsOf(ChoicePieces(c)) == c.tools && AllTold(ChoicePieces(c))
    ensures ActionsOf(ChoicePieces(c)) == BodyPart(c)
  {
    hide ToolsOf, ActionsOf, PartsOf, ToolActions, AllTold;
    var thought, said, parts := SayIf(Thinking, c.reasoning), SayIf(Text, c.content), PartsOf(c.tools);
    SayIfTools(Thinking, c.reasoning);
    SayIfTools(Text, c.content);
    PartsAreTools(c.tools);
    ToolsOfParts(c.tools);
    hide SayIf;
    AllToldAppend(thought + said, parts);
    AllToldAppend(thought, said);
    ToolsOfAppend(thought + said, parts);
    ToolsOfAppend(thought, said);
    ActionsOfAppend(thought + said, parts);
    ActionsOfAppend(thought, said);
    assert [] + [] + c.tools == c.tools;
  }

  /** The pieces of a stream are its body for the Claude translator and hold its tool fragments. */
  lemma {:induction false} StreamPieces(chunks: seq<Chunk>)
    ensures ToolsOf(Pieces(chunks)) == W.Fragments(chunks) && AllTold(Pieces(chunks))
    ensures W.EndsClean(chunks) ==> ActionsOf(Pieces(chunks)) == BodyOf(ChatActions(true, chunks))
    decreases |chunks|
  {
    hide ChoicePieces, BodyPart, ChunkActions, BodyOf, ToolsOf, ActionsOf;
    if chunks == [] {
      NoPieces();
    } else {
      var c, rest := chunks[0], chunks[1..];
      var here := if c.choice.Some? then ChoicePieces(c.choice.value) else [];
      StreamPieces(rest);
      BodyOfChunk(c, ChatActions(true, rest));
      NoPieces();
      ToolsOfAppend(here, Pieces(rest));
      ActionsOfAppend(here, Pieces(rest));
      if c.choice.Some? {
        ChoiceTools(c.choice.value);
        if c.choice.value.finish.Some? && W.EndsClean(chunks) {
          NoChoicesNoPieces(chunks);
          assert BodyPart(c.choice.value) + [] == BodyPart(c.choice.value);
        }
      } else {
        assert [] + BodyOf(ChatActions(true, rest)) == BodyOf(ChatActions(true, rest));
      }
    }
  }

  lemma {:induction false} NoPieces()
    ensures ToolsOf([]) == [] && ActionsOf([]) == []
  {
  }

  lemma {:induction false} NoChoicesNoPieces(chunks: seq<Chunk>)
    requires |chunks| > 0 && forall i :: 0 < i < |chunks| ==> chunks[i].choice.None?
    ensures Pieces(chunks[1..]) == []
    decreases |chunks|
  {
    var rest := chunks[1..];
    if rest != [] {
      assert rest[0] == chunks[1];
      assert forall i :: 0 < i < |rest| ==> rest[i] == chunks[i + 1];
      NoChoicesNoPieces(rest);
    }
  }

  // ---------------------------------------------------------------------------------------------
  // One piece
  // ---------------------------------------------------------------------------------------------

  function MergePiece(ms: seq<W.Merged>, p: Piece): seq<W.Merged> {
    if p.Part? then W.Merge(ms, p.t) else ms
  }

  /** What arrival makes of the calls when the block being filled is, or is not, a tool's. */
  function Arrive(calls: seq<Call>, live: bool, p: Piece, call: Call): seq<Call> {
    if p.Say? then calls
    else if OpensCall(p.t) then calls + [call]
    else if live && calls != [] then calls[|calls| - 1 := calls[|calls| - 1].(args := calls[|calls| - 1].args + ArgsOf(p.t))]
    else calls
  }

  /** The call an opening entry makes; the n-th call without an id is given one. */
  function Opened(n: nat, t: ToolDelta): (c: Call)
    ensures c.id != "" && (t.id != "" ==> c == Call(t.id, t.name, ArgsOf(t)))
  {
    Call(if t.id == "" then "call_" + Itoa(n) else t.id, t.name, ArgsOf(t))
  }

  lemma {:induction false} LiveCases(b: Build, p: Piece)
    requires Told(p)
    ensures InTool(Add(b, ActionOf(p))) == if p.Say? then false else InTool(b) || OpensCall(p.t)
    ensures InTool(b) ==> ToolCalls(b.blocks) != []
  {
    if InTool(b) {
      ToolCallsSnoc(b.blocks[..|b.blocks| - 1], Last(b.blocks));
      assert b.blocks == b.blocks[..|b.blocks| - 1] + [Last(b.blocks)];
    }
    hide ToolCalls;
  }

  /** What one piece does to the calls the blocks hold. */
  lemma {:induction false} BlockCases(b: Build, p: Piece)
    requires Told(p)
    ensures ToolCalls(Add(b, ActionOf(p)).blocks) ==
            Arrive(ToolCalls(b.blocks), InTool(b), p, if p.Part? then Opened(b.named, p.t) else Call("", "", ""))
  {
    LiveCases(b, p);
    AddCallCases(b, ActionOf(p));
    hide ToolCalls, ArgsOf, Add;
    var calls := ToolCalls(b.blocks);
    if p.Part? && !OpensCall(p.t) && calls != [] {
      var last := calls[|calls| - 1];
      assert calls[..|calls| - 1] + [last.(args := last.args + ArgsOf(p.t))]
          == calls[|calls| - 1 := last.(args := last.args + ArgsOf(p.t))];
      assert last.args + "" == last.args;
    }
  }

  /** What one piece does to the merged calls. */
  lemma {:induction false} MergeCases(ms: seq<W.Merged>, t: ToolDelta)
    ensures var ms' := W.Merge(ms, t);
            if t.index.None? || t.index.value < 0 then ms' == ms + [W.Merged(t.id, t.name, t.args)]
            else
              var i := t.index.value;
              if i < |ms| then ms' == ms[i := W.Update(ms[i], t)]
              else if i == |ms| then ms' == ms + [W.Update(W.BLANK, t)]
              else |ms'| == i + 1
  {
    hide W.Update;
    if t.index.Some? && t.index.value == |ms| {
      W.PadCases(ms);
      assert (ms + [W.BLANK])[|ms| := W.Update(W.BLANK, t)] == ms + [W.Update(W.BLANK, t)];
    } else if t.index.Some? && 0 <= t.index.value < |ms| {
      assert W.Pad(ms, t.index.value + 1) == ms;
    }
  }

  /** No merged call came without arguments. */
  predicate Argued(ms: seq<W.Merged>) {
    forall i :: 0 <= i < |ms| ==> ms[i].args.Some?
  }

  ghost predicate Agree(b: Build, ms: seq<W.Merged>) {
    ToolCalls(b.blocks) == W.AsCalls(ms)
  }

  // ---------------------------------------------------------------------------------------------
  // At every moment
  // ---------------------------------------------------------------------------------------------

  /**
   With m calls opened so far, the next entry does the same by index and by arrival: it opens the next call
   with an id, or says nothing for a call already opened, or adds to the last call, whose block is being filled.
   */
  predicate InPlace(m: nat, live: bool, t: ToolDelta) {
    if OpensCall(t) then
      t.id != "" && if t.index.None? || t.index.value < 0 then t.args.Some? else t.index.value == m
    else if ArgsOf(t) == "" then t.index.Some? && 0 <= t.index.value < m
    else live && t.index == Some(m - 1)
  }

  predicate Straight(m: nat, live: bool, ps: seq<Piece>)
    decreases |ps|
  {
    ps == [] ||
    match ps[0]
    case Say(_, _) => Straight(m, false, ps[1..])
    case Part(t) => InPlace(m, live, t) && Straight(if OpensCall(t) then m + 1 else m, live || OpensCall(t), ps[1..])
  }

  /** After every piece the blocks hold the calls as merging by index has them. */
  ghost predicate AgreeThroughout(b: Build, ms: seq<W.Merged>, ps: seq<Piece>)
    decreases |ps|
  {
    Agree(b, ms) && (ps == [] || AgreeThroughout(Add(b, ActionOf(ps[0])), MergePiece(ms, ps[0]), ps[1..]))
  }

  lemma {:induction false} OpeningStep(calls: seq<Call>, ms: seq<W.Merged>, n: nat, t: ToolDelta)
    requires calls == W.AsCalls(ms) && Argued(ms) && OpensCall(t)
    ensures calls + [Opened(n, t)] == W.AsCalls(W.Merge(ms, t)) <==> InPlace(|ms|, true, t)
    ensures InPlace(|ms|, true, t) ==> Argued(W.Merge(ms, t)) && |W.Merge(ms, t)| == |ms| + 1
  {
    MergeCases(ms, t);
    hide W.Merge, Itoa;
    var ms' := W.Merge(ms, t);
    assert "" + ArgsOf(t) == ArgsOf(t);
    if |ms'| == |ms| + 1 && ms'[..|ms|] == ms {
      CallsGrow(ms, ms', Opened(n, t));
    }
  }

  lemma {:induction false} CallsGrow(ms: seq<W.Merged>, ms': seq<W.Merged>, c: Call)
    requires |ms'| == |ms| + 1 && ms'[..|ms|] == ms
    ensures W.AsCalls(ms) + [c] == W.AsCalls(ms') <==> W.AsCall(ms'[|ms|]) == c
  {
    assert ms' == ms + [ms'[|ms|]];
    assert W.AsCalls(ms') == W.AsCalls(ms) + [W.AsCall(ms'[|ms|])];
    assert (W.AsCalls(ms) + [c])[|ms|] == c;
  }

  lemma {:induction false} FragmentStep(calls: seq<Call>, ms: seq<W.Merged>, live: bool, t: ToolDelta)
    requires calls == W.AsCalls(ms) && Argued(ms) && !OpensCall(t) && (live ==> calls != [])
    ensures Arrive(calls, live, Part(t), Call("", "", "")) == W.AsCalls(W.Merge(ms, t)) <==> InPlace(|ms|, live, t)
    ensures InPlace(|ms|, live, t) ==> Argued(W.Merge(ms, t)) && |W.Merge(ms, t)| == |ms|
  {
    MergeCases(ms, t);
    hide W.Merge;
    var ms', out := W.Merge(ms, t), Arrive(calls, live, Part(t), Call("", "", ""));
    if t.index.Some? && 0 <= t.index.value < |ms| {
      var i, n := t.index.value, |ms| - 1;
      assert W.AsCalls(ms')[i].args == calls[i].args + ArgsOf(t);
      assert |W.AsCalls(ms')[i].args| == |calls[i].args| + |ArgsOf(t)|;
      assert i != n || !live ==> out[i].args == calls[i].args;
      if ArgsOf(t) == "" {
        assert calls[n].args + "" == calls[n].args;
        assert W.Update(ms[i], t) == ms[i];
      }
      if i == n && live {
        assert out == W.AsCalls(ms');
      }
    }
  }

  lemma {:induction false} PieceStep(b: Build, ms: seq<W.Merged>, p: Piece)
    requires Agree(b, ms) && Argued(ms) && Told(p)
    ensures var b', ms' := Add(b, ActionOf(p)), MergePiece(ms, p);
            && InTool(b') == (if p.Say? then false else InTool(b) || OpensCall(p.t))
            && (Agree(b', ms') <==> p.Say? || InPlace(|ms|, InTool(b), p.t))
            && (Agree(b', ms') ==> Argued(ms') && |ms'| == |ms| + if p.Part? && OpensCall(p.t) then 1 else 0)
  {
    hide ToolCalls, Add, InPlace, W.AsCalls, W.Merge, Argued, Opened;
    LiveCases(b, p);
    BlockCases(b, p);
    if p.Part? {
      var calls := ToolCalls(b.blocks);
      if OpensCall(p.t) {
        OpeningStep(calls, ms, b.named, p.t);
        OpeningLiveOrNot(|ms|, InTool(b), p.t);
      } else {
        FragmentStep(calls, ms, InTool(b), p.t);
        if InTool(b) {
          assert Arrive(calls, true, p, Opened(b.named, p.t)) == Arrive(calls, true, p, Call("", "", ""));
        }
      }
    }
  }

  lemma {:induction false} OpeningLiveOrNot(m: nat, live: bool, t: ToolDelta)
    requires OpensCall(t)
    ensures InPlace(m, live, t) == InPlace(m, true, t)
  {
  }

  /** The blocks and the index agree at every moment exactly when every entry is in place when it comes. */
  lemma {:induction false} ThroughoutIffStraight(b: Build, ms: seq<W.Merged>, ps: seq<Piece>)
    requires Agree(b, ms) && Argued(ms) && AllTold(ps)
    ensures AgreeThroughout(b, ms, ps) <==> Straight(|ms|, InTool(b), ps)
    decreases |ps|
  {
    hide Agree, Argued, InTool, InPlace, Add, MergePiece, Told;
    if ps != [] {
      assert Told(ps[0]);
      PieceStep(b, ms, ps[0]);
      var b', ms' := Add(b, ActionOf(ps[0])), MergePiece(ms, ps[0]);
      if Agree(b', ms') {
        ThroughoutIffStraight(b', ms', ps[1..]);
      }
    }
  }

  /** After the first n pieces the blocks hold the calls as merging by index has them. */
  ghost predicate AgreeAfter(b: Build, ms: seq<W.Merged>, ps: seq<Piece>, n: nat)
    requires n <= |ps|
  {
    Agree(AddAll(b, ActionsOf(ps[..n])), W.MergeAll(ms, ToolsOf(ps[..n])))
  }

  lemma {:induction false} AgreeAfterFirst(b: Build, ms: seq<W.Merged>, ps: seq<Piece>, n: nat)
    requires 0 < n <= |ps|
    ensures AgreeAfter(b, ms, ps, n) <==> AgreeAfter(Add(b, ActionOf(ps[0])), MergePiece(ms, ps[0]), ps[1..], n - 1)
  {
    hide Agree, Add, MergePiece, ToolsOf, ActionsOf, AddAll;
    assert ps[..n] == [ps[0]] + ps[1..][..n - 1];
    DeliverFirst(b, ms, ps[0], ps[1..][..n - 1]);
  }

  /** At every moment means after every number of pieces. */
  lemma {:induction false} ThroughoutIsEveryPrefix(b: Build, ms: seq<W.Merged>, ps: seq<Piece>)
    ensures AgreeThroughout(b, ms, ps) <==> forall n :: 0 <= n <= |ps| ==> AgreeAfter(b, ms, ps, n)
    decreases |ps|
  {
    assert AgreeAfter(b, ms, ps, 0) <==> Agree(b, ms) by {
      assert ps[..0] == [];
      NothingDelivered(b, ms);
    }
    hide Agree, Add, MergePiece, AgreeAfter;
    if ps != [] {
      var b', ms', rest := Add(b, ActionOf(ps[0])), MergePiece(ms, ps[0]), ps[1..];
      ThroughoutIsEveryPrefix(b', ms', rest);
      forall n | 0 < n <= |ps|
        ensures AgreeAfter(b, ms, ps, n) <==> AgreeAfter(b', ms', rest, n - 1)
      {
        AgreeAfterFirst(b, ms, ps, n);
      }
      forall n | 0 <= n <= |rest|
        ensures AgreeAfter(b', ms', rest, n) <==> AgreeAfter(b, ms, ps, n + 1)
      {
        AgreeAfterFirst(b, ms, ps, n + 1);
      }
    }
  }

  lemma {:induction false} NothingDelivered(b: Build, ms: seq<W.Merged>)
    ensures AddAll(b, ActionsOf([])) == b && W.MergeAll(ms, ToolsOf([])) == ms
  {
  }

  lemma {:induction false} DeliverFirst(b: Build, ms: seq<W.Merged>, p: Piece, rest: seq<Piece>)
    ensures AddAll(b, ActionsOf([p] + rest)) == AddAll(Add(b, ActionOf(p)), ActionsOf(rest))
    ensures W.MergeAll(ms, ToolsOf([p] + rest)) == W.MergeAll(MergePiece(ms, p), ToolsOf(rest))
  {
    hide Add, W.Merge;
    assert ([p] + rest)[1..] == rest;
    assert ActionsOf([p] + rest)[1..] == ActionsOf(rest);
    if p.Part? {
      W.MergeAllAppend(ms, [p.t], ToolsOf(rest));
      assert [p.t][..0] == [];
    } else {
      assert [] + ToolsOf(rest) == ToolsOf(rest);
    }
  }

  // ---------------------------------------------------------------------------------------------
  // In the end
  // ---------------------------------------------------------------------------------------------

  /** Each call opens with an id at the next index, and every other entry names a call already opened. */
  predicate Named(m: nat, ts: seq<ToolDelta>)
    decreases |ts|
  {
    ts == [] || (NamesCall(m, ts[0]) && Named(if OpensCall(ts[0]) then m + 1 else m, ts[1..]))
  }

  predicate NamesCall(m: nat, t: ToolDelta) {
    t.index.Some? && if OpensCall(t) then t.id != "" && t.index.value == m else 0 <= t.index.value < m
  }

  /** Every argument fragment carries the index of the last call opened, and nothing was said since. */
  predicate ToLast(m: nat, live: bool, ps: seq<Piece>)
    decreases |ps|
  {
    ps == [] ||
    match ps[0]
    case Say(_, _) => ToLast(m, false, ps[1..])
    case Part(t) =>
      (OpensCall(t) || ArgsOf(t) == "" || (live && t.index == Some(m - 1))) &&
      ToLast(if OpensCall(t) then m + 1 else m, live || OpensCall(t), ps[1..])
  }

  /** How many calls can grow no more. */
  function Frozen(b: Build): int {
    |ToolCalls(b.blocks)| - if InTool(b) then 1 else 0
  }

  /** A call that can grow no more is short of arguments. */
  ghost predicate Short(b: Build, ms: seq<W.Merged>, j: nat) {
    && |ToolCalls(b.blocks)| == |ms| && Argued(ms) && j < Frozen(b) && j < |ms|
    && |ToolCalls(b.blocks)[j].args| < |ms[j].args.value|
  }

  /** Merging a named entry lengthens the arguments of its own call and shortens none. */
  lemma {:induction false} NamedMerge(ms: seq<W.Merged>, t: ToolDelta)
    requires Argued(ms) && NamesCall(|ms|, t)
    ensures var ms' := W.Merge(ms, t);
            && Argued(ms') && |ms'| == |ms| + (if OpensCall(t) then 1 else 0)
            && (forall i :: 0 <= i < |ms| ==> |ms'[i].args.value| >= |ms[i].args.value|)
            && (!OpensCall(t) && ArgsOf(t) != "" ==>
                  |ms'[t.index.value].args.value| > |ms[t.index.value].args.value|)
  {
    MergeCases(ms, t);
  }

  lemma {:induction false} ShortStays(b: Build, ms: seq<W.Merged>, j: nat, p: Piece)
    requires Short(b, ms, j) && Told(p) && (p.Part? ==> NamesCall(|ms|, p.t))
    ensures Short(Add(b, ActionOf(p)), MergePiece(ms, p), j)
  {
    LiveCases(b, p);
    BlockCases(b, p);
    if p.Part? {
      NamedMerge(ms, p.t);
    }
    hide ToolCalls, Add, W.Merge, InTool, Opened, NamesCall;
  }

  lemma {:induction false} ShortDisagrees(b: Build, ms: seq<W.Merged>, j: nat)
    requires Short(b, ms, j)
    ensures !Agree(b, ms) && Argued(ms)
  {
    hide ToolCalls, InTool;
    assert Agree(b, ms) ==> ToolCalls(b.blocks)[j] == W.AsCall(ms[j]);
  }

  /** Taking the first piece of a named stream. */
  lemma {:induction false} NamedFirst(b: Build, ms: seq<W.Merged>, ps: seq<Piece>)
    requires |ps| > 0 && Argued(ms) && Named(|ms|, ToolsOf(ps))
    ensures var p := ps[0];
            && (p.Part? ==> NamesCall(|ms|, p.t))
            && Argued(MergePiece(ms, p)) && Named(|MergePiece(ms, p)|, ToolsOf(ps[1..]))
            && AddAll(b, ActionsOf(ps)) == AddAll(Add(b, ActionOf(p)), ActionsOf(ps[1..]))
            && W.MergeAll(ms, ToolsOf(ps)) == W.MergeAll(MergePiece(ms, p), ToolsOf(ps[1..]))
  {
    hide Add, NamesCall, W.Merge, W.MergeAll, AddAll;
    assert ps == [ps[0]] + ps[1..];
    DeliverFirst(b, ms, ps[0], ps[1..]);
    if ps[0].Part? {
      assert ToolsOf(ps)[0] == ps[0].t && ToolsOf(ps)[1..] == ToolsOf(ps[1..]);
      NamedMerge(ms, ps[0].t);
    } else {
      assert ToolsOf(ps) == ToolsOf(ps[1..]);
    }
  }

  lemma {:induction false} ShortToTheEnd(b: Build, ms: seq<W.Merged>, j: nat, ps: seq<Piece>)
    requires Short(b, ms, j) && AllTold(ps) && Named(|ms|, ToolsOf(ps))
    ensures !Agree(AddAll(b, ActionsOf(ps)), W.MergeAll(ms, ToolsOf(ps)))
    decreases |ps|
  {
    hide Short, Add, NamesCall, W.MergeAll, MergePiece, Told;
    ShortDisagrees(b, ms, j);
    if ps == [] {
      NothingDelivered(b, ms);
    } else {
      assert Told(ps[0]);
      NamedFirst(b, ms, ps);
      ShortStays(b, ms, j, ps[0]);
      ShortToTheEnd(Add(b, ActionOf(ps[0])), MergePiece(ms, ps[0]), j, ps[1..]);
    }
  }

  /** An entry that names an opened call but is not for the last one leaves its own call short for good. */
  lemma {:induction false} MisplacedFallsShort(b: Build, ms: seq<W.Merged>, t: ToolDelta)
    requires Agree(b, ms) && Argued(ms) && NamesCall(|ms|, t) && !OpensCall(t) && ArgsOf(t) != ""
    requires !(InTool(b) && t.index == Some(|ms| - 1))
    ensures Short(Add(b, ActionOf(Part(t))), W.Merge(ms, t), t.index.value)
  {
    LiveCases(b, Part(t));
    BlockCases(b, Part(t));
    NamedMerge(ms, t);
    hide ToolCalls, Add, W.Merge, InTool, ArgsOf;
    var j := t.index.value;
    assert ToolCalls(b.blocks)[j] == W.AsCall(ms[j]);
  }

  lemma {:induction false} PlacedIsInPlace(m: nat, live: bool, t: ToolDelta)
    requires NamesCall(m, t)
    ensures InPlace(m, live, t) <==> OpensCall(t) || ArgsOf(t) == "" || (live && t.index == Some(m - 1))
  {
  }

  /** For a named stream the calls agree in the end exactly when every argument fragment is for the last call. */
  lemma {:induction false} AgreeInTheEnd(b: Build, ms: seq<W.Merged>, ps: seq<Piece>)
    requires Agree(b, ms) && Argued(ms) && AllTold(ps) && Named(|ms|, ToolsOf(ps))
    ensures Agree(AddAll(b, ActionsOf(ps)), W.MergeAll(ms, ToolsOf(ps))) <==> ToLast(|ms|, InTool(b), ps)
    decreases |ps|
  {
    hide Agree, Argued, InTool, InPlace, Add, W.Merge, NamesCall, W.MergeAll, AddAll, Named, Short;
    if ps == [] {
      NothingDelivered(b, ms);
    } else {
      var p := ps[0];
      assert Told(p);
      NamedFirst(b, ms, ps);
      PieceStep(b, ms, p);
      if p.Part? {
        PlacedIsInPlace(|ms|, InTool(b), p.t);
      }
      var b', ms' := Add(b, ActionOf(p)), MergePiece(ms, p);
      if Agree(b', ms') {
        AgreeInTheEnd(b', ms', ps[1..]);
      } else {
        OpeningsArePlaced(|ms|, InTool(b), p.t);
        MisplacedFallsShort(b, ms, p.t);
        ShortToTheEnd(b', ms', p.t.index.value, ps[1..]);
      }
    }
  }

  lemma {:induction false} OpeningsArePlaced(m: nat, live: bool, t: ToolDelta)
    requires NamesCall(m, t)
    ensures t.index.Some? && t.index.value >= 0
  {
  }

  /**
   For a chat stream with one terminal chunk whose calls open with an id at the next index and whose other
   entries name a call already opened: the tool blocks hold each call with exactly the fragments of its index
   if and only if every argument fragment carries the index of the last call opened and nothing was said since.
   */
  lemma {:induction false} BlocksHoldCallsByIndex(chunks: seq<Chunk>)
    requires W.EndsClean(chunks) && Named(0, W.Fragments(chunks))
    ensures ToolCalls(Final(BlocksOf(ChatActions(true, chunks)))) == W.AsCalls(W.MergeAll([], W.Fragments(chunks)))
            <==> ToLast(0, false, Pieces(chunks))
  {
    hide ToLast, W.MergeAll, AddAll, Named, BodyOf, ChatActions;
    StreamPieces(chunks);
    NothingYet();
    AgreeInTheEnd(Build([], 0), [], Pieces(chunks));
    FinalCalls(BlocksOf(ChatActions(true, chunks)));
  }

  /** A stream of openings alone has no fragment out of place. */
  lemma {:induction false} OpeningsAlone(m: nat, live: bool, ps: seq<Piece>)
    requires forall t :: t in ToolsOf(ps) ==> OpensCall(t)
    ensures ToLast(m, live, ps)
    decreases |ps|
  {
    if ps != [] {
      assert ps[0].Part? ==> ToolsOf(ps)[0] == ps[0].t;
      assert forall t :: t in ToolsOf(ps[1..]) ==> t in ToolsOf(ps);
      match ps[0]
      case Say(_, _) => OpeningsAlone(m, false, ps[1..]);
      case Part(t) => OpeningsAlone(if OpensCall(t) then m + 1 else m, live || OpensCall(t), ps[1..]);
    }
  }

  /** At most one entry, opening the first call. */
  lemma {:induction false} FewAreNamed(ts: seq<ToolDelta>)
    requires |ts| <= 1 && W.Orderly(ts)
    ensures Named(0, ts) && forall t :: t in ts ==> OpensCall(t)
  {
    if ts != [] {
      assert ts[..0] == [] && ts[1..] == [];
    }
  }

  lemma {:induction false} NothingYet()
    ensures Agree(Build([], 0), []) && !InTool(Build([], 0)) && Argued([])
  {
  }

  /** The empty text block of a message without blocks is no call. */
  lemma {:induction false} FinalCalls(blocks: seq<Block>)
    ensures ToolCalls(Final(blocks)) == ToolCalls(blocks)
  {
    ToolCallsSnoc([], Block(TextHead, []));
    assert [] + [Block(TextHead, [])] == [Block(TextHead, [])];
  }

  /** At every moment of any chat stream: the same, with no condition on how its calls open. */
  lemma {:induction false} BlocksFollowIndex(chunks: seq<Chunk>)
    ensures var ps := Pieces(chunks);
            (forall n :: 0 <= n <= |ps| ==> AgreeAfter(Build([], 0), [], ps, n)) <==> Straight(0, false, ps)
  {
    hide Straight, AgreeAfter, Agree, Pieces;
    StreamPieces(chunks);
    NothingYet();
    ThroughoutIsEveryPrefix(Build([], 0), [], Pieces(chunks));
    ThroughoutIffStraight(Build([], 0), [], Pieces(chunks));
  }

  // ---------------------------------------------------------------------------------------------
  // The Responses stream
  // ---------------------------------------------------------------------------------------------

  /** What the Responses translator makes of a call's fragments is what the Claude blocks hold when nothing is said. */
  lemma {:induction false} StreamedLikeBlocks(s: State, b: Build, ts: seq<ToolDelta>)
    requires s.tools == ToolCalls(b.blocks) && s.toolIndex == b.named && (InTool(b) <==> s.tools != [])
    ensures var s', b' := W.ToolSteps(s, ts).0, AddAll(b, ActionsOf(PartsOf(ts)));
            s'.tools == ToolCalls(b'.blocks) && s'.toolIndex == b'.named && (InTool(b') <==> s'.tools != [])
    decreases |ts|
  {
    hide Add, ToolCalls, W.ToolStep, InTool;
    if ts == [] {
      NothingDelivered(b, []);
      assert PartsOf(ts) == [];
    } else {
      var front, t := ts[..|ts| - 1], ts[|ts| - 1];
      StreamedLikeBlocks(s, b, front);
      var acts := ActionsOf(PartsOf(front));
      assert ActionsOf(PartsOf(ts)) == acts + [ActionOf(Part(t))];
      AddAllAppend(b, acts, [ActionOf(Part(t))]);
      AddAllOne(AddAll(b, acts), ActionOf(Part(t)));
      StreamedStep(W.ToolSteps(s, front).0, AddAll(b, acts), t);
    }
  }

  lemma {:induction false} StreamedStep(s: State, b: Build, t: ToolDelta)
    requires s.tools == ToolCalls(b.blocks) && s.toolIndex == b.named && (InTool(b) <==> s.tools != [])
    ensures var s', b' := W.ToolStep(s, t).0, Add(b, ActionOf(Part(t)));
            s'.tools == ToolCalls(b'.blocks) && s'.toolIndex == b'.named && (InTool(b') <==> s'.tools != [])
  {
    LiveCases(b, Part(t));
    BlockCases(b, Part(t));
    AddCallCases(b, ActionOf(Part(t)));
    hide ToolCalls, Add, InTool;
    if !OpensCall(t) && ArgsOf(t) == "" && s.tools != [] {
      assert s.tools[|s.tools| - 1].args + "" == s.tools[|s.tools| - 1].args;
    }
  }

  /** The streamed calls are the calls by index exactly when every argument fragment carries the last call's index. */
  lemma {:induction false} StreamedCallsByIndex(ts: seq<ToolDelta>)
    requires Named(0, ts)
    ensures W.StreamCalls(ts) == W.AsCalls(W.MergeAll([], ts)) <==> ToLast(0, false, PartsOf(ts))
  {
    hide ToLast, W.MergeAll, AddAll, Named, W.ToolSteps;
    NothingYet();
    PartsAreTools(ts);
    ToolsOfParts(ts);
    StreamedLikeBlocks(EmptyState(""), Build([], 0), ts);
    AgreeInTheEnd(Build([], 0), [], PartsOf(ts));
  }

  /** Both forms have one call for each opening. */
  lemma {:induction false} NamedSizes(b: Build, ms: seq<W.Merged>, ps: seq<Piece>)
    requires |ToolCalls(b.blocks)| == |ms| && Argued(ms) && AllTold(ps) && Named(|ms|, ToolsOf(ps))
    ensures |ToolCalls(AddAll(b, ActionsOf(ps)).blocks)| == |W.MergeAll(ms, ToolsOf(ps))|
    ensures |W.MergeAll(ms, ToolsOf(ps))| >= |ms| && (ToolsOf(ps) != [] ==> |W.MergeAll(ms, ToolsOf(ps))| > 0)
    decreases |ps|
  {
    hide Add, ToolCalls, W.Merge, W.MergeAll, AddAll, NamesCall, Argued, ToolsOf, ActionsOf;
    if ps == [] {
      NothingDelivered(b, ms);
      NoPieces();
    } else {
      var p := ps[0];
      assert Told(p);
      NamedFirst(b, ms, ps);
      LiveCases(b, p);
      BlockCases(b, p);
      if p.Part? {
        NamedMerge(ms, p.t);
        SomeCall(|ms|, p.t);
      } else {
        SaysNoTools(ps);
      }
      NamedSizes(Add(b, ActionOf(p)), MergePiece(ms, p), ps[1..]);
    }
  }

  lemma {:induction false} SomeCall(m: nat, t: ToolDelta)
    requires NamesCall(m, t)
    ensures OpensCall(t) || m > 0
  {
  }

  lemma {:induction false} SaysNoTools(ps: seq<Piece>)
    requires |ps| > 0 && ps[0].Say?
    ensures ToolsOf(ps) == ToolsOf(ps[1..])
  {
  }

  lemma {:induction false} SameTail(reasoning: string, text: string, calls: seq<Call>, m: W.ChatMessage)
    requires m.reasoning == reasoning && |calls| == |m.calls|
    requires m.content == if m.calls != [] then None else Some(text)
    ensures W.Output(reasoning, text, calls) == W.WholeOutput(m)
            <==> calls == W.AsCalls(m.calls) && (text == "") != (calls == [])
  {
    var a, d, n := W.Output(reasoning, text, calls), W.WholeOutput(m), |calls|;
    assert a[|a| - n..] == W.CallItems(calls) && d[|d| - n..] == W.CallItems(W.AsCalls(m.calls));
    SameItemsSameCalls(calls, W.AsCalls(m.calls));
    if calls == W.AsCalls(m.calls) {
      W.OutputsDiffer(reasoning, text, calls, m);
    }
  }

  lemma {:induction false} SameItemsSameCalls(a: seq<Call>, c: seq<Call>)
    ensures W.CallItems(a) == W.CallItems(c) <==> a == c
  {
    forall i | 0 <= i < |a| && i < |c|
      ensures W.CallItems(a)[i] == W.CallItems(c)[i] <==> a[i] == c[i]
    {
    }
  }

  /**
   Stream and collected message agree on the output of a named stream exactly when it has text or calls but
   not both, and every argument fragment carries the index of the last call opened.
   */
  lemma {:induction false} StreamAgreesByIndex(generated: string, chunks: seq<Chunk>)
    requires W.EndsClean(chunks) && Named(0, W.Fragments(chunks))
    ensures W.CompletedOutput(W.Chunks(EmptyState(generated), chunks).1)
            == Some(W.WholeOutput(W.MessageOf(W.CollectAll(W.NOTHING, chunks))))
            <==> (W.Texts(chunks) == "") != (W.Fragments(chunks) == []) && ToLast(0, false, PartsOf(W.Fragments(chunks)))
  {
    hide W.Chunks, W.CollectAll, W.ToolSteps, W.MergeAll, W.CompletedOutput, ToLast, Named, AddAll;
    hide W.Output, W.WholeOutput, W.Texts, W.Reasonings, W.Fragments;
    var frags := W.Fragments(chunks);
    W.ToolStepsNothing();
    W.StreamedOutput(EmptyState(generated), [], chunks);
    W.CollectedAll(W.NOTHING, [], chunks);
    assert [] + frags == frags;
    assert "" + W.Texts(chunks) == W.Texts(chunks) && "" + W.Reasonings(chunks) == W.Reasonings(chunks);
    StreamedCallsByIndex(frags);
    NothingYet();
    PartsAreTools(frags);
    ToolsOfParts(frags);
    StreamedLikeBlocks(EmptyState(""), Build([], 0), frags);
    NamedSizes(Build([], 0), [], PartsOf(frags));
    SameTail(W.Reasonings(chunks), W.Texts(chunks), W.StreamCalls(frags), W.MessageOf(W.CollectAll(W.NOTHING, chunks)));
  }

  // ---------------------------------------------------------------------------------------------
  // Concrete streams
  // ---------------------------------------------------------------------------------------------

  function Open(index: nat, id: string): Piece {
    Part(ToolDelta(Some(index), id, "", Some("")))
  }

  function Fragment(index: nat, args: string): Piece {
    Part(ToolDelta(Some(index), "", "", Some(args)))
  }

  /** One more opening entry at the front of a concrete stream. */
  lemma {:induction false} DeliverOpen(b: Build, index: nat, id: string, rest: seq<Piece>)
    requires id != ""
    ensures var b' := Add(b, ActionOf(Open(index, id)));
            && AddAll(b, ActionsOf([Open(index, id)] + rest)) == AddAll(b', ActionsOf(rest))
            && InTool(b') && ToolCalls(b'.blocks) == ToolCalls(b.blocks) + [Call(id, "", "")]
  {
    DeliverFirst(b, [], Open(index, id), rest);
    LiveCases(b, Open(index, id));
    BlockCases(b, Open(index, id));
    hide ToolCalls, Add, AddAll;
  }

  /** One more fragment, while the last call's block is being filled. */
  lemma {:induction false} DeliverFragment(b: Build, index: nat, args: string, rest: seq<Piece>)
    requires args != "" && InTool(b)
    ensures var b', calls := Add(b, ActionOf(Fragment(index, args))), ToolCalls(b.blocks); var n := |calls| - 1;
            && AddAll(b, ActionsOf([Fragment(index, args)] + rest)) == AddAll(b', ActionsOf(rest))
            && InTool(b') && n >= 0 && ToolCalls(b'.blocks) == calls[n := calls[n].(args := calls[n].args + args)]
  {
    DeliverFirst(b, [], Fragment(index, args), rest);
    LiveCases(b, Fragment(index, args));
    BlockCases(b, Fragment(index, args));
    hide ToolCalls, Add, AddAll;
  }

  lemma {:induction false} DeliverMerged(ms: seq<W.Merged>, p: Piece, rest: seq<Piece>)
    requires p.Part?
    ensures W.MergeAll(ms, ToolsOf([p] + rest)) == W.MergeAll(W.Merge(ms, p.t), ToolsOf(rest))
  {
    DeliverFirst(Build([], 0), ms, p, rest);
  }

  lemma {:induction false} LateBlocks(a: string, c: string, args: string)
    requires a != "" && c != "" && args != ""
    ensures ToolCalls(AddAll(Build([], 0), ActionsOf([Open(0, a), Open(1, c), Fragment(0, args)])).blocks)
            == [Call(a, "", ""), Call(c, "", args)]
  {
    hide Add, AddAll, ActionsOf;
    var b0 := Build([], 0);
    var b1 := Add(b0, ActionOf(Open(0, a)));
    var b2 := Add(b1, ActionOf(Open(1, c)));
    assert [Open(0, a), Open(1, c), Fragment(0, args)] == [Open(0, a)] + ([Open(1, c)] + ([Fragment(0, args)] + []));
    DeliverOpen(b0, 0, a, [Open(1, c)] + ([Fragment(0, args)] + []));
    assert ToolCalls(b1.blocks) == [Call(a, "", "")];
    DeliverOpen(b1, 1, c, [Fragment(0, args)] + []);
    assert ToolCalls(b2.blocks) == [Call(a, "", ""), Call(c, "", "")];
    assert "" + args == args;
    DeliverFragment(b2, 0, args, []);
    NothingDelivered(Add(b2, ActionOf(Fragment(0, args))), []);
  }

  lemma {:induction false} LateMerged(a: string, c: string, args: string)
    requires a != "" && c != "" && args != ""
    ensures W.MergeAll([], ToolsOf([Open(0, a), Open(1, c), Fragment(0, args)]))
            == [W.Merged(a, "", Some(args)), W.Merged(c, "", Some(""))]
  {
    hide W.Merge, W.MergeAll, ToolsOf;
    var p0, p1, p2 := Open(0, a), Open(1, c), Fragment(0, args);
    assert [p0, p1, p2] == [p0] + ([p1] + ([p2] + []));
    DeliverMerged([], p0, [p1] + ([p2] + []));
    MergeCases([], p0.t);
    assert W.Merge([], p0.t) == [W.Merged(a, "", Some(""))];
    DeliverMerged([W.Merged(a, "", Some(""))], p1, [p2] + []);
    MergeCases([W.Merged(a, "", Some(""))], p1.t);
    var m2 := [W.Merged(a, "", Some("")), W.Merged(c, "", Some(""))];
    assert W.Merge([W.Merged(a, "", Some(""))], p1.t) == m2;
    DeliverMerged(m2, p2, []);
    MergeCases(m2, p2.t);
    assert "" + args == args;
    assert W.Merge(m2, p2.t) == [W.Merged(a, "", Some(args)), W.Merged(c, "", Some(""))];
    NothingDelivered(Build([], 0), W.Merge(m2, p2.t));
  }

  lemma {:induction false} LateIsNamed(a: string, c: string, args: string)
    requires a != "" && c != "" && args != ""
    ensures var ps := [Open(0, a), Open(1, c), Fragment(0, args)];
            Named(0, ToolsOf(ps)) && !ToLast(0, false, ps)
  {
    var p0, p1, p2 := Open(0, a), Open(1, c), Fragment(0, args);
    var ps, ts := [p0, p1, p2], [p0.t, p1.t, p2.t];
    hide ToolsOf;
    ToolsOfParts(ts);
    assert ps == PartsOf(ts);
    assert ps[1..] == [p1, p2] && [p1, p2][1..] == [p2];
    assert ts[1..] == [p1.t, p2.t] && [p1.t, p2.t][1..] == [p2.t] && [p2.t][1..] == [];
    assert !ToLast(2, true, [p2]);
    assert !ToLast(1, true, [p1, p2]);
    assert NamesCall(2, p2.t) && Named(2, [p2.t]);
    assert NamesCall(1, p1.t) && Named(1, [p1.t, p2.t]);
  }

  /** Two calls open, then arguments come for the first: they go into the block of the second. */
  lemma {:induction false} LateArgumentsGoToTheLastCall(a: string, c: string, args: string)
    requires a != "" && c != "" && args != ""
    ensures var ps := [Open(0, a), Open(1, c), Fragment(0, args)];
            && Named(0, ToolsOf(ps)) && !ToLast(0, false, ps)
            && ToolCalls(AddAll(Build([], 0), ActionsOf(ps)).blocks) == [Call(a, "", ""), Call(c, "", args)]
            && W.AsCalls(W.MergeAll([], ToolsOf(ps))) == [Call(a, "", args), Call(c, "", "")]
  {
    hide AddAll, W.MergeAll, ActionsOf, ToolsOf, Named, ToLast;
    LateIsNamed(a, c, args);
    LateBlocks(a, c, args);
    LateMerged(a, c, args);
    assert W.AsCalls([W.Merged(a, "", Some(args)), W.Merged(c, "", Some(""))]) == [Call(a, "", args), Call(c, "", "")];
  }

  /** A call opens in one chunk; the next, which ends the stream, says something and then brings the call's arguments. */
  function StrayStream(a: string, said: string, args: string): seq<Chunk> {
    [Chunk("", Some(Choice("", "", [Open(0, a).t], None))),
     Chunk("", Some(Choice("", said, [Fragment(0, args).t], Some("tool_calls"))))]
  }

  lemma {:induction false} StrayPieces(a: string, said: string, args: string)
    requires said != ""
    ensures Pieces(StrayStream(a, said, args)) == [Open(0, a), Say(Text, said), Fragment(0, args)]
    ensures W.EndsClean(StrayStream(a, said, args))
  {
    var open, late := Open(0, a), Fragment(0, args);
    var chunks := StrayStream(a, said, args);
    var c1, c2 := chunks[0], chunks[1];
    assert chunks[1..] == [c2] && [c2][1..] == [];
    assert PartsOf([open.t]) == [open] && PartsOf([late.t]) == [late];
    assert ChoicePieces(c1.choice.value) == [open];
    assert ChoicePieces(c2.choice.value) == [Say(Text, said), late];
    hide ChoicePieces;
    assert Pieces([]) == [] && Pieces([c2]) == [Say(Text, said), late] + [];
  }

  lemma {:induction false} StrayTools(a: string, said: string, args: string)
    requires a != ""
    ensures var ts := ToolsOf([Open(0, a), Say(Text, said), Fragment(0, args)]);
            ts == [Open(0, a).t, Fragment(0, args).t] && Named(0, ts)
  {
    var open, say, late := Open(0, a), Say(Text, said), Fragment(0, args);
    assert [open, say, late][1..] == [say, late] && [say, late][1..] == [late] && [late][1..] == [];
    assert ToolsOf([late]) == [late.t] + [];
    assert ToolsOf([say, late]) == [] + [late.t];
    assert [open.t, late.t][1..] == [late.t] && [late.t][1..] == [];
    assert NamesCall(0, open.t) && NamesCall(1, late.t);
    assert Named(1, [late.t]);
  }

  /** Those arguments reach no block, though by their index they are the call's. */
  lemma {:induction false} StrayArgumentsAreDropped(a: string, said: string, args: string)
    requires a != "" && said != "" && args != ""
    ensures var chunks := StrayStream(a, said, args);
            && W.EndsClean(chunks) && Named(0, W.Fragments(chunks))
            && ToolCalls(Final(BlocksOf(ChatActions(true, chunks)))) == [Call(a, "", "")]
            && W.AsCalls(W.MergeAll([], W.Fragments(chunks))) == [Call(a, "", args)]
  {
    hide StrayStream, ToolsOf, ActionsOf, AddAll, W.MergeAll, ChatActions, BodyOf, W.Fragments, Pieces, Named, Open, Fragment;
    hide W.EndsClean;
    var chunks := StrayStream(a, said, args);
    StrayPieces(a, said, args);
    StreamPieces(chunks);
    StrayTools(a, said, args);
    StrayBlocks(a, said, args);
    StrayMerged(a, said, args);
    FinalCalls(BlocksOf(ChatActions(true, chunks)));
    assert W.AsCalls([W.Merged(a, "", Some(args))]) == [Call(a, "", args)];
  }

  lemma {:induction false} StrayBlocks(a: string, said: string, args: string)
    requires a != "" && args != ""
    ensures ToolCalls(AddAll(Build([], 0), ActionsOf([Open(0, a), Say(Text, said), Fragment(0, args)])).blocks) == [Call(a, "", "")]
  {
    hide Add, AddAll, ActionsOf;
    var p0, p1, p2 := Open(0, a), Say(Text, said), Fragment(0, args);
    var b0 := Build([], 0);
    var b1 := Add(b0, ActionOf(p0));
    var b2 := Add(b1, ActionOf(p1));
    assert [p0, p1, p2] == [p0] + ([p1] + ([p2] + []));
    DeliverOpen(b0, 0, a, [p1] + ([p2] + []));
    assert ToolCalls(b1.blocks) == [Call(a, "", "")];
    DeliverFirst(b1, [], p1, [p2] + []);
    LiveCases(b1, p1);
    BlockCases(b1, p1);
    DeliverFirst(b2, [], p2, []);
    LiveCases(b2, p2);
    BlockCases(b2, p2);
    NothingDelivered(Add(b2, ActionOf(p2)), []);
  }

  lemma {:induction false} StrayMerged(a: string, said: string, args: string)
    requires a != "" && args != ""
    ensures W.MergeAll([], ToolsOf([Open(0, a), Say(Text, said), Fragment(0, args)])) == [W.Merged(a, "", Some(args))]
  {
    hide W.Merge, W.MergeAll, ToolsOf;
    var p0, p1, p2 := Open(0, a), Say(Text, said), Fragment(0, args);
    assert [p0, p1, p2] == [p0] + ([p1] + ([p2] + []));
    DeliverMerged([], p0, [p1] + ([p2] + []));
    MergeCases([], p0.t);
    var m1 := [W.Merged(a, "", Some(""))];
    assert W.Merge([], p0.t) == m1;
    DeliverFirst(Build([], 0), m1, p1, [p2] + []);
    DeliverMerged(m1, p2, []);
    MergeCases(m1, p2.t);
    assert "" + args == args;
    assert W.Merge(m1, p2.t) == [W.Merged(a, "", Some(args))];
    NothingDelivered(Build([], 0), W.Merge(m1, p2.t));
  }

  lemma {:induction false} CrossedBlocks(a: string, c: string, args: string)
    requires a != "" && c != "" && args != ""
    ensures ToolCalls(AddAll(Build([], 0), ActionsOf([Open(0, a), Fragment(1, args), Open(1, c), Fragment(0, args)])).blocks)
            == [Call(a, "", args), Call(c, "", args)]
  {
    hide Add, AddAll, ActionsOf;
    var p0, p1, p2, p3 := Open(0, a), Fragment(1, args), Open(1, c), Fragment(0, args);
    var b0 := Build([], 0);
    var b1 := Add(b0, ActionOf(p0));
    var b2 := Add(b1, ActionOf(p1));
    var b3 := Add(b2, ActionOf(p2));
    assert [p0, p1, p2, p3] == [p0] + ([p1] + ([p2] + ([p3] + [])));
    assert "" + args == args;
    DeliverOpen(b0, 0, a, [p1] + ([p2] + ([p3] + [])));
    assert ToolCalls(b1.blocks) == [Call(a, "", "")];
    DeliverFragment(b1, 1, args, [p2] + ([p3] + []));
    assert ToolCalls(b2.blocks) == [Call(a, "", args)];
    DeliverOpen(b2, 1, c, [p3] + []);
    assert ToolCalls(b3.blocks) == [Call(a, "", args), Call(c, "", "")];
    DeliverFragment(b3, 0, args, []);
    NothingDelivered(Add(b3, ActionOf(p3)), []);
  }

  lemma {:induction false} CrossedMerged(a: string, c: string, args: string)
    requires a != "" && c != "" && args != ""
    ensures W.MergeAll([], ToolsOf([Open(0, a), Fragment(1, args), Open(1, c), Fragment(0, args)]))
            == [W.Merged(a, "", Some(args)), W.Merged(c, "", Some(args))]
  {
    hide W.Merge, W.MergeAll, ToolsOf;
    var p0, p1, p2, p3 := Open(0, a), Fragment(1, args), Open(1, c), Fragment(0, args);
    assert [p0, p1, p2, p3] == [p0] + ([p1] + ([p2] + ([p3] + [])));
    assert "" + args == args && args + "" == args;
    var m1 := [W.Merged(a, "", Some(""))];
    DeliverMerged([], p0, [p1] + ([p2] + ([p3] + [])));
    MergeCases([], p0.t);
    assert W.Merge([], p0.t) == m1;
    var m2 := m1 + [W.Merged("", "", Some(args))];
    DeliverMerged(m1, p1, [p2] + ([p3] + []));
    MergeCases(m1, p1.t);
    assert W.Merge(m1, p1.t) == m2;
    var m3 := m1 + [W.Merged(c, "", Some(args))];
    DeliverMerged(m2, p2, [p3] + []);
    MergeCases(m2, p2.t);
    assert W.Merge(m2, p2.t) == m3;
    DeliverMerged(m3, p3, []);
    MergeCases(m3, p3.t);
    NothingDelivered(Build([], 0), W.Merge(m3, p3.t));
  }

  /**
   Arguments that come before their call opens can make up for arguments that come after the next one opened:
   the calls agree in the end though neither fragment was for the last call. So a condition on the fragments
   alone does not decide the end of a stream whose entries name calls not yet opened.
   */
  lemma {:induction false} CrossedArgumentsMakeUp(a: string, c: string, args: string)
    requires a != "" && c != "" && args != ""
    ensures var ps := [Open(0, a), Fragment(1, args), Open(1, c), Fragment(0, args)];
            && !Named(0, ToolsOf(ps)) && !ToLast(0, false, ps)
            && Agree(AddAll(Build([], 0), ActionsOf(ps)), W.MergeAll([], ToolsOf(ps)))
  {
    CrossedBlocks(a, c, args);
    CrossedMerged(a, c, args);
    CrossedIsMisplaced(a, c, args);
    hide AddAll, W.MergeAll, ActionsOf, ToolsOf, ToolCalls, Named, ToLast, Open, Fragment;
    assert W.AsCalls([W.Merged(a, "", Some(args)), W.Merged(c, "", Some(args))]) == [Call(a, "", args), Call(c, "", args)];
  }

  /** The first fragment names a call not opened yet, and not the last one opened. */
  lemma {:induction false} CrossedIsMisplaced(a: string, c: string, args: string)
    requires a != "" && c != "" && args != ""
    ensures var ps := [Open(0, a), Fragment(1, args), Open(1, c), Fragment(0, args)];
            !Named(0, ToolsOf(ps)) && !ToLast(0, false, ps)
  {
    var ps := [Open(0, a), Fragment(1, args), Open(1, c), Fragment(0, args)];
    var rest := [Fragment(1, args), Open(1, c), Fragment(0, args)];
    assert ps[1..] == rest;
    SecondIsMisplaced(args, rest);
    hide Fragment;
    assert ToolsOf(ps)[0] == ps[0].t && ToolsOf(ps)[1..] == ToolsOf(rest);
  }

  lemma {:induction false} SecondIsMisplaced(args: string, rest: seq<Piece>)
    requires args != "" && rest != [] && rest[0] == Fragment(1, args)
    ensures !Named(1, ToolsOf(rest)) && !ToLast(1, true, rest)
  {
    assert ToolsOf(rest)[0] == rest[0].t;
  }
}
