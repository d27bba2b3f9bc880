/**
 What a Cursor turn says of the text it was given: the server's text, read through the thinking filter,
 reaches the chunks and the recorded conversation whole, up to what the ending throws away.
 */
module TurnText {
  import opened Chat
  import opened CursorTurn
  import opened Sequences
  import F = ThinkFilter
  import C = ClaudeStream
  import G = ClaudeGrammar
  import R = ClaudeRuns
  import B = CallsByIndex
  import W = ResponsesStream
  import T = TurnGuarantees

  /** A callback that says something or nothing, without ending the turn. */
  predicate Talk(cb: Callback) {
    cb.OnText? || cb.OnCheckpoint? || cb.OnTurnEnded?
  }

  predicate AllTalk(cbs: seq<Callback>) {
    forall i :: 0 <= i < |cbs| ==> Talk(cbs[i])
  }

  /** No text came marked as thinking by the server. */
  predicate NoneMarked(cbs: seq<Callback>) {
    forall i :: 0 <= i < |cbs| ==> !(cbs[i].OnText? && cbs[i].thinking)
  }

  /** The pieces that go through the filter. */
  function Pieces(cbs: seq<Callback>): seq<string> {
    if cbs == [] then []
    else (if cbs[0].OnText? && !cbs[0].thinking then [cbs[0].text] else []) + Pieces(cbs[1..])
  }

  /** What one callback emits, and the filter it leaves. */
  function HearOne(f: F.State, cb: Callback): (F.Split, F.State) {
    if !cb.OnText? then (F.Split([], [], f.inThinking), f)
    else if cb.thinking then (F.Split([], cb.text, f.inThinking), f)
    else F.Step(f, cb.text)
  }

  function Hear(f: F.State, cbs: seq<Callback>): (F.Split, F.State)
    decreases |cbs|
  {
    if cbs == [] then (F.Split([], [], f.inThinking), f)
    else
      var (out, next) := HearOne(f, cbs[0]);
      var (rest, last) := Hear(next, cbs[1..]);
      (F.Join(out, rest), last)
  }

  /** The text the conversation remembers of the turn. */
  function Remembered(steps: seq<Step>): string {
    if steps == [] then []
    else (if steps[0].SaidText? then steps[0].text else []) + Remembered(steps[1..])
  }

  lemma {:induction false} RememberedAppend(a: seq<Step>, b: seq<Step>)
    ensures Remembered(a + b) == Remembered(a) + Remembered(b)
    decreases |a|
  {
    if a == [] {
      assert a + b == b;
    } else {
      assert (a + b)[1..] == a[1..] + b;
      RememberedAppend(a[1..], b);
    }
  }

  lemma {:induction false} RememberedOne(s: Step)
    ensures Remembered([s]) == if s.SaidText? then s.text else []
  {
    assert [s][1..] == [];
  }

  /** appendAssistantText records exactly its text, whether it extends the last step or adds one. */
  lemma {:induction false} AppendTextRemembers(steps: seq<Step>, text: string)
    ensures Remembered(AppendText(steps, text)) == Remembered(steps) + text
  {
    if text != "" {
      RememberedOne(SaidText(text));
      RememberedAppend(steps, [SaidText(text)]);
      if steps != [] && steps[|steps| - 1].SaidText? {
        var front, last := steps[..|steps| - 1], steps[|steps| - 1];
        assert steps == front + [last];
        assert AppendText(steps, text) == front + [SaidText(last.text + text)];
        RememberedAppend(front, [last]);
        RememberedAppend(front, [SaidText(last.text + text)]);
        RememberedOne(last);
        RememberedOne(SaidText(last.text + text));
      }
    }
  }

  lemma {:induction false} ChunksAppend(a: seq<Chunk>, b: seq<Chunk>)
    ensures W.Texts(a + b) == W.Texts(a) + W.Texts(b)
    ensures W.Reasonings(a + b) == W.Reasonings(a) + W.Reasonings(b)
    decreases |a|
  {
    hide W.ContentIn, W.ReasoningIn;
    if a == [] {
      assert a + b == b;
    } else {
      assert (a + b)[0] == a[0] && (a + b)[1..] == a[1..] + b;
      ChunksAppend(a[1..], b);
      ConcatAssoc(W.ContentIn(a[0]), W.Texts(a[1..]), W.Texts(b));
      ConcatAssoc(W.ReasoningIn(a[0]), W.Reasonings(a[1..]), W.Reasonings(b));
    }
  }

  /** t' has told the content and the reasoning of out beyond what t had, and stayed open. */
  predicate Adds(t: Turn, t': Turn, out: F.Split) {
    && W.Texts(t'.chunks) == W.Texts(t.chunks) + out.content
    && W.Reasonings(t'.chunks) == W.Reasonings(t.chunks) + out.reasoning
    && Remembered(t'.steps) == Remembered(t.steps) + out.content
    && t'.done == t.done && t'.mcpSeen == t.mcpSeen && t'.cancelled == t.cancelled
  }

  lemma {:induction false} EmitSays(t: Turn, c: Choice)
    requires !t.done
    ensures W.Texts(Emit(t, c).chunks) == W.Texts(t.chunks) + c.content
    ensures W.Reasonings(Emit(t, c).chunks) == W.Reasonings(t.chunks) + c.reasoning
    ensures W.Texts(EmitUsage(t).chunks) == W.Texts(t.chunks)
    ensures W.Reasonings(EmitUsage(t).chunks) == W.Reasonings(t.chunks)
  {
    var said, usage := Chunk(t.id, Some(c)), Chunk(t.id, None);
    ChunksAppend(t.chunks, [said]);
    ChunksAppend(t.chunks, [usage]);
    assert [said][1..] == [] && [usage][1..] == [];
  }

  lemma {:induction false} SplitAdds(t: Turn, out: F.Split)
    requires !t.done
    ensures Adds(t, EmitSplit(t, out), out)
  {
    hide W.Texts, W.Reasonings, Remembered;
    EmitSays(t, Thought(out.reasoning));
    var t' := if out.reasoning != "" then Emit(t, Thought(out.reasoning)) else t;
    var recorded := t'.(steps := AppendText(t'.steps, out.content));
    AppendTextRemembers(t'.steps, out.content);
    EmitSays(recorded, Content(out.content, None));
  }

  lemma {:induction false} HearOneAdds(mode: Mode, t: Turn, cb: Callback)
    requires Talk(cb) && !t.done
    ensures Adds(t, Handle(mode, t, cb), HearOne(t.tags, cb).0)
    ensures Handle(mode, t, cb).tags == HearOne(t.tags, cb).1
  {
    hide F.Step, EmitSplit, W.Texts, W.Reasonings, Remembered;
    if cb.OnText? {
      EmitSays(t, Thought(cb.text));
      var (out, tags) := F.Step(t.tags, cb.text);
      SplitAdds(t.(tags := tags), out);
      SplitTags(t.(tags := tags), out);
    }
  }

  lemma {:induction false} SplitTags(t: Turn, out: F.Split)
    ensures EmitSplit(t, out).tags == t.tags && EmitSplit(t, out).turnEnded == t.turnEnded
  {
  }

  lemma {:induction false} HearAdds(mode: Mode, t: Turn, cbs: seq<Callback>)
    requires AllTalk(cbs) && !t.done
    ensures Adds(t, HandleAll(mode, t, cbs), Hear(t.tags, cbs).0)
    ensures HandleAll(mode, t, cbs).tags == Hear(t.tags, cbs).1
    decreases |cbs|
  {
    hide Handle, HearOne, W.Texts, W.Reasonings, Remembered;
    if cbs != [] {
      HearOneAdds(mode, t, cbs[0]);
      HearAdds(mode, Handle(mode, t, cbs[0]), cbs[1..]);
    }
  }

  /** The fold agrees with the filter's own run: emitted content and the held suffix are all of it. */
  lemma {:induction false} HearIsRun(f: F.State, cbs: seq<Callback>)
    requires AllTalk(cbs)
    ensures var (out, last) := Hear(f, cbs);
            var whole := F.Run(f, Pieces(cbs));
            F.Join(out, F.Put(last.buffer, last.inThinking)).content == whole.content &&
            (NoneMarked(cbs) ==> F.Join(out, F.Put(last.buffer, last.inThinking)) == whole)
    decreases |cbs|
  {
    hide F.Step;
    if cbs == [] {
      F.JoinEmpty(f.inThinking, F.Put(f.buffer, f.inThinking));
    } else {
      var (out, next) := HearOne(f, cbs[0]);
      var (rest, last) := Hear(next, cbs[1..]);
      HearIsRun(next, cbs[1..]);
      var held := F.Put(last.buffer, last.inThinking);
      F.JoinAssoc(out, rest, held);
      if cbs[0].OnText? && !cbs[0].thinking {
        assert Pieces(cbs)[1..] == Pieces(cbs[1..]) && Pieces(cbs)[0] == cbs[0].text;
      } else {
        assert Pieces(cbs) == Pieces(cbs[1..]);
        assert [] + rest.content + held.content == rest.content + held.content;
        F.JoinEmpty(f.inThinking, F.Join(rest, held));
      }
    }
  }

  // ---------------------------------------------------------------------------------------------
  // Endings
  // ---------------------------------------------------------------------------------------------

  predicate Ending(cb: Callback) {
    cb.OnExec? || cb.OnProtocolError? || cb.OnEndError? || cb.OnClose?
  }

  /** Only a close, or a call in a first turn, empties the filter before the turn ends. */
  predicate Flushes(mode: Mode, last: Callback) {
    last.OnClose? || (last.OnExec? && mode.First?)
  }

  /** The error text an ending adds to the content. */
  function Closing(mode: Mode, t: Turn, last: Callback): string {
    match last
    case OnProtocolError(message) => message
    case OnEndError(message) => message
    case OnClose(code) =>
      if mode.First? then
        if !t.turnEnded || (code != CLOSE_EOF && !t.terminalCheckpoint) then CloseMessage(code, t.turnEnded) else ""
      else if t.turnEnded || code == CLOSE_EOF then "" else CloseMessage(code, false)
    case _ => ""
  }

  function Held(f: F.State): F.Split {
    F.Put(f.buffer, f.inThinking)
  }

  /** What the ending tells of the text the filter still holds. */
  function Released(mode: Mode, f: F.State, last: Callback): F.Split {
    if Flushes(mode, last) then Held(f) else F.Put([], f.inThinking)
  }

  /** An ending tells what it flushes and then its error text; the conversation remembers only the former. */
  predicate Ends(mode: Mode, t: Turn, last: Callback) {
    var t' := Handle(mode, t, last);
    var out := Released(mode, t.tags, last);
    && t'.done
    && W.Texts(t'.chunks) == W.Texts(t.chunks) + out.content + Closing(mode, t, last)
    && W.Reasonings(t'.chunks) == W.Reasonings(t.chunks) + out.reasoning
    && Remembered(t'.steps) == Remembered(t.steps) + out.content
  }

  lemma {:induction false} FlushAdds(t: Turn)
    requires !t.done
    ensures Adds(t, FlushTags(t), Held(t.tags)) && FlushTags(t).turnEnded == t.turnEnded
  {
    hide EmitSplit;
    SplitAdds(t.(tags := F.State([], t.tags.inThinking)), Held(t.tags));
    SplitTags(t.(tags := F.State([], t.tags.inThinking)), Held(t.tags));
  }

  lemma {:induction false} ErrorSays(mode: Mode, t: Turn, message: string)
    requires !t.done
    ensures var t' := ErrorStep(mode, t, message);
            t'.done && W.Texts(t'.chunks) == W.Texts(t.chunks) + message &&
            W.Reasonings(t'.chunks) == W.Reasonings(t.chunks) && Remembered(t'.steps) == Remembered(t.steps)
  {
    hide W.Texts, W.Reasonings, Remembered;
    EmitSays(t, Content(message, Some("error")));
    EmitSays(Emit(t, Content(message, Some("error"))), Content("", None));
  }

  lemma {:induction false} StopSays(t: Turn)
    requires !t.done
    ensures var t' := Emit(t, Content("", Some("stop")));
            W.Texts(t'.chunks) == W.Texts(t.chunks) && W.Texts(EmitUsage(t').chunks) == W.Texts(t.chunks) &&
            W.Reasonings(t'.chunks) == W.Reasonings(t.chunks) && W.Reasonings(EmitUsage(t').chunks) == W.Reasonings(t.chunks)
  {
    hide W.Texts, W.Reasonings;
    EmitSays(t, Content("", Some("stop")));
    EmitSays(Emit(t, Content("", Some("stop"))), Content("", None));
  }

  lemma {:induction false} CloseSays(mode: Mode, t: Turn, code: int)
    requires !t.done && !t.mcpSeen && !t.cancelled
    ensures Ends(mode, t, OnClose(code))
  {
    hide FlushTags, ErrorStep, W.Texts, W.Reasonings, Remembered;
    FlushAdds(t);
    ErrorSays(mode, FlushTags(t), CloseMessage(code, t.turnEnded));
    ErrorSays(mode, FlushTags(t), CloseMessage(code, false));
    StopSays(FlushTags(t));
    FlushKeeps(t);
  }

  lemma {:induction false} CallSays(mode: Mode, t: Turn, id: string, name: string, args: string)
    requires !t.done
    ensures Ends(mode, t, OnExec(id, name, args))
  {
    hide FlushTags, W.Texts, W.Reasonings, Remembered;
    var step := ToolCall(id, name, args);
    RememberedOne(step);
    if mode.First? {
      var seen := t.(mcpSeen := true);
      FlushAdds(seen);
      var flushed := FlushTags(seen);
      RememberedAppend(flushed.steps, [step]);
      var next := flushed.(steps := flushed.steps + [step], toolIndex := t.toolIndex + 1);
      EmitSays(next, ToolCallDelta(t.toolIndex, id, name, args, None));
      EmitSays(Emit(next, ToolCallDelta(t.toolIndex, id, name, args, None)), Content("", Some("tool_calls")));
    } else {
      RememberedAppend(t.steps, [step]);
      EmitSays(t.(steps := t.steps + [step], toolIndex := t.toolIndex + 1),
               ToolCallDelta(t.toolIndex, id, name, args, Some("tool_calls")));
    }
  }

  lemma {:induction false} EndingSays(mode: Mode, t: Turn, last: Callback)
    requires !t.done && !t.mcpSeen && !t.cancelled && Ending(last)
    ensures Ends(mode, t, last)
  {
    hide ExecStep, CloseStep, ErrorStep, W.Texts, W.Reasonings, Remembered;
    match last
    case OnExec(id, name, args) => CallSays(mode, t, id, name, args);
    case OnClose(code) => CloseSays(mode, t, code);
    case OnProtocolError(message) => ErrorSays(mode, t, message);
    case OnEndError(message) => ErrorSays(mode, t, message);
  }

  lemma {:induction false} HandleAllAppend(mode: Mode, t: Turn, a: seq<Callback>, b: seq<Callback>)
    ensures HandleAll(mode, t, a + b) == HandleAll(mode, HandleAll(mode, t, a), b)
    decreases |a|
  {
    hide Handle;
    if a == [] {
      assert a + b == b;
    } else {
      assert (a + b)[0] == a[0] && (a + b)[1..] == a[1..] + b;
      HandleAllAppend(mode, Handle(mode, t, a[0]), a[1..], b);
    }
  }

  function Whole(mode: Mode, id: string, talk: seq<Callback>, last: Callback): Turn {
    HandleAll(mode, NewTurn(id), talk + [last])
  }

  /** The error text that ends a whole turn. */
  function LastWords(mode: Mode, id: string, talk: seq<Callback>, last: Callback): string {
    Closing(mode, HandleAll(mode, NewTurn(id), talk), last)
  }

  lemma {:induction false} TurnEnds(mode: Mode, id: string, talk: seq<Callback>, last: Callback)
    requires AllTalk(talk) && Ending(last)
    ensures var t := HandleAll(mode, NewTurn(id), talk);
            Whole(mode, id, talk, last) == Handle(mode, t, last) && Ends(mode, t, last) &&
            Adds(NewTurn(id), t, Hear(F.State([], false), talk).0) && t.tags == Hear(F.State([], false), talk).1
  {
    hide Handle, Ends, Hear;
    var t := HandleAll(mode, NewTurn(id), talk);
    HandleAllAppend(mode, NewTurn(id), talk, [last]);
    assert [last][1..] == [];
    HearAdds(mode, NewTurn(id), talk);
    EndingSays(mode, t, last);
  }

  /** What the filter made of all the text of the turn, had it been collected in one run. */
  function Reading(talk: seq<Callback>): F.Split {
    F.Run(F.State([], false), Pieces(talk))
  }

  /** The text still held back by the filter when the turn ends. */
  function HeldBack(talk: seq<Callback>): F.State {
    Hear(F.State([], false), talk).1
  }

  /**
   A turn that talks and then ends tells the whole content of its text, and then its error text,
   exactly when the ending flushes the filter or the filter holds back no content.
   The conversation remembers the same content.
   */
  lemma {:induction false} TurnTellsItsText(mode: Mode, id: string, talk: seq<Callback>, last: Callback)
    requires AllTalk(talk) && Ending(last)
    ensures var t := Whole(mode, id, talk, last);
            t.done && W.Texts(t.chunks) == Remembered(t.steps) + LastWords(mode, id, talk, last)
    ensures Remembered(Whole(mode, id, talk, last).steps) == Reading(talk).content
            <==> Flushes(mode, last) || HeldBack(talk).inThinking || HeldBack(talk).buffer == []
    ensures NoneMarked(talk) ==>
              (W.Reasonings(Whole(mode, id, talk, last).chunks) == Reading(talk).reasoning
               <==> Flushes(mode, last) || !HeldBack(talk).inThinking || HeldBack(talk).buffer == [])
  {
    hide HandleAll, Handle, Hear, Closing, F.Run, Pieces;
    TurnEnds(mode, id, talk, last);
    HearIsRun(F.State([], false), talk);
    var (out, f) := Hear(F.State([], false), talk);
    var told := Released(mode, f, last);
    assert [] + out.content == out.content && [] + out.reasoning == out.reasoning;
    assert out.content + [] == out.content && out.reasoning + [] == out.reasoning;
    assert |out.content + Held(f).content| == |out.content| + |Held(f).content|;
    assert |out.reasoning + Held(f).reasoning| == |out.reasoning| + |Held(f).reasoning|;
  }

  /** Some resumed turn loses text: a call arrives while the filter holds back the start of a possible tag. */
  lemma {:induction false} ResumedCallLosesText(id: string)
    ensures var talk := [OnText("<", false)];
            Reading(talk).content == "<" &&
            Remembered(Whole(Resumed, id, talk, OnExec("call", "tool", "{}")).steps) == ""
  {
    var f := F.State([], false);
    var talk := [OnText("<", false)];
    assert talk[1..] == [] && ([] + "<") == "<" && "<"[..0] == [] && "<"[0..] == "<";
    assert "<"[1..] == [];
    assert F.TagLen("<") == 0 && F.Hold("<") == 0;
    assert F.Step(f, "<") == (F.Put([], false), F.State("<", false));
    assert Pieces(talk) == ["<"] && ["<"][1..] == [];
    assert HeldBack(talk) == F.State("<", false);
    TurnTellsItsText(Resumed, id, talk, OnExec("call", "tool", "{}"));
    TurnEnds(Resumed, id, talk, OnExec("call", "tool", "{}"));
  }

  // ---------------------------------------------------------------------------------------------
  // From the server's text to the client's blocks
  // ---------------------------------------------------------------------------------------------

  lemma {:induction false} UpstreamedIsTold(chunks: seq<Chunk>)
    ensures R.Upstreamed(chunks, Text) == W.Texts(chunks)
    ensures R.Upstreamed(chunks, Thinking) == W.Reasonings(chunks)
    decreases |chunks|
  {
    if chunks != [] {
      UpstreamedIsTold(chunks[1..]);
    }
  }

  /**
   A Claude client reads, in its text blocks, the server's text with its tags removed and the thinking
   between them taken out, and in its thinking blocks that thinking, wherever the server cut the text.
   */
  lemma {:induction false} ClientReadsServerText(mode: Mode, id: string, generated: string, talk: seq<Callback>, last: Callback)
    requires AllTalk(talk) && NoneMarked(talk) && Flushes(mode, last)
    requires !F.HasBlankTag(Flatten(Pieces(talk)))
    ensures var chunks := Whole(mode, id, talk, last).chunks;
            var read := F.Scan(Flatten(Pieces(talk)), false);
            var acts := C.ChatActions(true, chunks);
            var blocks := G.Final(G.BlocksOf(acts));
            chunks != [] && G.Finishes(acts) &&
            C.Run(EmptyState(generated), C.ChatActions(false, chunks)).1
            == G.Message(if chunks[0].id != "" then chunks[0].id else generated, blocks, G.StopOf(acts)) &&
            R.Said(blocks, Text) == read.content + LastWords(mode, id, talk, last) &&
            R.Said(blocks, Thinking) == read.reasoning
  {
    hide HandleAll, Closing, F.Run, F.Scan, F.HasBlankTag, Pieces, C.ChatActions, C.Run, G.Message, HeldBack;
    hide G.BlocksOf, G.Final, Remembered;
    var pieces := Pieces(talk);
    var chunks := Whole(mode, id, talk, last).chunks;
    TurnTellsItsText(mode, id, talk, last);
    T.EveryTurnEndsWell(mode, id, talk + [last]);
    T.CleanEndsOnce(chunks);
    R.ChatMessage(generated, chunks);
    assert [] + Flatten(pieces) == Flatten(pieces);
    F.RunIsScan(F.State([], false), pieces);
    R.MessageCarriesUpstream(chunks, Text);
    R.MessageCarriesUpstream(chunks, Thinking);
    UpstreamedIsTold(chunks);
  }

  // ---------------------------------------------------------------------------------------------
  // The call
  // ---------------------------------------------------------------------------------------------

  lemma {:induction false} TalkHasNoCall(mode: Mode, t: Turn, cbs: seq<Callback>)
    requires AllTalk(cbs) && !t.done && T.FewFragments(t)
    ensures var t' := HandleAll(mode, t, cbs);
            !t'.done && W.Fragments(t'.chunks) == [] && t'.toolIndex == 0
  {
    hide HandleAll, W.Texts, W.Reasonings, Remembered;
    assert forall i :: 0 <= i < |cbs| ==> Talk(cbs[i]);
    HearAdds(mode, t, cbs);
    T.AllFewFragments(mode, t, cbs);
  }

  lemma {:induction false} EndingFragments(mode: Mode, t: Turn, last: Callback)
    requires !t.done && W.Fragments(t.chunks) == [] && t.toolIndex == 0 && Ending(last) && (last.OnExec? ==> last.id != "")
    ensures W.Fragments(Handle(mode, t, last).chunks) ==
            if last.OnExec? then [ToolDelta(Some(0), last.id, last.name, Some(last.args))] else []
  {
    hide W.Fragments, ExecStep, CloseStep, ErrorStep;
    match last
    case OnExec(id, name, args) => T.ExecFragments(mode, t, id, name, args);
    case OnClose(code) => T.CloseFragments(mode, t, code);
    case OnProtocolError(message) => T.ErrorFragments(t, message);
    case OnEndError(message) => T.ErrorFragments(t, message);
  }

  lemma {:induction false} MergedCall(id: string, name: string, args: string)
    ensures W.AsCalls(W.MergeAll([], [ToolDelta(Some(0), id, name, Some(args))])) == [Call(id, name, args)]
    ensures W.AsCalls(W.MergeAll([], [])) == []
  {
    var t := ToolDelta(Some(0), id, name, Some(args));
    assert [t][..0] == [];
    B.MergeCases([], t);
    hide W.Merge;
    assert "" + args == args;
    assert W.MergeAll([], [t]) == W.Merge([], t);
  }

  /**
   A Claude client gets, in its tool blocks, exactly the call of the exec callback that ended the turn, with the
   callback's id, name and arguments, or no call when something else ended it, whatever came afterwards.
   */
  lemma {:induction false} ClientGetsTheCall(mode: Mode, id: string, talk: seq<Callback>, last: Callback, after: seq<Callback>)
    requires AllTalk(talk) && Ending(last) && (last.OnExec? ==> last.id != "")
    ensures var chunks := HandleAll(mode, NewTurn(id), (talk + [last]) + after).chunks;
            R.ToolCalls(G.Final(G.BlocksOf(C.ChatActions(true, chunks)))) ==
            if last.OnExec? then [Call(last.id, last.name, last.args)] else []
  {
    hide HandleAll, Handle, R.ToolCalls, G.BlocksOf, G.Final, C.ChatActions, W.MergeAll, W.Fragments, W.Orderly, W.EndsClean;
    var t := HandleAll(mode, NewTurn(id), talk);
    var whole := Whole(mode, id, talk, last);
    NewTurnHasNone(id);
    TalkHasNoCall(mode, NewTurn(id), talk);
    EndingFragments(mode, t, last);
    HandleAllAppend(mode, NewTurn(id), talk + [last], after);
    TurnTellsItsText(mode, id, talk, last);
    T.DoneStaysDone(mode, whole, after);
    TurnEnds(mode, id, talk, last);
    HoldsItsCall(mode, id, talk, last);
    if last.OnExec? {
      MergedCall(last.id, last.name, last.args);
    } else {
      MergedCall("", "", "");
    }
  }

  lemma {:induction false} HoldsItsCall(mode: Mode, id: string, talk: seq<Callback>, last: Callback)
    requires AllTalk(talk) && Ending(last) && (last.OnExec? ==> last.id != "")
    ensures var chunks := Whole(mode, id, talk, last).chunks;
            R.ToolCalls(G.Final(G.BlocksOf(C.ChatActions(true, chunks)))) == W.AsCalls(W.MergeAll([], W.Fragments(chunks)))
  {
    hide HandleAll, R.ToolCalls, G.BlocksOf, G.Final, C.ChatActions, W.MergeAll, W.Fragments;
    assert T.NoCancel(talk + [last]) by {
      assert forall i :: 0 <= i < |talk| ==> Talk(talk[i]);
    }
    assert T.CallsHaveIds(talk + [last]) by {
      assert forall i :: 0 <= i < |talk| ==> Talk(talk[i]);
    }
    TurnTellsItsText(mode, id, talk, last);
    EveryTurnHoldsItsCall(mode, id, talk + [last]);
  }

  // ---------------------------------------------------------------------------------------------
  // After the end
  // ---------------------------------------------------------------------------------------------

  /** The text a callback after the end still adds to the conversation, and the filter it leaves. */
  function LateOne(mode: Mode, f: F.State, cb: Callback): (string, F.State) {
    var empty := F.State([], f.inThinking);
    match cb
    case OnText(text, thinking) => if thinking then ([], f) else (F.Step(f, text).0.content, F.Step(f, text).1)
    case OnExec(_, _, _) => if mode.First? then (Held(f).content, empty) else ([], f)
    case OnClose(_) => if mode.First? then ([], f) else (Held(f).content, empty)
    case _ => ([], f)
  }

  function Late(mode: Mode, f: F.State, cbs: seq<Callback>): string
    decreases |cbs|
  {
    if cbs == [] then []
    else
      var (text, next) := LateOne(mode, f, cbs[0]);
      text + Late(mode, next, cbs[1..])
  }

  /** t' remembers text beyond what t did, tells nothing more, and stays done. */
  predicate Remembers(t: Turn, t': Turn, text: string) {
    t'.done && t'.chunks == t.chunks && Remembered(t'.steps) == Remembered(t.steps) + text
  }

  lemma {:induction false} SplitRemembers(t: Turn, out: F.Split)
    requires t.done
    ensures Remembers(t, EmitSplit(t, out), out.content) && EmitSplit(t, out).tags == t.tags
  {
    AppendTextRemembers(t.steps, out.content);
    hide Remembered;
  }

  lemma {:induction false} FlushRemembers(t: Turn)
    requires t.done
    ensures Remembers(t, FlushTags(t), Held(t.tags).content) && FlushTags(t).tags == F.State([], t.tags.inThinking)
  {
    hide EmitSplit, Remembered;
    SplitRemembers(t.(tags := F.State([], t.tags.inThinking)), Held(t.tags));
  }

  lemma {:induction false} CallRemembers(t: Turn, id: string, name: string, args: string)
    ensures Remembered(t.steps + [ToolCall(id, name, args)]) == Remembered(t.steps)
  {
    RememberedAppend(t.steps, [ToolCall(id, name, args)]);
    RememberedOne(ToolCall(id, name, args));
  }

  lemma {:induction false} LateExec(mode: Mode, t: Turn, id: string, name: string, args: string)
    requires t.done
    ensures Remembers(t, ExecStep(mode, t, id, name, args), LateOne(mode, t.tags, OnExec(id, name, args)).0)
    ensures ExecStep(mode, t, id, name, args).tags == LateOne(mode, t.tags, OnExec(id, name, args)).1
  {
    hide FlushTags, Remembered;
    if mode.First? {
      var seen := t.(mcpSeen := true);
      FlushRemembers(seen);
      CallRemembers(FlushTags(seen), id, name, args);
    } else {
      CallRemembers(t, id, name, args);
    }
  }

  lemma {:induction false} LateClose(mode: Mode, t: Turn, code: int)
    requires t.done
    ensures Remembers(t, CloseStep(mode, t, code), LateOne(mode, t.tags, OnClose(code)).0)
    ensures CloseStep(mode, t, code).tags == LateOne(mode, t.tags, OnClose(code)).1
  {
    hide FlushTags, Remembered;
    FlushRemembers(t);
  }

  lemma {:induction false} LateStep(mode: Mode, t: Turn, cb: Callback)
    requires t.done
    ensures Remembers(t, Handle(mode, t, cb), LateOne(mode, t.tags, cb).0)
    ensures Handle(mode, t, cb).tags == LateOne(mode, t.tags, cb).1
  {
    hide EmitSplit, F.Step, ExecStep, CloseStep, Remembered;
    assert Remembered(t.steps) + [] == Remembered(t.steps);
    match cb
    case OnText(text, thinking) =>
      if !thinking {
        var (out, tags) := F.Step(t.tags, text);
        SplitRemembers(t.(tags := tags), out);
      }
    case OnExec(id, name, args) => LateExec(mode, t, id, name, args);
    case OnClose(code) => LateClose(mode, t, code);
    case _ =>
  }

  lemma {:induction false} LateSteps(mode: Mode, t: Turn, cbs: seq<Callback>)
    requires t.done
    ensures Remembers(t, HandleAll(mode, t, cbs), Late(mode, t.tags, cbs))
    decreases |cbs|
  {
    hide Handle, LateOne, Remembered;
    if cbs == [] {
      assert Remembered(t.steps) + [] == Remembered(t.steps);
    } else {
      LateStep(mode, t, cbs[0]);
      LateSteps(mode, Handle(mode, t, cbs[0]), cbs[1..]);
      ConcatAssoc(Remembered(t.steps), LateOne(mode, t.tags, cbs[0]).0,
                  Late(mode, LateOne(mode, t.tags, cbs[0]).1, cbs[1..]));
    }
  }

  /**
   With callbacks after the end: nothing more is told, and the conversation remembers beyond what was told
   exactly the text of those callbacks, so that it remembers what was told, error text aside, if and only if
   they bring none.
   */
  lemma {:induction false} LateTextIsRememberedOnly(mode: Mode, id: string, talk: seq<Callback>, last: Callback, after: seq<Callback>)
    requires AllTalk(talk) && Ending(last)
    ensures var ended, t := Whole(mode, id, talk, last), HandleAll(mode, NewTurn(id), (talk + [last]) + after);
            && t.chunks == ended.chunks && W.Texts(t.chunks) == Remembered(ended.steps) + LastWords(mode, id, talk, last)
            && Remembered(t.steps) == Remembered(ended.steps) + Late(mode, ended.tags, after)
            && (W.Texts(t.chunks) == Remembered(t.steps) + LastWords(mode, id, talk, last) <==> Late(mode, ended.tags, after) == [])
  {
    hide HandleAll, Handle, Closing, Remembered, Late, W.Texts;
    var ended := Whole(mode, id, talk, last);
    HandleAllAppend(mode, NewTurn(id), talk + [last], after);
    TurnTellsItsText(mode, id, talk, last);
    LateSteps(mode, ended, after);
    var told, late, words := Remembered(ended.steps), Late(mode, ended.tags, after), LastWords(mode, id, talk, last);
    assert |(told + late) + words| == |told| + |late| + |words| && |told + words| == |told| + |words|;
    assert told + [] == told;
  }

  /** Every turn that ends without being cancelled reaches a Claude client with its call and all its arguments. */
  lemma {:induction false} EveryTurnHoldsItsCall(mode: Mode, id: string, cbs: seq<Callback>)
    requires T.NoCancel(cbs) && T.CallsHaveIds(cbs) && HandleAll(mode, NewTurn(id), cbs).done
    ensures var chunks := HandleAll(mode, NewTurn(id), cbs).chunks;
            R.ToolCalls(G.Final(G.BlocksOf(C.ChatActions(true, chunks)))) == W.AsCalls(W.MergeAll([], W.Fragments(chunks)))
  {
    hide HandleAll, R.ToolCalls, G.BlocksOf, G.Final, C.ChatActions, W.MergeAll, W.Fragments, B.Pieces, B.ToLast, B.Named, W.Orderly;
    var chunks := HandleAll(mode, NewTurn(id), cbs).chunks;
    T.EveryTurnEndsWell(mode, id, cbs);
    NewTurnHasNone(id);
    T.AllFewFragments(mode, NewTurn(id), cbs);
    B.FewAreNamed(W.Fragments(chunks));
    B.StreamPieces(chunks);
    B.OpeningsAlone(0, false, B.Pieces(chunks));
    B.BlocksHoldCallsByIndex(chunks);
  }

  lemma {:induction false} NewTurnHasNone(id: string)
    ensures T.FewFragments(NewTurn(id))
  {
  }
}
