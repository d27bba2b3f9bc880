/**
 What every Cursor turn guarantees whatever callbacks it receives, and what follows for the translators
 that read its chunks.
 */
module TurnGuarantees {
  import opened Chat
  import opened CursorTurn
  import opened Sequences
  import F = ThinkFilter
  import G = ClaudeGrammar
  import C = ClaudeStream
  import R = ClaudeRuns
  import W = ResponsesStream

  /** Every chunk so far has a choice without a finish reason. */
  predicate AllOpen(chunks: seq<Chunk>) {
    forall i :: 0 <= i < |chunks| ==> chunks[i].choice.Some? && chunks[i].choice.value.finish.None?
  }

  /** At most one finish reason, and after it only usage chunks; none of either before the turn is done. */
  predicate WellEnded(t: Turn) {
    AllOpen(t.chunks) || (t.done && W.EndsClean(t.chunks))
  }

  lemma {:induction false} CleanEnd(open: seq<Chunk>, last: seq<Chunk>)
    requires AllOpen(open) && W.EndsClean(last)
    ensures W.EndsClean(open + last)
    decreases |open|
  {
    if open == [] {
      assert open + last == last;
    } else {
      assert (open + last)[0] == open[0] && (open + last)[1..] == open[1..] + last;
      CleanEnd(open[1..], last);
    }
  }

  lemma {:induction false} FlushOpen(t: Turn)
    requires AllOpen(t.chunks)
    ensures AllOpen(FlushTags(t).chunks) && FlushTags(t).done == t.done
  {
    SplitOpen(t.(tags := F.State([], t.tags.inThinking)), F.Put(t.tags.buffer, t.tags.inThinking));
  }

  lemma {:induction false} SplitOpen(t: Turn, out: F.Split)
    requires AllOpen(t.chunks)
    ensures AllOpen(EmitSplit(t, out).chunks) && EmitSplit(t, out).done == t.done
  {
    var t' := if out.reasoning != "" then Emit(t, Thought(out.reasoning)) else t;
  }

  /** A final chunk, with or without a usage chunk after it. */
  lemma {:induction false} FinalEnds(t: Turn, c: Choice)
    requires AllOpen(t.chunks) && !t.done && c.finish.Some?
    ensures W.EndsClean(Emit(t, c).chunks) && W.EndsClean(EmitUsage(Emit(t, c)).chunks)
  {
    var end, usage := Chunk(t.id, Some(c)), Chunk(t.id, None);
    CleanEnd(t.chunks, [end]);
    CleanEnd(t.chunks, [end, usage]);
    assert t.chunks + [end, usage] == (t.chunks + [end]) + [usage];
  }

  lemma {:induction false} ErrorEnds(mode: Mode, t: Turn, message: string)
    requires AllOpen(t.chunks) && !t.done
    ensures ErrorStep(mode, t, message).done && W.EndsClean(ErrorStep(mode, t, message).chunks)
  {
    FinalEnds(t, Content(message, Some("error")));
  }

  lemma {:induction false} DoneEmitsNothing(t: Turn, out: F.Split)
    requires t.done
    ensures EmitSplit(t, out).done && EmitSplit(t, out).chunks == t.chunks
  {
  }

  /** A callback after the end leaves the chunks as they are. */
  lemma {:induction false} DoneIsSilent(mode: Mode, t: Turn, cb: Callback)
    requires t.done
    ensures Handle(mode, t, cb).done && Handle(mode, t, cb).chunks == t.chunks
  {
    hide EmitSplit, F.Step;
    var held := F.Put(t.tags.buffer, t.tags.inThinking);
    var empty := F.State([], t.tags.inThinking);
    match cb
    case OnText(text, thinking) =>
      var (out, tags) := F.Step(t.tags, text);
      DoneEmitsNothing(t.(tags := tags), out);
    case OnExec(id, name, args) =>
      DoneEmitsNothing(t.(mcpSeen := true, tags := empty), held);
    case OnClose(code) =>
      DoneEmitsNothing(t.(tags := empty), held);
    case _ =>
  }

  /** One callback: the shape is kept, and without a cancellation a turn ends with a finish reason. */
  lemma {:induction false} HandleEndsWell(mode: Mode, t: Turn, cb: Callback)
    requires WellEnded(t) && (t.done || !t.mcpSeen)
    ensures WellEnded(Handle(mode, t, cb)) && (Handle(mode, t, cb).done || !Handle(mode, t, cb).mcpSeen)
    ensures !t.done && !t.cancelled && !cb.OnCancel? ==>
              !Handle(mode, t, cb).cancelled && (Handle(mode, t, cb).done ==> W.EndsClean(Handle(mode, t, cb).chunks))
  {
    hide TextStep, ExecStep, CloseStep, W.EndsClean;
    if t.done {
      DoneIsSilent(mode, t, cb);
    } else {
      match cb
      case OnText(text, thinking) => TextEnds(t, text, thinking);
      case OnExec(id, name, args) => ExecEnds(mode, t, id, name, args);
      case OnProtocolError(message) => ErrorEnds(mode, t, message);
      case OnEndError(message) => ErrorEnds(mode, t, message);
      case OnClose(code) => CloseEnds(mode, t, code);
      case _ =>
    }
  }

  lemma {:induction false} TextEnds(t: Turn, text: string, thinking: bool)
    requires AllOpen(t.chunks) && !t.done
    ensures var t' := TextStep(t, text, thinking);
            AllOpen(t'.chunks) && !t'.done && t'.mcpSeen == t.mcpSeen && t'.cancelled == t.cancelled
  {
    hide EmitSplit, F.Step;
    var (out, tags) := F.Step(t.tags, text);
    SplitOpen(t.(tags := tags), out);
    SplitKeeps(t.(tags := tags), out);
  }

  lemma {:induction false} CloseEnds(mode: Mode, t: Turn, code: int)
    requires AllOpen(t.chunks) && !t.done && !t.mcpSeen
    ensures var t' := CloseStep(mode, t, code);
            t'.done && t'.cancelled == t.cancelled && WellEnded(t') && (!t.cancelled ==> W.EndsClean(t'.chunks))
  {
    hide FlushTags, W.EndsClean;
    FlushKeeps(t);
    FlushOpen(t);
    ErrorEnds(mode, FlushTags(t), CloseMessage(code, t.turnEnded));
    ErrorEnds(mode, FlushTags(t), CloseMessage(code, false));
    FinalEnds(FlushTags(t), Content("", Some("stop")));
  }

  lemma {:induction false} SplitKeeps(t: Turn, out: F.Split)
    ensures EmitSplit(t, out).mcpSeen == t.mcpSeen && EmitSplit(t, out).cancelled == t.cancelled
  {
  }

  lemma {:induction false} ExecEnds(mode: Mode, t: Turn, id: string, name: string, args: string)
    requires AllOpen(t.chunks) && !t.done
    ensures var t' := ExecStep(mode, t, id, name, args);
            t'.done && W.EndsClean(t'.chunks) && t'.cancelled == t.cancelled
  {
    hide FlushTags, W.EndsClean;
    if mode.First? {
      FlushKeeps(t.(mcpSeen := true));
      FlushOpen(t.(mcpSeen := true));
      var flushed := FlushTags(t.(mcpSeen := true));
      var next := flushed.(steps := flushed.steps + [ToolCall(id, name, args)], toolIndex := t.toolIndex + 1);
      FinalEnds(Emit(next, ToolCallDelta(t.toolIndex, id, name, args, None)), Content("", Some("tool_calls")));
    } else {
      FinalEnds(t.(steps := t.steps + [ToolCall(id, name, args)], toolIndex := t.toolIndex + 1),
                ToolCallDelta(t.toolIndex, id, name, args, Some("tool_calls")));
    }
  }

  predicate NoCancel(cbs: seq<Callback>) {
    forall i :: 0 <= i < |cbs| ==> !cbs[i].OnCancel?
  }

  lemma {:induction false} HandleAllEndsWell(mode: Mode, t: Turn, cbs: seq<Callback>)
    requires WellEnded(t) && (t.done || !t.mcpSeen)
    ensures WellEnded(HandleAll(mode, t, cbs))
    ensures (t.done ==> W.EndsClean(t.chunks)) && !t.cancelled && NoCancel(cbs) && HandleAll(mode, t, cbs).done ==>
              W.EndsClean(HandleAll(mode, t, cbs).chunks)
    decreases |cbs|
  {
    hide Handle, WellEnded, W.EndsClean;
    if cbs != [] {
      HandleEndsWell(mode, t, cbs[0]);
      if t.done {
        DoneIsSilent(mode, t, cbs[0]);
        DoneStaysDone(mode, t, cbs);
      } else {
        HandleAllEndsWell(mode, Handle(mode, t, cbs[0]), cbs[1..]);
      }
    }
  }

  lemma {:induction false} DoneStaysDone(mode: Mode, t: Turn, cbs: seq<Callback>)
    requires t.done
    ensures HandleAll(mode, t, cbs).done && HandleAll(mode, t, cbs).chunks == t.chunks
    ensures WellEnded(t) ==> WellEnded(HandleAll(mode, t, cbs))
    decreases |cbs|
  {
    if cbs != [] {
      DoneIsSilent(mode, t, cbs[0]);
      DoneStaysDone(mode, Handle(mode, t, cbs[0]), cbs[1..]);
    }
  }

  /** Every turn: at most one finish reason, then only usage chunks; exactly one if it ends without being cancelled. */
  lemma {:induction false} EveryTurnEndsWell(mode: Mode, id: string, cbs: seq<Callback>)
    ensures WellEnded(HandleAll(mode, NewTurn(id), cbs))
    ensures NoCancel(cbs) && HandleAll(mode, NewTurn(id), cbs).done ==> W.EndsClean(HandleAll(mode, NewTurn(id), cbs).chunks)
  {
    HandleAllEndsWell(mode, NewTurn(id), cbs);
  }

  // ---------------------------------------------------------------------------------------------
  // Tool fragments
  // ---------------------------------------------------------------------------------------------

  /** processServer gives every call a non-empty id. */
  predicate CallsHaveIds(cbs: seq<Callback>) {
    forall i :: 0 <= i < |cbs| ==> (cbs[i].OnExec? ==> cbs[i].id != "")
  }

  lemma {:induction false} FragmentsAppend(a: seq<Chunk>, b: seq<Chunk>)
    ensures W.Fragments(a + b) == W.Fragments(a) + W.Fragments(b)
    decreases |a|
  {
    if a == [] {
      assert a + b == b;
    } else {
      assert (a + b)[1..] == a[1..] + b;
      FragmentsAppend(a[1..], b);
      ConcatAssoc(W.ToolsIn(a[0]), W.Fragments(a[1..]), W.Fragments(b));
    }
  }

  lemma {:induction false} EmitFragments(t: Turn, c: Choice)
    ensures W.Fragments(Emit(t, c).chunks) == W.Fragments(t.chunks) + if t.done then [] else c.tools
    ensures W.Fragments(EmitUsage(t).chunks) == W.Fragments(t.chunks)
  {
    var chunk, usage := Chunk(t.id, Some(c)), Chunk(t.id, None);
    FragmentsAppend(t.chunks, [chunk]);
    FragmentsAppend(t.chunks, [usage]);
    assert [chunk][1..] == [] && [usage][1..] == [];
  }

  lemma {:induction false} SplitFragments(t: Turn, out: F.Split)
    ensures W.Fragments(EmitSplit(t, out).chunks) == W.Fragments(t.chunks)
    ensures EmitSplit(t, out).toolIndex == t.toolIndex
  {
    hide W.Fragments;
    EmitFragments(t, Thought(out.reasoning));
    var t' := if out.reasoning != "" then Emit(t, Thought(out.reasoning)) else t;
    EmitFragments(t'.(steps := AppendText(t'.steps, out.content)), Content(out.content, None));
  }

  /** A turn ends with its first call, so its fragments are at most that one, at index 0. */
  predicate FewFragments(t: Turn) {
    if t.done then |W.Fragments(t.chunks)| <= 1 && W.Orderly(W.Fragments(t.chunks))
    else W.Fragments(t.chunks) == [] && t.toolIndex == 0
  }

  lemma {:induction false} OneFragment(id: string, name: string, args: string)
    requires id != ""
    ensures W.Orderly([ToolDelta(Some(0), id, name, Some(args))]) && W.Orderly([])
  {
    var f := [ToolDelta(Some(0), id, name, Some(args))];
    assert f[..0] == [];
  }

  lemma {:induction false} HandleFragments(mode: Mode, t: Turn, cb: Callback)
    requires FewFragments(t) && (cb.OnExec? ==> cb.id != "")
    ensures FewFragments(Handle(mode, t, cb))
  {
    hide TextStep, ExecStep, CloseStep, W.Fragments, W.Orderly;
    OneFragment("id", "", "");
    if t.done {
      DoneIsSilent(mode, t, cb);
    } else {
      match cb
      case OnText(text, thinking) => TextFragments(t, text, thinking);
      case OnExec(id, name, args) => ExecFragments(mode, t, id, name, args);
      case OnProtocolError(message) => ErrorFragments(t, message);
      case OnEndError(message) => ErrorFragments(t, message);
      case OnClose(code) => CloseFragments(mode, t, code);
      case _ =>
    }
  }

  lemma {:induction false} TextFragments(t: Turn, text: string, thinking: bool)
    requires !t.done && FewFragments(t)
    ensures FewFragments(TextStep(t, text, thinking))
  {
    hide W.Fragments, W.Orderly, EmitSplit, F.Step;
    EmitFragments(t, Thought(text));
    var (out, tags) := F.Step(t.tags, text);
    SplitFragments(t.(tags := tags), out);
    SplitDone(t.(tags := tags), out);
  }

  lemma {:induction false} FlushFragments(t: Turn)
    ensures W.Fragments(FlushTags(t).chunks) == W.Fragments(t.chunks)
  {
    hide W.Fragments, EmitSplit;
    SplitFragments(t.(tags := F.State([], t.tags.inThinking)), F.Put(t.tags.buffer, t.tags.inThinking));
  }

  lemma {:induction false} CloseFragments(mode: Mode, t: Turn, code: int)
    requires !t.done && FewFragments(t)
    ensures FewFragments(CloseStep(mode, t, code)) && W.Fragments(CloseStep(mode, t, code).chunks) == W.Fragments(t.chunks)
  {
    hide W.Fragments, W.Orderly, FlushTags, ErrorStep, CloseMessage, EmitUsage;
    OneFragment("id", "", "");
    FlushFragments(t);
    FlushKeeps(t);
    var flushed := FlushTags(t);
    ErrorFragments(t, "Bridge connection lost");
    ErrorFragments(flushed, CloseMessage(code, t.turnEnded));
    ErrorFragments(flushed, CloseMessage(code, false));
    EmitFragments(flushed, Content("", Some("stop")));
    EmitFragments(Emit(flushed, Content("", Some("stop"))), Content("", None));
  }

  lemma {:induction false} SplitDone(t: Turn, out: F.Split)
    ensures EmitSplit(t, out).done == t.done
  {
  }

  lemma {:induction false} ErrorFragments(t: Turn, message: string)
    ensures forall mode :: W.Fragments(ErrorStep(mode, t, message).chunks) == W.Fragments(t.chunks)
    ensures forall mode :: ErrorStep(mode, t, message).done
  {
    EmitFragments(t, Content(message, Some("error")));
    EmitFragments(Emit(t, Content(message, Some("error"))), Content("", None));
  }

  lemma {:induction false} ExecFragments(mode: Mode, t: Turn, id: string, name: string, args: string)
    requires !t.done && W.Fragments(t.chunks) == [] && t.toolIndex == 0 && id != ""
    ensures FewFragments(ExecStep(mode, t, id, name, args))
    ensures W.Fragments(ExecStep(mode, t, id, name, args).chunks) == [ToolDelta(Some(0), id, name, Some(args))]
  {
    hide W.Fragments, W.Orderly, EmitSplit;
    OneFragment(id, name, args);
    var step := ToolCall(id, name, args);
    var frags := [ToolDelta(Some(0), id, name, Some(args))];
    assert [] + frags == frags && [] + frags + [] == frags;
    if mode.First? {
      var seen := t.(mcpSeen := true);
      FlushKeeps(seen);
      SplitFragments(seen.(tags := F.State([], t.tags.inThinking)), F.Put(t.tags.buffer, t.tags.inThinking));
      var flushed := FlushTags(seen);
      var next := flushed.(steps := flushed.steps + [step], toolIndex := t.toolIndex + 1);
      EmitFragments(next, ToolCallDelta(t.toolIndex, id, name, args, None));
      EmitFragments(Emit(next, ToolCallDelta(t.toolIndex, id, name, args, None)), Content("", Some("tool_calls")));
    } else {
      EmitFragments(t.(steps := t.steps + [step], toolIndex := t.toolIndex + 1),
                    ToolCallDelta(t.toolIndex, id, name, args, Some("tool_calls")));
    }
  }

  lemma {:induction false} AllFewFragments(mode: Mode, t: Turn, cbs: seq<Callback>)
    requires FewFragments(t) && CallsHaveIds(cbs)
    ensures FewFragments(HandleAll(mode, t, cbs))
    decreases |cbs|
  {
    hide Handle, FewFragments;
    if cbs != [] {
      HandleFragments(mode, t, cbs[0]);
      AllFewFragments(mode, Handle(mode, t, cbs[0]), cbs[1..]);
    }
  }

  // ---------------------------------------------------------------------------------------------
  // What the translators make of a turn
  // ---------------------------------------------------------------------------------------------

  lemma {:induction false} CleanEndsOnce(chunks: seq<Chunk>)
    requires W.EndsClean(chunks)
    ensures R.EndsOnce(chunks)
    decreases |chunks|
  {
    if R.Terminal(chunks[0]) {
      assert forall i :: 0 <= i < |chunks| - 1 ==> chunks[1..][i] == chunks[i + 1];
    } else {
      CleanEndsOnce(chunks[1..]);
    }
  }

  /** Every turn that ends without being cancelled reaches a Claude client as one complete message. */
  lemma {:induction false} EveryTurnIsAMessage(mode: Mode, id: string, generated: string, cbs: seq<Callback>)
    requires NoCancel(cbs) && HandleAll(mode, NewTurn(id), cbs).done
    ensures var chunks := HandleAll(mode, NewTurn(id), cbs).chunks;
            G.Transcript(C.Run(EmptyState(generated), C.ChatActions(false, chunks)).1)
  {
    var chunks := HandleAll(mode, NewTurn(id), cbs).chunks;
    EveryTurnEndsWell(mode, id, cbs);
    CleanEndsOnce(chunks);
    R.ChatStreamIsMessage(generated, chunks);
  }

  /** A Responses client is told the same by the stream and by the collected message exactly when the turn has text or a call but not both. */
  lemma {:induction false} EveryTurnStreamsAsCollected(mode: Mode, id: string, generated: string, cbs: seq<Callback>)
    requires NoCancel(cbs) && CallsHaveIds(cbs) && HandleAll(mode, NewTurn(id), cbs).done
    ensures var chunks := HandleAll(mode, NewTurn(id), cbs).chunks;
            W.CompletedOutput(W.Chunks(EmptyState(generated), chunks).1)
            == Some(W.WholeOutput(W.MessageOf(W.CollectAll(W.NOTHING, chunks))))
            <==> (W.Texts(chunks) == "") != (W.Fragments(chunks) == [])
  {
    EveryTurnEndsWell(mode, id, cbs);
    AllFewFragments(mode, NewTurn(id), cbs);
    W.StreamAgreesWithWhole(generated, HandleAll(mode, NewTurn(id), cbs).chunks);
  }
}
