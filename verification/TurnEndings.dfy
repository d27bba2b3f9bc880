/**
 How a Cursor turn ends, read off the callbacks alone: its finish reason, its error text, its usage chunk and
 what the conversation remembers of it.
 */
module TurnEndings {
  import opened Chat
  import opened CursorTurn
  import opened Sequences
  import opened TurnText
  import F = ThinkFilter
  import T = TurnGuarantees
  import W = ResponsesStream

  // ---------------------------------------------------------------------------------------------
  // What came
  // ---------------------------------------------------------------------------------------------

  /** The server said that its turn was over. */
  predicate Over(talk: seq<Callback>) {
    exists i :: 0 <= i < |talk| && talk[i].OnTurnEnded?
  }

  /** A checkpoint came after the server said so. */
  predicate Settled(talk: seq<Callback>) {
    exists i, j :: 0 <= i < j < |talk| && talk[i].OnTurnEnded? && talk[j].OnCheckpoint?
  }

  /** A close that ends the turn well. */
  predicate Stops(mode: Mode, talk: seq<Callback>, code: int) {
    match mode
    case First => Over(talk) && (code == 0 || Settled(talk))
    case Resumed => Over(talk) || code == 0
  }

  function Reason(mode: Mode, talk: seq<Callback>, last: Callback): string {
    match last
    case OnExec(_, _, _) => "tool_calls"
    case OnClose(code) => if Stops(mode, talk, code) then "stop" else "error"
    case _ => "error"
  }

  /** The text that goes out with the reason "error". */
  function Complaint(mode: Mode, talk: seq<Callback>, last: Callback): string {
    match last
    case OnProtocolError(message) => message
    case OnEndError(message) => message
    case OnClose(code) =>
      if Stops(mode, talk, code) then ""
      else if mode.First? && Over(talk) then "Cursor stream ended after turnEnded without a terminal checkpoint"
      else if code == 2 then "Cursor went silent waiting for the next token"
      else if code != 0 then "Cursor closed the stream before the turn finished"
      else "Cursor stream ended before turnEnded"
    case _ => ""
  }

  // ---------------------------------------------------------------------------------------------
  // What goes out
  // ---------------------------------------------------------------------------------------------

  function FinishOf(c: Chunk): seq<string> {
    if c.choice.Some? && c.choice.value.finish.Some? then [c.choice.value.finish.value] else []
  }

  /** The finish reasons sent, in order. */
  function Reasons(chunks: seq<Chunk>): seq<string> {
    if chunks == [] then [] else Reasons(chunks[..|chunks| - 1]) + FinishOf(chunks[|chunks| - 1])
  }

  /** How many usage chunks were sent. */
  function Usages(chunks: seq<Chunk>): nat {
    if chunks == [] then 0 else Usages(chunks[..|chunks| - 1]) + if chunks[|chunks| - 1].choice.None? then 1 else 0
  }

  predicate AllOf(id: string, chunks: seq<Chunk>) {
    forall i :: 0 <= i < |chunks| ==> chunks[i].id == id
  }

  /** t' has sent these finish reasons and so many usage chunks beyond what t had, and all under one id. */
  predicate Sends(t: Turn, t': Turn, reasons: seq<string>, usages: nat) {
    && Reasons(t'.chunks) == Reasons(t.chunks) + reasons
    && Usages(t'.chunks) == Usages(t.chunks) + usages
    && t'.id == t.id && (AllOf(t.id, t.chunks) ==> AllOf(t.id, t'.chunks))
  }

  lemma {:induction false} EmitSends(t: Turn, c: Choice)
    requires !t.done
    ensures Sends(t, Emit(t, c), if c.finish.Some? then [c.finish.value] else [], 0)
    ensures Sends(t, EmitUsage(t), [], 1)
  {
    var said, usage := Chunk(t.id, Some(c)), Chunk(t.id, None);
    assert (t.chunks + [said])[..|t.chunks|] == t.chunks && (t.chunks + [usage])[..|t.chunks|] == t.chunks;
  }

  lemma {:induction false} SendsTwice(a: Turn, b: Turn, c: Turn, x: seq<string>, m: nat, y: seq<string>, n: nat)
    requires Sends(a, b, x, m) && Sends(b, c, y, n)
    ensures Sends(a, c, x + y, m + n)
  {
    ConcatAssoc(Reasons(a.chunks), x, y);
  }

  lemma {:induction false} SplitSends(t: Turn, out: F.Split)
    requires !t.done
    ensures Sends(t, EmitSplit(t, out), [], 0)
  {
    hide Reasons, Usages, AllOf;
    var t1 := if out.reasoning != "" then Emit(t, Thought(out.reasoning)) else t;
    EmitSends(t, Thought(out.reasoning));
    assert Sends(t, t1, [], 0);
    var t2 := t1.(steps := AppendText(t1.steps, out.content));
    EmitSends(t2, Content(out.content, None));
  }

  lemma {:induction false} FlushSends(t: Turn)
    requires !t.done
    ensures Sends(t, FlushTags(t), [], 0) && FlushTags(t).done == t.done
  {
    hide EmitSplit, Reasons, Usages, AllOf;
    var empty := t.(tags := F.State([], t.tags.inThinking));
    SplitSends(empty, F.Put(t.tags.buffer, t.tags.inThinking));
    FlushKeeps(t);
  }

  lemma {:induction false} ErrorSends(mode: Mode, t: Turn, message: string)
    requires !t.done
    ensures Sends(t, ErrorStep(mode, t, message), ["error"], if mode.First? then 1 else 0)
  {
    hide Reasons, Usages, AllOf;
    EmitSends(t, Content(message, Some("error")));
    EmitSends(Emit(t, Content(message, Some("error"))), Content("", None));
  }

  lemma {:induction false} StopSends(t: Turn)
    requires !t.done
    ensures Sends(t, Emit(t, Content("", Some("stop"))), ["stop"], 0)
    ensures Sends(t, EmitUsage(Emit(t, Content("", Some("stop")))), ["stop"], 1)
  {
    hide Reasons, Usages, AllOf;
    EmitSends(t, Content("", Some("stop")));
    EmitSends(Emit(t, Content("", Some("stop"))), Content("", None));
  }

  // ---------------------------------------------------------------------------------------------
  // The callbacks
  // ---------------------------------------------------------------------------------------------

  /** The flags are what came so far. */
  predicate Knows(mode: Mode, t: Turn, came: seq<Callback>) {
    && !t.done && !t.mcpSeen && !t.cancelled
    && (t.turnEnded <==> Over(came))
    && (mode.First? ==> (t.terminalCheckpoint <==> Settled(came)))
  }

  lemma {:induction false} CameOneMore(came: seq<Callback>, cb: Callback)
    ensures Over(came + [cb]) <==> Over(came) || cb.OnTurnEnded?
    ensures Settled(came + [cb]) <==> Settled(came) || (Over(came) && cb.OnCheckpoint?)
  {
    var n, all := |came|, came + [cb];
    assert forall i :: 0 <= i < n ==> all[i] == came[i];
    assert all[n] == cb;
    if Over(came) {
      var i :| 0 <= i < n && came[i].OnTurnEnded?;
      assert all[i].OnTurnEnded?;
      if cb.OnCheckpoint? {
        assert i < n && all[n].OnCheckpoint?;
      }
    }
    if Settled(came) {
      var i, j :| 0 <= i < j < n && came[i].OnTurnEnded? && came[j].OnCheckpoint?;
      assert all[i].OnTurnEnded? && all[j].OnCheckpoint?;
    }
  }

  lemma {:induction false} SplitFlags(t: Turn, out: F.Split)
    ensures var t' := EmitSplit(t, out);
            t'.turnEnded == t.turnEnded && t'.terminalCheckpoint == t.terminalCheckpoint && t'.done == t.done &&
            t'.mcpSeen == t.mcpSeen && t'.cancelled == t.cancelled && t'.id == t.id
  {
  }

  lemma {:induction false} TalkOne(mode: Mode, t: Turn, came: seq<Callback>, cb: Callback)
    requires Knows(mode, t, came) && Talk(cb)
    ensures Knows(mode, Handle(mode, t, cb), came + [cb]) && Sends(t, Handle(mode, t, cb), [], 0)
  {
    hide Over, Settled, EmitSplit, F.Step, Reasons, Usages, AllOf;
    CameOneMore(came, cb);
    match cb
    case OnText(text, thinking) =>
      EmitSends(t, Thought(text));
      if !thinking {
        var (out, tags) := F.Step(t.tags, text);
        SplitSends(t.(tags := tags), out);
        SplitFlags(t.(tags := tags), out);
      }
    case OnCheckpoint =>
    case OnTurnEnded =>
  }

  lemma {:induction false} TalkAll(mode: Mode, t: Turn, came: seq<Callback>, talk: seq<Callback>)
    requires Knows(mode, t, came) && AllTalk(talk)
    ensures Knows(mode, HandleAll(mode, t, talk), came + talk) && Sends(t, HandleAll(mode, t, talk), [], 0)
    decreases |talk|
  {
    hide Handle, Knows, Talk;
    if talk == [] {
      assert came + talk == came && Reasons(t.chunks) + [] == Reasons(t.chunks);
    } else {
      hide Sends;
      var t' := Handle(mode, t, talk[0]);
      TalkOne(mode, t, came, talk[0]);
      TalkAll(mode, t', came + [talk[0]], talk[1..]);
      SendsTwice(t, t', HandleAll(mode, t', talk[1..]), [], 0, [], 0);
      assert came + [talk[0]] + talk[1..] == came + talk;
    }
  }

  function UsagesAt(mode: Mode, last: Callback): nat {
    if mode.First? && !last.OnExec? then 1 else 0
  }

  lemma {:induction false} CallSends(mode: Mode, t: Turn, id: string, name: string, args: string)
    requires !t.done
    ensures Sends(t, ExecStep(mode, t, id, name, args), ["tool_calls"], 0)
  {
    hide FlushTags, Reasons, Usages, AllOf;
    var step := ToolCall(id, name, args);
    if mode.First? {
      var seen := t.(mcpSeen := true);
      FlushSends(seen);
      FlushKeeps(seen);
      var flushed := FlushTags(seen);
      var next := flushed.(steps := flushed.steps + [step], toolIndex := t.toolIndex + 1);
      var called := Emit(next, ToolCallDelta(t.toolIndex, id, name, args, None));
      EmitSends(next, ToolCallDelta(t.toolIndex, id, name, args, None));
      EmitSends(called, Content("", Some("tool_calls")));
    } else {
      EmitSends(t.(steps := t.steps + [step], toolIndex := t.toolIndex + 1),
                ToolCallDelta(t.toolIndex, id, name, args, Some("tool_calls")));
    }
  }

  lemma {:induction false} CloseSends(mode: Mode, t: Turn, talk: seq<Callback>, code: int)
    requires Knows(mode, t, talk)
    ensures Sends(t, CloseStep(mode, t, code), [Reason(mode, talk, OnClose(code))], UsagesAt(mode, OnClose(code)))
    ensures Closing(mode, t, OnClose(code)) == Complaint(mode, talk, OnClose(code))
  {
    hide FlushTags, ErrorStep, Reasons, Usages, AllOf, Over, Settled;
    FlushSends(t);
    FlushKeeps(t);
    var flushed := FlushTags(t);
    ErrorSends(mode, flushed, CloseMessage(code, t.turnEnded));
    ErrorSends(mode, flushed, CloseMessage(code, false));
    StopSends(flushed);
  }

  lemma {:induction false} EndingSends(mode: Mode, t: Turn, talk: seq<Callback>, last: Callback)
    requires Knows(mode, t, talk) && Ending(last)
    ensures Sends(t, Handle(mode, t, last), [Reason(mode, talk, last)], UsagesAt(mode, last))
    ensures Closing(mode, t, last) == Complaint(mode, talk, last)
  {
    hide ExecStep, CloseStep, ErrorStep, Sends, Stops;
    match last
    case OnExec(id, name, args) => CallSends(mode, t, id, name, args);
    case OnClose(code) => CloseSends(mode, t, talk, code);
    case OnProtocolError(message) => ErrorSends(mode, t, message);
    case OnEndError(message) => ErrorSends(mode, t, message);
  }

  lemma {:induction false} NewTurnKnows(mode: Mode, id: string)
    ensures Knows(mode, NewTurn(id), []) && Reasons([]) == [] && Usages([]) == 0 && AllOf(id, [])
  {
  }

  /**
   A turn that talks and then ends sends one finish reason, which depends only on what came: a first turn stops if
   the server said it was over and closed cleanly or gave a checkpoint afterwards, a resumed one if either holds;
   a call gives "tool_calls"; everything else is an error, with its text. A first turn that makes no call sends its
   usage. Every chunk carries the id of the turn. Callbacks that come later change none of this.
   */
  lemma {:induction false} TurnEndsByItsCallbacks(mode: Mode, id: string, talk: seq<Callback>, last: Callback, after: seq<Callback>)
    requires AllTalk(talk) && Ending(last)
    ensures var chunks := HandleAll(mode, NewTurn(id), (talk + [last]) + after).chunks;
            && Reasons(chunks) == [Reason(mode, talk, last)]
            && Usages(chunks) == UsagesAt(mode, last)
            && AllOf(id, chunks)
            && LastWords(mode, id, talk, last) == Complaint(mode, talk, last)
  {
    hide Handle, HandleAll, Reason, Complaint, Closing, Knows, Reasons, Usages, AllOf;
    var t := HandleAll(mode, NewTurn(id), talk);
    var whole := Whole(mode, id, talk, last);
    NewTurnKnows(mode, id);
    TalkAll(mode, NewTurn(id), [], talk);
    assert [] + talk == talk;
    EndingSends(mode, t, talk, last);
    TurnEnds(mode, id, talk, last);
    HandleAllAppend(mode, NewTurn(id), talk + [last], after);
    TurnTellsItsText(mode, id, talk, last);
    T.DoneStaysDone(mode, whole, after);
  }

  /** A cancelled turn sends nothing of its own: what it had told stays, without a finish reason, whatever comes later. */
  lemma {:induction false} CancelSilences(mode: Mode, id: string, talk: seq<Callback>, after: seq<Callback>)
    requires AllTalk(talk)
    ensures var told, t := HandleAll(mode, NewTurn(id), talk), HandleAll(mode, NewTurn(id), (talk + [OnCancel]) + after);
            t.done && t.chunks == told.chunks && Reasons(t.chunks) == [] && Usages(t.chunks) == 0
  {
    hide Handle, HandleAll, Knows, Reasons, Usages, AllOf;
    var told := HandleAll(mode, NewTurn(id), talk);
    NewTurnKnows(mode, id);
    TalkAll(mode, NewTurn(id), [], talk);
    HandleAllAppend(mode, NewTurn(id), talk, [OnCancel]);
    HandleAllAppend(mode, NewTurn(id), talk + [OnCancel], after);
    HandleOne(mode, told, OnCancel);
    CancelOne(mode, told);
    T.DoneStaysDone(mode, Handle(mode, told, OnCancel), after);
  }

  lemma {:induction false} HandleOne(mode: Mode, t: Turn, cb: Callback)
    ensures HandleAll(mode, t, [cb]) == Handle(mode, t, cb)
  {
    assert [cb][1..] == [];
  }

  lemma {:induction false} CancelOne(mode: Mode, t: Turn)
    ensures Handle(mode, t, OnCancel).done && Handle(mode, t, OnCancel).chunks == t.chunks
  {
  }

  /** The chunks one callback adds: the thinking it brought, then the content, each under the turn's id. */
  function Told(id: string, out: F.Split): seq<Chunk> {
    (if out.reasoning != "" then [Chunk(id, Some(Choice(out.reasoning, "", [], None)))] else []) +
    (if out.content != "" then [Chunk(id, Some(Choice("", out.content, [], None)))] else [])
  }

  function ToldAll(id: string, f: F.State, talk: seq<Callback>): seq<Chunk>
    decreases |talk|
  {
    if talk == [] then []
    else
      var cb := talk[0];
      var (out, next) := HearOne(f, cb);
      (if cb.OnText? && cb.thinking then [Chunk(id, Some(Choice(cb.text, "", [], None)))] else Told(id, out)) +
      ToldAll(id, next, talk[1..])
  }

  lemma {:induction false} ToldOne(mode: Mode, t: Turn, cb: Callback)
    requires Talk(cb) && !t.done
    ensures var (out, next) := HearOne(t.tags, cb); var t' := Handle(mode, t, cb);
            && t'.chunks == t.chunks + (if cb.OnText? && cb.thinking then [Chunk(t.id, Some(Choice(cb.text, "", [], None)))]
                                        else Told(t.id, out))
            && t'.tags == next && t'.id == t.id && !t'.done
  {
    hide F.Step, EmitSplit;
    assert t.chunks + [] == t.chunks;
    if cb.OnText? && !cb.thinking {
      hide Told;
      var (out, tags) := F.Step(t.tags, cb.text);
      SplitTells(t.(tags := tags), out);
      SplitFlags(t.(tags := tags), out);
    }
  }

  lemma {:induction false} SplitTells(t: Turn, out: F.Split)
    requires !t.done
    ensures EmitSplit(t, out).chunks == t.chunks + Told(t.id, out) && EmitSplit(t, out).tags == t.tags
  {
    hide AppendText;
    assert t.chunks + [] == t.chunks;
    ConcatAssoc(t.chunks, Told(t.id, F.Split("", out.reasoning, false)), Told(t.id, F.Split(out.content, "", false)));
  }

  /** The chunks of a talking turn: for each text in turn, what the filter let through, the thinking before the content. */
  lemma {:induction false} TurnTellsInOrder(mode: Mode, t: Turn, talk: seq<Callback>)
    requires AllTalk(talk) && !t.done
    ensures HandleAll(mode, t, talk).chunks == t.chunks + ToldAll(t.id, t.tags, talk)
    decreases |talk|
  {
    hide Handle, HearOne, Told, Talk;
    if talk == [] {
      assert t.chunks + [] == t.chunks;
    } else {
      ToldOne(mode, t, talk[0]);
      TurnTellsInOrder(mode, Handle(mode, t, talk[0]), talk[1..]);
    }
  }

  /** What an ending sends: text it releases, the call or the last content with its finish reason, and the usage. */
  function LastChunks(mode: Mode, id: string, f: F.State, talk: seq<Callback>, last: Callback): seq<Chunk> {
    var call := if last.OnExec? then [ToolDelta(Some(0), last.id, last.name, Some(last.args))] else [];
    var reason := Some(Reason(mode, talk, last));
    var held := Told(id, F.Put(f.buffer, f.inThinking));
    match last
    case OnExec(_, _, _) =>
      if mode.First? then held + [Chunk(id, Some(Choice("", "", call, None))), Chunk(id, Some(Choice("", "", [], reason)))]
      else [Chunk(id, Some(Choice("", "", call, reason)))]
    case _ =>
      (if last.OnClose? then held else []) + [Chunk(id, Some(Choice("", Complaint(mode, talk, last), [], reason)))] +
      (if mode.First? then [Chunk(id, None)] else [])
  }

  lemma {:induction false} FlushTells(t: Turn)
    requires !t.done
    ensures FlushTags(t).chunks == t.chunks + Told(t.id, F.Put(t.tags.buffer, t.tags.inThinking))
  {
    hide EmitSplit, Told;
    SplitTells(t.(tags := F.State([], t.tags.inThinking)), F.Put(t.tags.buffer, t.tags.inThinking));
  }

  lemma {:induction false} CallTells(mode: Mode, t: Turn, talk: seq<Callback>, id: string, name: string, args: string)
    requires !t.done && t.toolIndex == 0
    ensures ExecStep(mode, t, id, name, args).chunks == t.chunks + LastChunks(mode, t.id, t.tags, talk, OnExec(id, name, args))
  {
    hide FlushTags, Told;
    if mode.First? {
      var seen := t.(mcpSeen := true);
      FlushTells(seen);
      FlushKeeps(seen);
    }
  }

  lemma {:induction false} ErrorTells(mode: Mode, t: Turn, message: string)
    requires !t.done
    ensures ErrorStep(mode, t, message).chunks ==
            t.chunks + ([Chunk(t.id, Some(Choice("", message, [], Some("error"))))] + if mode.First? then [Chunk(t.id, None)] else [])
  {
  }

  lemma {:induction false} StopTells(mode: Mode, t: Turn)
    requires !t.done
    ensures var stopped := Emit(t, Content("", Some("stop")));
            (if mode.First? then EmitUsage(stopped) else stopped).chunks ==
            t.chunks + ([Chunk(t.id, Some(Choice("", "", [], Some("stop"))))] + if mode.First? then [Chunk(t.id, None)] else [])
  {
  }

  lemma {:induction false} CloseTells(mode: Mode, t: Turn, talk: seq<Callback>, code: int)
    requires Knows(mode, t, talk)
    ensures CloseStep(mode, t, code).chunks == t.chunks + LastChunks(mode, t.id, t.tags, talk, OnClose(code))
  {
    hide FlushTags, ErrorStep, Emit, EmitUsage, Told, Over, Settled;
    var flushed := FlushTags(t);
    FlushTells(t);
    FlushKeeps(t);
    ErrorTells(mode, flushed, CloseMessage(code, t.turnEnded));
    ErrorTells(mode, flushed, CloseMessage(code, false));
    StopTells(mode, flushed);
  }

  lemma {:induction false} EndingTells(mode: Mode, t: Turn, talk: seq<Callback>, last: Callback)
    requires Knows(mode, t, talk) && t.toolIndex == 0 && Ending(last)
    ensures Handle(mode, t, last).chunks == t.chunks + LastChunks(mode, t.id, t.tags, talk, last)
  {
    hide ExecStep, CloseStep, ErrorStep, LastChunks;
    match last
    case OnExec(id, name, args) => CallTells(mode, t, talk, id, name, args);
    case OnClose(code) => CloseTells(mode, t, talk, code);
    case OnProtocolError(message) => ErrorEndTells(mode, t, talk, last, message);
    case OnEndError(message) => ErrorEndTells(mode, t, talk, last, message);
  }

  lemma {:induction false} ErrorEndTells(mode: Mode, t: Turn, talk: seq<Callback>, last: Callback, message: string)
    requires !t.done && (last == OnProtocolError(message) || last == OnEndError(message))
    ensures ErrorStep(mode, t, message).chunks == t.chunks + LastChunks(mode, t.id, t.tags, talk, last)
  {
    ErrorTells(mode, t, message);
    hide ErrorStep;
  }

  /** The turn chunk by chunk: what its texts told, in order, and then its ending; later callbacks add nothing. */
  lemma {:induction false} TurnIsExactly(mode: Mode, id: string, talk: seq<Callback>, last: Callback, after: seq<Callback>)
    requires AllTalk(talk) && Ending(last)
    ensures HandleAll(mode, NewTurn(id), (talk + [last]) + after).chunks ==
            ToldAll(id, F.State([], false), talk) + LastChunks(mode, id, HeldBack(talk), talk, last)
  {
    hide Handle, HandleAll, LastChunks, ToldAll, Hear, Knows, Reasons, Usages, AllOf;
    var t := HandleAll(mode, NewTurn(id), talk);
    var whole := Whole(mode, id, talk, last);
    NewTurnKnows(mode, id);
    TalkAll(mode, NewTurn(id), [], talk);
    assert [] + talk == talk;
    StillOpen(mode, t, talk);
    TurnTellsInOrder(mode, NewTurn(id), talk);
    NewTurnHasNone(id);
    TalkHasNoCall(mode, NewTurn(id), talk);
    TurnEnds(mode, id, talk, last);
    EndingTells(mode, t, talk, last);
    HandleAllAppend(mode, NewTurn(id), talk + [last], after);
    TurnTellsItsText(mode, id, talk, last);
    T.DoneStaysDone(mode, whole, after);
    assert [] + ToldAll(id, F.State([], false), talk) == ToldAll(id, F.State([], false), talk);
  }

  // ---------------------------------------------------------------------------------------------
  // What the conversation remembers
  // ---------------------------------------------------------------------------------------------

  /** At most one step, which said something. */
  function SaidOnly(text: string): seq<Step> {
    if text == "" then [] else [SaidText(text)]
  }

  lemma {:induction false} AppendToSaid(text: string, more: string)
    ensures AppendText(SaidOnly(text), more) == SaidOnly(text + more)
    ensures Remembered(SaidOnly(text)) == text
  {
    assert text + [] == text && [] + more == more;
    assert SaidOnly(text)[..0] == [];
    if text != "" {
      RememberedOne(SaidText(text));
    }
  }

  ghost predicate SaysOnly(t: Turn) {
    exists text :: t.steps == SaidOnly(text)
  }

  lemma {:induction false} SplitSaysOnly(t: Turn, out: F.Split)
    requires SaysOnly(t)
    ensures SaysOnly(EmitSplit(t, out))
  {
    hide AppendText, SaidOnly;
    var text :| t.steps == SaidOnly(text);
    AppendToSaid(text, out.content);
    if out.content != "" {
      assert EmitSplit(t, out).steps == SaidOnly(text + out.content);
    } else {
      assert EmitSplit(t, out).steps == SaidOnly(text);
    }
  }

  lemma {:induction false} FlushSaysOnly(t: Turn)
    requires SaysOnly(t)
    ensures SaysOnly(FlushTags(t))
  {
    hide EmitSplit;
    SplitSaysOnly(t.(tags := F.State([], t.tags.inThinking)), F.Put(t.tags.buffer, t.tags.inThinking));
  }

  lemma {:induction false} TalkSaysOnly(mode: Mode, t: Turn, talk: seq<Callback>)
    requires SaysOnly(t) && AllTalk(talk)
    ensures SaysOnly(HandleAll(mode, t, talk))
    decreases |talk|
  {
    hide EmitSplit, F.Step, SaysOnly;
    if talk != [] {
      assert Talk(talk[0]);
      var t' := Handle(mode, t, talk[0]);
      if talk[0].OnText? && !talk[0].thinking {
        var (out, tags) := F.Step(t.tags, talk[0].text);
        SameSteps(t, t.(tags := tags));
        SplitSaysOnly(t.(tags := tags), out);
      } else {
        SameSteps(t, t');
      }
      TalkSaysOnly(mode, t', talk[1..]);
    }
  }

  lemma {:induction false} SameSteps(t: Turn, u: Turn)
    requires u.steps == t.steps
    ensures SaysOnly(u) <==> SaysOnly(t)
  {
  }

  lemma {:induction false} EndingSteps(mode: Mode, t: Turn, last: Callback)
    requires SaysOnly(t) && !t.done && !t.mcpSeen && !t.cancelled && Ending(last)
    ensures exists text :: Handle(mode, t, last).steps ==
                           SaidOnly(text) + if last.OnExec? then [ToolCall(last.id, last.name, last.args)] else []
  {
    hide FlushTags, SaidOnly;
    FlushSaysOnly(t);
    FlushSaysOnly(t.(mcpSeen := true));
    FlushKeeps(t);
    var flushed := if last.OnExec? && mode.First? then FlushTags(t.(mcpSeen := true))
                   else if last.OnClose? then FlushTags(t) else t;
    assert SaysOnly(flushed);
    var text :| flushed.steps == SaidOnly(text);
    assert SaidOnly(text) + [] == SaidOnly(text);
    assert Handle(mode, t, last).steps == SaidOnly(text) + if last.OnExec? then [ToolCall(last.id, last.name, last.args)] else [];
  }

  /** The conversation remembers a turn as its text in one step, if there is any, and then its call, if it made one. */
  lemma {:induction false} TurnIsTextThenCall(mode: Mode, id: string, talk: seq<Callback>, last: Callback)
    requires AllTalk(talk) && Ending(last)
    ensures var steps := Whole(mode, id, talk, last).steps;
            steps == SaidOnly(Remembered(steps)) + if last.OnExec? then [ToolCall(last.id, last.name, last.args)] else []
  {
    hide Handle, HandleAll, Knows, Reasons, Usages, AllOf, Remembered, SaidOnly;
    var t := HandleAll(mode, NewTurn(id), talk);
    NewTurnKnows(mode, id);
    NewTurnSaysNothing(id);
    TalkAll(mode, NewTurn(id), [], talk);
    assert [] + talk == talk;
    TalkSaysOnly(mode, NewTurn(id), talk);
    assert Knows(mode, t, talk);
    StillOpen(mode, t, talk);
    EndingSteps(mode, t, last);
    TurnEnds(mode, id, talk, last);
    var call := if last.OnExec? then [ToolCall(last.id, last.name, last.args)] else [];
    var text :| Whole(mode, id, talk, last).steps == SaidOnly(text) + call;
    RememberedAppend(SaidOnly(text), call);
    AppendToSaid(text, "");
    RememberedNoCall(last);
    assert text + [] == text;
  }

  lemma {:induction false} StillOpen(mode: Mode, t: Turn, came: seq<Callback>)
    requires Knows(mode, t, came)
    ensures !t.done && !t.mcpSeen && !t.cancelled
  {
  }

  lemma {:induction false} NewTurnSaysNothing(id: string)
    ensures SaysOnly(NewTurn(id))
  {
    assert NewTurn(id).steps == SaidOnly("");
  }

  lemma {:induction false} RememberedNoCall(last: Callback)
    ensures Remembered(if last.OnExec? then [ToolCall(last.id, last.name, last.args)] else []) == []
  {
    if last.OnExec? {
      RememberedOne(ToolCall(last.id, last.name, last.args));
    }
  }

  // ---------------------------------------------------------------------------------------------
  // The turn collected into one message
  // ---------------------------------------------------------------------------------------------

  lemma {:induction false} ReasonsFirst(c: Chunk, rest: seq<Chunk>)
    ensures Reasons([c] + rest) == FinishOf(c) + Reasons(rest)
    decreases |rest|
  {
    hide FinishOf;
    var all := [c] + rest;
    if rest == [] {
      assert all[..0] == [];
      assert [] + FinishOf(c) == FinishOf(c) && FinishOf(c) + [] == FinishOf(c);
    } else {
      assert all[..|all| - 1] == [c] + rest[..|rest| - 1];
      ReasonsFirst(c, rest[..|rest| - 1]);
      ConcatAssoc(FinishOf(c), Reasons(rest[..|rest| - 1]), FinishOf(rest[|rest| - 1]));
    }
  }

  lemma {:induction false} NothingCollected(c: W.Collected, chunks: seq<Chunk>)
    requires forall i :: 0 <= i < |chunks| ==> chunks[i].choice.None?
    ensures W.CollectAll(c, chunks) == c
    decreases |chunks|
  {
    if chunks != [] {
      NothingCollected(c, chunks[1..]);
    }
  }

  lemma {:induction false} FinishCollected(c: W.Collected, chunks: seq<Chunk>, reason: string)
    requires W.EndsClean(chunks) && Reasons(chunks) == [reason] && reason != ""
    ensures W.CollectAll(c, chunks).finish == reason
    decreases |chunks|
  {
    hide Reasons, W.MergeAll;
    var first, rest := chunks[0], chunks[1..];
    assert chunks == [first] + rest;
    ReasonsFirst(first, rest);
    if first.choice.Some? && first.choice.value.finish.Some? {
      assert Reasons(chunks)[0] == first.choice.value.finish.value;
      assert forall i :: 0 <= i < |rest| ==> rest[i] == chunks[i + 1];
      NothingCollected(W.Collect(c, first), rest);
    } else {
      assert [] + Reasons(rest) == Reasons(rest);
      FinishCollected(W.Collect(c, first), rest, reason);
    }
  }

  lemma {:induction false} ReasonIsSomething(mode: Mode, talk: seq<Callback>, last: Callback)
    ensures Reason(mode, talk, last) != ""
  {
    hide Stops;
  }

  /**
   A turn read whole: its call and no text if it ended with one, else its text with any error text behind it; its
   reasoning; its finish reason; and status 502 exactly when that is "error".
   */
  lemma {:induction false} TurnReadWhole(mode: Mode, id: string, talk: seq<Callback>, last: Callback)
    requires AllTalk(talk) && Ending(last) && (last.OnExec? ==> last.id != "")
    ensures var t := Whole(mode, id, talk, last);
            var m := W.MessageOf(W.CollectAll(W.NOTHING, t.chunks));
            && m.content == (if last.OnExec? then None else Some(Remembered(t.steps) + Complaint(mode, talk, last)))
            && m.reasoning == W.Reasonings(t.chunks)
            && W.AsCalls(m.calls) == (if last.OnExec? then [Call(last.id, last.name, last.args)] else [])
            && m.finish == Reason(mode, talk, last)
            && W.StatusOf(m) == if Reason(mode, talk, last) == "error" then 502 else 200
  {
    hide HandleAll, Handle, Reason, Complaint, Closing, Remembered, Reasons, Usages, AllOf, W.Texts, W.Reasonings, W.MergeAll, W.CollectAll;
    hide W.Fragments, W.EndsClean, W.Orderly, T.FewFragments, Hear, F.Run, Pieces;
    var t := HandleAll(mode, NewTurn(id), talk);
    var chunks := Whole(mode, id, talk, last).chunks;
    TurnEndsByItsCallbacks(mode, id, talk, last, []);
    assert (talk + [last]) + [] == talk + [last];
    TurnTellsItsText(mode, id, talk, last);
    TurnEnds(mode, id, talk, last);
    NewTurnHasNone(id);
    TalkHasNoCall(mode, NewTurn(id), talk);
    EndingFragments(mode, t, last);
    NoneCancels(talk, last);
    T.EveryTurnEndsWell(mode, id, talk + [last]);
    W.ToolStepsNothing();
    W.CollectedAll(W.NOTHING, [], chunks);
    assert [] + W.Fragments(chunks) == W.Fragments(chunks);
    assert "" + W.Texts(chunks) == W.Texts(chunks) && "" + W.Reasonings(chunks) == W.Reasonings(chunks);
    ReasonIsSomething(mode, talk, last);
    FinishCollected(W.NOTHING, chunks, Reason(mode, talk, last));
    if last.OnExec? {
      MergedCall(last.id, last.name, last.args);
    } else {
      MergedCall("", "", "");
    }
  }

  lemma {:induction false} NoneCancels(talk: seq<Callback>, last: Callback)
    requires AllTalk(talk) && Ending(last)
    ensures T.NoCancel(talk + [last])
  {
    assert forall i :: 0 <= i < |talk| ==> Talk(talk[i]);
  }
}
