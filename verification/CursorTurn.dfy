/**
 One Cursor turn with its callbacks run one at a time: the closures of runStream and resumeTools in
 internal/provider/cursor/protocol.go. A callback that processServer or the bridge makes is one value of
 Callback; protobuf decoding, checkpoints' bytes and the session tables are not part of this model.
 */
module CursorTurn {
  import opened Chat
  import opened Sequences
  import F = ThinkFilter

  const CLOSE_EOF := 0
  const CLOSE_IDLE := 2

  /** runStream serves a new request; resumeTools continues one after its tool results. */
  datatype Mode = First | Resumed

  datatype Callback =
    | OnText(text: string, thinking: bool)
    | OnExec(id: string, name: string, args: string)
    | OnCheckpoint
    | OnTurnEnded
    | OnProtocolError(message: string)
    | OnEndError(message: string)
    | OnClose(code: int)
    | OnCancel

  /** What the turn remembers of the conversation. */
  datatype Step = SaidText(text: string) | ToolCall(id: string, name: string, args: string)

  datatype Turn = Turn(
    id: string, done: bool, chunks: seq<Chunk>, tags: F.State, mcpSeen: bool, cancelled: bool,
    turnEnded: bool, terminalCheckpoint: bool, toolIndex: nat, steps: seq<Step>)

  function NewTurn(id: string): Turn {
    Turn(id, false, [], F.State([], false), false, false, false, false, 0, [])
  }

  function Thought(text: string): Choice {
    Choice(text, "", [], None)
  }

  function Content(text: string, finish: Option<string>): Choice {
    Choice("", text, [], finish)
  }

  function ToolCallDelta(index: nat, id: string, name: string, args: string, finish: Option<string>): Choice {
    Choice("", "", [ToolDelta(Some(index), id, name, Some(args))], finish)
  }

  function CloseMessage(code: int, turnEnded: bool): string {
    if turnEnded then "Cursor stream ended after turnEnded without a terminal checkpoint"
    else if code == CLOSE_IDLE then "Cursor went silent waiting for the next token"
    else if code != CLOSE_EOF then "Cursor closed the stream before the turn finished"
    else "Cursor stream ended before turnEnded"
  }

  function Emit(t: Turn, c: Choice): Turn {
    if t.done then t else t.(chunks := t.chunks + [Chunk(t.id, Some(c))])
  }

  function EmitUsage(t: Turn): Turn {
    if t.done then t else t.(chunks := t.chunks + [Chunk(t.id, None)])
  }

  function Finish(t: Turn): Turn {
    t.(done := true)
  }

  function AppendText(steps: seq<Step>, text: string): seq<Step> {
    if text == "" then steps
    else if steps != [] && steps[|steps| - 1].SaidText? then
      steps[|steps| - 1 := SaidText(steps[|steps| - 1].text + text)]
    else steps + [SaidText(text)]
  }

  function EmitAssistant(t: Turn, text: string): Turn {
    if text == "" then t else Emit(t.(steps := AppendText(t.steps, text)), Content(text, None))
  }

  function EmitSplit(t: Turn, out: F.Split): Turn {
    EmitAssistant(if out.reasoning != "" then Emit(t, Thought(out.reasoning)) else t, out.content)
  }

  function FlushTags(t: Turn): Turn {
    EmitSplit(t.(tags := F.State([], t.tags.inThinking)), F.Put(t.tags.buffer, t.tags.inThinking))
  }

  function TextStep(t: Turn, text: string, thinking: bool): Turn {
    if thinking then Emit(t, Thought(text))
    else
      var (out, tags) := F.Step(t.tags, text);
      EmitSplit(t.(tags := tags), out)
  }

  function ExecStep(mode: Mode, t: Turn, id: string, name: string, args: string): Turn {
    var step := ToolCall(id, name, args);
    match mode
    case First =>
      var flushed := FlushTags(t.(mcpSeen := true));
      var called := Emit(flushed.(steps := flushed.steps + [step], toolIndex := t.toolIndex + 1),
                         ToolCallDelta(t.toolIndex, id, name, args, None));
      Finish(Emit(called, Content("", Some("tool_calls"))))
    case Resumed =>
      Finish(Emit(t.(steps := t.steps + [step], toolIndex := t.toolIndex + 1),
                  ToolCallDelta(t.toolIndex, id, name, args, Some("tool_calls"))))
  }

  function ErrorStep(mode: Mode, t: Turn, message: string): Turn {
    var failed := Emit(t, Content(message, Some("error")));
    Finish(if mode.First? then EmitUsage(failed) else failed)
  }

  function CloseStep(mode: Mode, t: Turn, code: int): Turn {
    match mode
    case First =>
      if t.done then t
      else if t.cancelled || t.mcpSeen then
        if t.mcpSeen && code != CLOSE_EOF then ErrorStep(mode, t, "Bridge connection lost") else Finish(t)
      else
        var flushed := FlushTags(t);
        if !t.turnEnded || (code != CLOSE_EOF && !t.terminalCheckpoint)
        then ErrorStep(mode, flushed, CloseMessage(code, t.turnEnded))
        else Finish(EmitUsage(Emit(flushed, Content("", Some("stop")))))
    case Resumed =>
      var flushed := FlushTags(t);
      if t.turnEnded || code == CLOSE_EOF then Finish(Emit(flushed, Content("", Some("stop"))))
      else ErrorStep(mode, flushed, CloseMessage(code, false))
  }

  function Handle(mode: Mode, t: Turn, cb: Callback): Turn {
    match cb
    case OnText(text, thinking) => TextStep(t, text, thinking)
    case OnExec(id, name, args) => ExecStep(mode, t, id, name, args)
    case OnCheckpoint => if mode.First? && t.turnEnded then t.(terminalCheckpoint := true) else t
    case OnTurnEnded => t.(turnEnded := true)
    case OnProtocolError(message) => if mode.First? && t.cancelled then t else ErrorStep(mode, t, message)
    case OnEndError(message) => ErrorStep(mode, t, message)
    case OnClose(code) => CloseStep(mode, t, code)
    case OnCancel => Finish(if mode.First? then t.(cancelled := true) else t)
  }

  function HandleAll(mode: Mode, t: Turn, cbs: seq<Callback>): Turn
    decreases |cbs|
  {
    if cbs == [] then t else HandleAll(mode, Handle(mode, t, cbs[0]), cbs[1..])
  }

  // ---------------------------------------------------------------------------------------------
  // The closures
  // ---------------------------------------------------------------------------------------------

  class TurnRuntime {
    const mode: Mode
    const completionId: string
    const tags: F.ThinkingFilter
    var done: bool
    var chunks: seq<Chunk>
    var mcpSeen: bool
    var cancelled: bool
    var turnEnded: bool
    var terminalCheckpoint: bool
    var toolIndex: nat
    var steps: seq<Step>

    constructor (mode: Mode, completionId: string)
      ensures fresh(tags) && this.mode == mode
      ensures Value() == NewTurn(completionId)
    {
      this.mode, this.completionId := mode, completionId;
      tags := new F.ThinkingFilter();
      done, chunks, mcpSeen, cancelled := false, [], false, false;
      turnEnded, terminalCheckpoint, toolIndex, steps := false, false, 0, [];
    }

    function Value(): Turn
      reads this, tags
    {
      Turn(completionId, done, chunks, F.State(tags.buffer, tags.inThinking), mcpSeen, cancelled,
           turnEnded, terminalCheckpoint, toolIndex, steps)
    }

    method EmitChunk(delta: Choice)
      modifies this`chunks
      ensures Value() == Emit(old(Value()), delta)
    {
      if done {
        return;
      }
      chunks := chunks + [Chunk(completionId, Some(delta))];
    }

    method EmitUsageChunk()
      modifies this`chunks
      ensures Value() == EmitUsage(old(Value()))
    {
      if done {
        return;
      }
      chunks := chunks + [Chunk(completionId, None)];
    }

    method FinishTurn()
      modifies this`done
      ensures Value() == Finish(old(Value()))
    {
      done := true;
    }

    method AppendAssistantText(text: string)
      modifies this`steps
      ensures steps == AppendText(old(steps), text)
    {
      if text == "" {
        return;
      }
      var n := |steps|;
      if n > 0 && steps[n - 1].SaidText? {
        steps := steps[n - 1 := SaidText(steps[n - 1].text + text)];
        return;
      }
      steps := steps + [SaidText(text)];
    }

    method EmitAssistantText(text: string)
      modifies this`steps, this`chunks
      ensures Value() == EmitAssistant(old(Value()), text)
    {
      if text == "" {
        return;
      }
      AppendAssistantText(text);
      EmitChunk(Content(text, None));
    }

    /** Reasoning first, then content, each only when there is some. */
    method EmitParts(content: string, reasoning: string, ghost inThinking: bool)
      modifies this`steps, this`chunks
      ensures Value() == EmitSplit(old(Value()), F.Split(content, reasoning, inThinking))
    {
      if reasoning != "" {
        EmitChunk(Thought(reasoning));
      }
      if content != "" {
        EmitAssistantText(content);
      }
    }

    method Flush()
      modifies this`steps, this`chunks, tags
      ensures Value() == FlushTags(old(Value()))
    {
      hide EmitSplit;
      var c, r := tags.Flush();
      EmitParts(c, r, tags.inThinking);
    }

    method Text(text: string, thinking: bool)
      modifies this`steps, this`chunks, tags
      ensures Value() == TextStep(old(Value()), text, thinking)
    {
      hide EmitSplit, F.Step;
      if thinking {
        EmitChunk(Thought(text));
        return;
      }
      var content, reasoning := tags.Process(text);
      EmitParts(content, reasoning, tags.inThinking);
    }

    method Exec(id: string, name: string, args: string)
      modifies this, tags
      ensures Value() == ExecStep(mode, old(Value()), id, name, args)
    {
      hide FlushTags, Emit, Finish;
      if mode.First? {
        mcpSeen := true;
        Flush();
        FlushKeeps(old(Value()).(mcpSeen := true));
        EmitCall(id, name, args, None);
        EmitChunk(Content("", Some("tool_calls")));
      } else {
        EmitCall(id, name, args, Some("tool_calls"));
      }
      FinishTurn();
    }

    /** The call itself: the step remembered, the next index taken and the chunk emitted. */
    method EmitCall(id: string, name: string, args: string, finish: Option<string>)
      modifies this`steps, this`toolIndex, this`chunks
      ensures var t := old(Value());
              Value() == Emit(t.(steps := t.steps + [ToolCall(id, name, args)], toolIndex := t.toolIndex + 1),
                              ToolCallDelta(t.toolIndex, id, name, args, finish))
    {
      steps := steps + [ToolCall(id, name, args)];
      var idx := toolIndex;
      toolIndex := toolIndex + 1;
      EmitChunk(ToolCallDelta(idx, id, name, args, finish));
    }

    method Fail(message: string)
      modifies this
      ensures Value() == ErrorStep(mode, old(Value()), message)
    {
      EmitChunk(Content(message, Some("error")));
      if mode.First? {
        EmitUsageChunk();
      }
      FinishTurn();
    }

    method Closed(code: int)
      modifies this, tags
      ensures Value() == CloseStep(mode, old(Value()), code)
    {
      hide FlushTags, ErrorStep;
      if mode.First? {
        if done {
          FinishTurn();
          return;
        }
        if cancelled || mcpSeen {
          if mcpSeen && code != CLOSE_EOF {
            Fail("Bridge connection lost");
            return;
          }
          FinishTurn();
          return;
        }
        FlushKeeps(Value());
        Flush();
        if !turnEnded || (code != CLOSE_EOF && !terminalCheckpoint) {
          Fail(CloseMessage(code, turnEnded));
          return;
        }
        EmitChunk(Content("", Some("stop")));
        EmitUsageChunk();
        FinishTurn();
      } else {
        FlushKeeps(Value());
        Flush();
        if turnEnded || code == CLOSE_EOF {
          EmitChunk(Content("", Some("stop")));
          FinishTurn();
        } else {
          Fail(CloseMessage(code, false));
        }
      }
    }

    /** Dispatch of one callback, as processServer and the bridge make them. */
    method Dispatch(cb: Callback)
      modifies this, tags
      ensures Value() == Handle(mode, old(Value()), cb)
    {
      hide TextStep, ExecStep, ErrorStep, CloseStep;
      match cb {
        case OnText(text, thinking) => Text(text, thinking);
        case OnExec(id, name, args) => Exec(id, name, args);
        case OnCheckpoint =>
          if mode.First? && turnEnded {
            terminalCheckpoint := true;
          }
        case OnTurnEnded => turnEnded := true;
        case OnProtocolError(message) =>
          if mode.First? && cancelled {
            return;
          }
          Fail(message);
        case OnEndError(message) => Fail(message);
        case OnClose(code) => Closed(code);
        case OnCancel =>
          if mode.First? {
            cancelled := true;
          }
          FinishTurn();
      }
    }
  }

  lemma {:induction false} FlushKeeps(t: Turn)
    ensures var f := FlushTags(t);
            f.turnEnded == t.turnEnded && f.terminalCheckpoint == t.terminalCheckpoint && f.toolIndex == t.toolIndex &&
            f.done == t.done && f.mcpSeen == t.mcpSeen && f.cancelled == t.cancelled && f.id == t.id
  {
  }
}
