/** The chat-completion chunks that every streaming translator reads, and the state they keep. */
module Chat {

  datatype Option<+T> = None | Some(value: T)

  /** An entry of a delta's tool_calls; id and name are empty when absent. */
  datatype ToolDelta = ToolDelta(index: Option<int>, id: string, name: string, args: Option<string>)

  /** reasoning and content are empty when the delta has none; finish is None for a null finish_reason. */
  datatype Choice = Choice(reasoning: string, content: string, tools: seq<ToolDelta>, finish: Option<string>)

  /** choice is the first entry of choices; usage chunks have none. */
  datatype Chunk = Chunk(id: string, choice: Option<Choice>)

  function ArgsOf(t: ToolDelta): string {
    if t.args.Some? then t.args.value else ""
  }

  predicate OpensCall(t: ToolDelta) {
    t.id != "" || t.name != ""
  }

  datatype Kind = NoBlock | Thinking | Text | Tool

  /** A function_call item of the Responses format. */
  datatype Call = Call(id: string, name: string, args: string)

  /** The fields of StreamState. */
  datatype State = State(
    id: string, started: bool, finished: bool, error: string, hasTools: bool,
    toolIndex: nat, blockIndex: nat, blockKind: Kind,
    text: string, reasoning: string, tools: seq<Call>)

  function EmptyState(id: string): State {
    State(id, false, false, "", false, 0, 0, NoBlock, "", "", [])
  }

  /** What the proxy asks of the state once a stream is drained, to record it as ok. */
  predicate EndsWell(s: State) {
    s.error == "" && s.finished
  }

  const DEFAULT_ERROR := "provider stream error"

  /** captureStreamError: the text of an error chunk, or a default when nothing was captured yet. */
  function CaptureError(s: State, c: Choice): State {
    if c.finish != Some("error") then s
    else if c.content != "" then s.(error := c.content)
    else if s.error == "" then s.(error := DEFAULT_ERROR)
    else s
  }

  /** StreamState of internal/translate/types.go; Value is its fields as one value. */
  class StreamState {
    var id: string
    var started: bool
    var finished: bool
    var error: string
    var hasTools: bool
    var toolIndex: nat
    var blockIndex: nat
    var blockKind: Kind
    var text: string
    var reasoning: string
    var tools: seq<Call>

    constructor (id: string)
      ensures Value() == EmptyState(id)
    {
      this.id := id;
      started, finished, error, hasTools := false, false, "", false;
      toolIndex, blockIndex, blockKind := 0, 0, NoBlock;
      text, reasoning, tools := "", "", [];
    }

    function Value(): State
      reads this
    {
      State(id, started, finished, error, hasTools, toolIndex, blockIndex, blockKind, text, reasoning, tools)
    }
  }

  method CaptureStreamError(state: StreamState, c: Choice)
    modifies state
    ensures state.Value() == CaptureError(old(state.Value()), c)
  {
    if c.finish != Some("error") {
      return;
    }
    if c.content != "" {
      state.error := c.content;
      return;
    }
    if state.error == "" {
      state.error := DEFAULT_ERROR;
    }
  }
}
