/**
 Chat requests translated to Claude and to Responses, and back again: the message loops of openaiChatToClaude
 and openaiChatToCodex (internal/translate/openai_chat.go), claudeToGrok (claude_messages.go) and
 responsesToGrok (openai_responses.go), with the content maps of content.go. Reading and printing JSON
 arguments is the parameter Codec. Null content is an empty list of parts.
 */
module RoundTrip {
  import opened Chat
  import opened Json
  import opened Sequences

  /** json.Unmarshal and json.Marshal of tool arguments, and json.Marshal of a tool message's parts. */
  datatype Codec = Codec(parse: string -> Option<Json>, render: Json -> string, renderParts: seq<Part> -> string)

  datatype Image = Url(url: string) | Base64(media: string, data: string)

  /** A content part of a chat message; ClaudePart is an image in Claude's shape, OtherPart any other type. */
  datatype Part = TextPart(text: string) | ImagePart(url: string) | ClaudePart(image: Image) | OtherPart

  datatype Content = Plain(text: string) | Parts(parts: seq<Part>)

  /** A chat message; roles other than these three are user. */
  datatype Msg =
    | System(content: Content)
    | User(content: Content)
    | Assistant(content: Content, reasoningContent: string, reasoning: string, calls: seq<Call>)
    | ToolMsg(id: string, content: Content)

  datatype Block =
    | TextBlock(text: string)
    | ImageBlock(image: Image)
    | ToolUse(id: string, name: string, input: Json)
    | ToolResult(id: string, output: string)
    | ThinkingBlock(thinking: string)

  datatype ClaudeContent = PlainString(text: string) | Blocks(blocks: seq<Block>)

  datatype ClaudeMsg = ClaudeMsg(assistant: bool, content: ClaudeContent)

  // ---------------------------------------------------------------------------------------------
  // Images
  // ---------------------------------------------------------------------------------------------

  /** The length of the part of s before the first semicolon. */
  function MediaEnd(s: string): (n: nat)
    ensures n <= |s| && (n < |s| ==> s[n] == ';') && ';' !in s[..n]
  {
    if s == "" || s[0] == ';' then 0
    else
      assert s[..MediaEnd(s[1..]) + 1] == [s[0]] + s[1..][..MediaEnd(s[1..])];
      MediaEnd(s[1..]) + 1
  }

  const DATA := "data:"
  const BASE64 := ";base64,"

  function DataURL(media: string, data: string): string {
    DATA + media + BASE64 + data
  }

  /** A base64 data URL taken apart, any other URL kept. */
  function ImageFromURL(url: string): Image {
    if DATA <= url then
      var rest := url[|DATA|..];
      var n := MediaEnd(rest);
      if n > 0 && BASE64 <= rest[n..] && |rest| > n + |BASE64| && '\n' !in rest[n + |BASE64|..]
      then Base64(rest[..n], rest[n + |BASE64|..])
      else Url(url)
    else Url(url)
  }

  function ImageURL(image: Image): string {
    match image
    case Url(url) => url
    case Base64(media, data) => if data == "" then "" else DataURL(media, data)
  }

  /** Taking an image URL to Claude's shape and back gives the URL again. */
  lemma {:induction false} ImageURLComesBack(url: string)
    ensures ImageURL(ImageFromURL(url)) == url
  {
    if ImageFromURL(url).Base64? {
      var rest := url[|DATA|..];
      var n := MediaEnd(rest);
      var media, data := rest[..n], rest[n + |BASE64|..];
      assert url == DATA + rest && rest == media + rest[n..] && rest[n..] == BASE64 + data;
      ConcatAssoc(DATA, media, BASE64 + data);
      ConcatAssoc(DATA + media, BASE64, data);
    }
  }

  // ---------------------------------------------------------------------------------------------
  // Chat to Claude
  // ---------------------------------------------------------------------------------------------

  function PartBlocks(p: Part): seq<Block> {
    match p
    case TextPart(text) => [TextBlock(text)]
    case ImagePart(url) => if url == "" then [] else [ImageBlock(ImageFromURL(url))]
    case ClaudePart(image) => if image.Base64? && image.data == "" then [] else [ImageBlock(image)]
    case OtherPart => []
  }

  function BlocksOf(ps: seq<Part>): seq<Block> {
    if ps == [] then [] else BlocksOf(ps[..|ps| - 1]) + PartBlocks(ps[|ps| - 1])
  }

  /** A lone text block becomes a plain string. */
  function Unwrap(blocks: seq<Block>): ClaudeContent {
    if |blocks| == 1 && blocks[0].TextBlock? then PlainString(blocks[0].text) else Blocks(blocks)
  }

  function ContentToClaude(c: Content): ClaudeContent {
    match c
    case Plain(text) => PlainString(text)
    case Parts(ps) => Unwrap(BlocksOf(ps))
  }

  method OpenAIContentToClaude(c: Content) returns (r: ClaudeContent)
    ensures r == ContentToClaude(c)
  {
    if c.Plain? {
      return PlainString(c.text);
    }
    var blocks: seq<Block> := [];
    for i := 0 to |c.parts|
      invariant blocks == BlocksOf(c.parts[..i])
    {
      assert c.parts[..i + 1][..i] == c.parts[..i];
      var p := c.parts[i];
      if p.TextPart? {
        blocks := blocks + [TextBlock(p.text)];
        continue;
      }
      if p.ImagePart? {
        if p.url != "" {
          blocks := blocks + [ImageBlock(ImageFromURL(p.url))];
        }
        continue;
      }
      if p.ClaudePart? && !(p.image.Base64? && p.image.data == "") {
        blocks := blocks + [ImageBlock(p.image)];
      }
    }
    assert c.parts[..|c.parts|] == c.parts;
    if |blocks| == 1 && blocks[0].TextBlock? {
      return PlainString(blocks[0].text);
    }
    r := Blocks(blocks);
  }

  function AsBlocks(c: ClaudeContent): seq<Block> {
    if c.Blocks? then c.blocks else [TextBlock(c.text)]
  }

  function Join(texts: seq<string>, sep: string): string {
    if texts == [] then ""
    else if |texts| == 1 then texts[0]
    else Join(texts[..|texts| - 1], sep) + sep + texts[|texts| - 1]
  }

  function Shown(text: string): seq<string> {
    if text == "" then [] else [text]
  }

  /** The texts flattenText joins: those of a chat content, and those of Claude blocks. */
  function PartTexts(ps: seq<Part>): seq<string> {
    if ps == [] then []
    else PartTexts(ps[..|ps| - 1]) + if ps[|ps| - 1].TextPart? then Shown(ps[|ps| - 1].text) else []
  }

  function BlockText(b: Block): string {
    match b
    case TextBlock(text) => text
    case ThinkingBlock(thinking) => thinking
    case _ => ""
  }

  function BlockTexts(bs: seq<Block>): seq<string> {
    if bs == [] then [] else BlockTexts(bs[..|bs| - 1]) + Shown(BlockText(bs[|bs| - 1]))
  }

  function FlattenContent(c: Content): string {
    if c.Plain? then c.text else Join(PartTexts(c.parts), "\n")
  }

  function FlattenClaude(c: ClaudeContent): string {
    if c.PlainString? then c.text else Join(BlockTexts(c.blocks), "\n")
  }

  /** System messages gathered into one. */
  function AddSystem(system: Option<ClaudeContent>, block: ClaudeContent): Option<ClaudeContent> {
    if system.None? then Some(block) else Some(Blocks(AsBlocks(system.value) + AsBlocks(block)))
  }

  function Input(codec: Codec, args: string): Json {
    match codec.parse(args)
    case Some(v) => v
    case None => Obj(map["raw" := Str(args)])
  }

  function ToolUses(codec: Codec, calls: seq<Call>): seq<Block> {
    if calls == [] then []
    else
      var c := calls[|calls| - 1];
      ToolUses(codec, calls[..|calls| - 1]) + [ToolUse(c.id, c.name, Input(codec, c.args))]
  }

  /** MessageReasoning: the first field that has any. */
  function ReasoningOf(m: Msg): string
    requires m.Assistant?
  {
    if m.reasoningContent != "" then m.reasoningContent else m.reasoning
  }

  /** The content blocks of an assistant message; an empty string gives none. */
  function OwnBlocks(c: Content): seq<Block> {
    var content := ContentToClaude(c);
    if content == PlainString("") then [] else AsBlocks(content)
  }

  function Thought(text: string): seq<Block> {
    if text == "" then [] else [ThinkingBlock(text)]
  }

  function MessageToClaude(codec: Codec, m: Msg): ClaudeMsg
    requires !m.System?
  {
    match m
    case ToolMsg(id, content) => ClaudeMsg(false, Blocks([ToolResult(id, FlattenContent(content))]))
    case Assistant(content, _, _, calls) =>
      ClaudeMsg(true, Unwrap(Thought(ReasoningOf(m)) + (OwnBlocks(content) + ToolUses(codec, calls))))
    case User(content) => ClaudeMsg(false, ContentToClaude(content))
  }

  type ClaudeRequest = (Option<ClaudeContent>, seq<ClaudeMsg>)

  function ToClaude(codec: Codec, msgs: seq<Msg>): ClaudeRequest {
    if msgs == [] then (None, [])
    else
      var (system, out) := ToClaude(codec, msgs[..|msgs| - 1]);
      var m := msgs[|msgs| - 1];
      if m.System? then (AddSystem(system, ContentToClaude(m.content)), out)
      else (system, out + [MessageToClaude(codec, m)])
  }

  /** injectClaudeCache wraps a nonempty system string in a block to hang the cache mark on. */
  function Cached(system: Option<ClaudeContent>): Option<ClaudeContent> {
    if system.Some? && system.value.PlainString? && system.value.text != "" then Some(Blocks(AsBlocks(system.value))) else system
  }

  method AssistantToClaude(codec: Codec, m: Msg) returns (r: ClaudeMsg)
    requires m.Assistant?
    ensures r == MessageToClaude(codec, m)
  {
    var content := OpenAIContentToClaude(m.content);
    var blocks: seq<Block> := [];
    if content.Blocks? {
      blocks := content.blocks;
    } else if content.text != "" {
      blocks := [TextBlock(content.text)];
    }
    ghost var own := blocks;
    assert own == OwnBlocks(m.content);
    for i := 0 to |m.calls|
      invariant blocks == own + ToolUses(codec, m.calls[..i])
    {
      assert m.calls[..i + 1][..i] == m.calls[..i];
      var c := m.calls[i];
      var input := Input(codec, c.args);
      blocks := blocks + [ToolUse(c.id, c.name, input)];
    }
    assert m.calls[..|m.calls|] == m.calls;
    var s := if m.reasoningContent != "" then m.reasoningContent else m.reasoning;
    if s != "" {
      blocks := [ThinkingBlock(s)] + blocks;
    } else {
      assert [] + blocks == blocks;
    }
    if |blocks| == 1 && blocks[0].TextBlock? {
      return ClaudeMsg(true, PlainString(blocks[0].text));
    }
    r := ClaudeMsg(true, Blocks(blocks));
  }

  method OpenAIChatToClaude(codec: Codec, messages: seq<Msg>) returns (system: Option<ClaudeContent>, out: seq<ClaudeMsg>)
    ensures (system, out) == (Cached(ToClaude(codec, messages).0), ToClaude(codec, messages).1)
  {
    hide ContentToClaude, FlattenContent, OwnBlocks, ToolUses;
    system, out := None, [];
    for i := 0 to |messages|
      invariant (system, out) == ToClaude(codec, messages[..i])
    {
      assert messages[..i + 1][..i] == messages[..i];
      var m := messages[i];
      if m.System? {
        var block := OpenAIContentToClaude(m.content);
        if system.None? {
          system := Some(block);
        } else {
          system := Some(Blocks(AsBlocks(system.value) + AsBlocks(block)));
        }
        continue;
      }
      if m.ToolMsg? {
        out := out + [ClaudeMsg(false, Blocks([ToolResult(m.id, FlattenContent(m.content))]))];
        continue;
      }
      if m.Assistant? {
        var a := AssistantToClaude(codec, m);
        out := out + [a];
        continue;
      }
      var content := OpenAIContentToClaude(m.content);
      out := out + [ClaudeMsg(false, content)];
    }
    assert messages[..|messages|] == messages;
    system := Cached(system);
  }

  // ---------------------------------------------------------------------------------------------
  // Claude to chat
  // ---------------------------------------------------------------------------------------------

  function Arguments(codec: Codec, input: Json): string {
    if input.Null? then "{}" else codec.render(input)
  }

  function CallsIn(codec: Codec, bs: seq<Block>): seq<Call> {
    if bs == [] then []
    else
      var b := bs[|bs| - 1];
      CallsIn(codec, bs[..|bs| - 1]) + if b.ToolUse? then [Call(b.id, b.name, Arguments(codec, b.input))] else []
  }

  function ThinkingIn(bs: seq<Block>): string {
    if bs == [] then ""
    else ThinkingIn(bs[..|bs| - 1]) + if bs[|bs| - 1].ThinkingBlock? then bs[|bs| - 1].thinking else ""
  }

  /** A block kept as it is in assistant content: images stay in Claude's shape. */
  function AsPart(b: Block): Part {
    match b
    case TextBlock(text) => TextPart(text)
    case ImageBlock(image) => ClaudePart(image)
    case _ => OtherPart
  }

  function PartsIn(bs: seq<Block>): seq<Part> {
    if bs == [] then []
    else
      var b := bs[|bs| - 1];
      PartsIn(bs[..|bs| - 1]) + if b.ToolUse? || b.ThinkingBlock? then [] else [AsPart(b)]
  }

  /** A lone text part becomes a plain string. */
  function Collapse(ps: seq<Part>): Content {
    if |ps| == 1 && ps[0].TextPart? then Plain(ps[0].text) else Parts(ps)
  }

  function ChatParts(bs: seq<Block>): seq<Part> {
    if bs == [] then []
    else
      var b := bs[|bs| - 1];
      ChatParts(bs[..|bs| - 1]) +
      if b.TextBlock? then [TextPart(b.text)]
      else if b.ImageBlock? && ImageURL(b.image) != "" then [ImagePart(ImageURL(b.image))]
      else []
  }

  function ContentToChat(c: ClaudeContent): Content {
    match c
    case PlainString(text) => Plain(text)
    case Blocks(bs) => Collapse(ChatParts(bs))
  }

  function Results(bs: seq<Block>): seq<Msg> {
    if bs == [] then []
    else
      var b := bs[|bs| - 1];
      Results(bs[..|bs| - 1]) + if b.ToolResult? then [ToolMsg(b.id, Plain(b.output))] else []
  }

  predicate HasResult(c: ClaudeContent) {
    c.Blocks? && exists i :: 0 <= i < |c.blocks| && c.blocks[i].ToolResult?
  }

  function MessageToChat(codec: Codec, m: ClaudeMsg): seq<Msg> {
    if m.assistant then
      var bs, thinking := AsBlocks(m.content), ThinkingIn(AsBlocks(m.content));
      [Assistant(Collapse(PartsIn(bs)), thinking, thinking, CallsIn(codec, bs))]
    else if HasResult(m.content) then Results(m.content.blocks)
    else [User(ContentToChat(m.content))]
  }

  function MessagesToChat(codec: Codec, ms: seq<ClaudeMsg>): seq<Msg> {
    if ms == [] then [] else MessagesToChat(codec, ms[..|ms| - 1]) + MessageToChat(codec, ms[|ms| - 1])
  }

  function SystemToChat(system: Option<ClaudeContent>): seq<Msg> {
    if system.None? then [] else [System(Plain(FlattenClaude(system.value)))]
  }

  method AssistantToChat(codec: Codec, content: ClaudeContent) returns (r: Msg)
    ensures [r] == MessageToChat(codec, ClaudeMsg(true, content))
  {
    var parts := AsBlocks(content);
    var toolCalls: seq<Call>, texts: seq<Part>, thinking := [], [], "";
    for i := 0 to |parts|
      invariant toolCalls == CallsIn(codec, parts[..i]) && texts == PartsIn(parts[..i]) && thinking == ThinkingIn(parts[..i])
    {
      assert parts[..i + 1][..i] == parts[..i];
      match parts[i] {
        case ToolUse(id, name, input) =>
          var args := if input.Null? then "{}" else codec.render(input);
          toolCalls := toolCalls + [Call(id, name, args)];
        case ThinkingBlock(text) => thinking := thinking + text;
        case b => texts := texts + [AsPart(b)];
      }
    }
    assert parts[..|parts|] == parts;
    var out := if |texts| == 1 && texts[0].TextPart? then Plain(texts[0].text) else Parts(texts);
    r := Assistant(out, thinking, thinking, toolCalls);
  }

  /** One round of the loop. */
  method ConvertMessage(codec: Codec, m: ClaudeMsg) returns (r: seq<Msg>)
    ensures r == MessageToChat(codec, m)
  {
    hide ContentToChat, Results, PartsIn, ThinkingIn, CallsIn;
    if m.assistant {
      var a := AssistantToChat(codec, m.content);
      r := [a];
    } else if HasResult(m.content) {
      r := ToolResults(m.content.blocks);
    } else {
      r := [User(ContentToChat(m.content))];
    }
  }

  method ClaudeToGrok(codec: Codec, system: Option<ClaudeContent>, ms: seq<ClaudeMsg>) returns (messages: seq<Msg>)
    ensures messages == SystemToChat(system) + MessagesToChat(codec, ms)
  {
    hide MessageToChat, FlattenClaude;
    messages := [];
    if system.Some? {
      messages := messages + [System(Plain(FlattenClaude(system.value)))];
    }
    ghost var head := messages;
    for i := 0 to |ms|
      invariant messages == head + MessagesToChat(codec, ms[..i])
    {
      assert ms[..i + 1][..i] == ms[..i];
      var more := ConvertMessage(codec, ms[i]);
      ghost var sofar := messages;
      messages := messages + more;
      ConcatAssoc(head, MessagesToChat(codec, ms[..i]), more);
    }
    assert ms[..|ms|] == ms;
  }

  method ToolResults(bs: seq<Block>) returns (r: seq<Msg>)
    ensures r == Results(bs)
  {
    r := [];
    for i := 0 to |bs|
      invariant r == Results(bs[..i])
    {
      assert bs[..i + 1][..i] == bs[..i];
      if bs[i].ToolResult? {
        r := r + [ToolMsg(bs[i].id, Plain(bs[i].output))];
      }
    }
    assert bs[..|bs|] == bs;
  }

  // ---------------------------------------------------------------------------------------------
  // There and back through Claude
  // ---------------------------------------------------------------------------------------------

  /** The round trip: what a chat conversation is after Claude's form. */
  function ThroughClaude(codec: Codec, msgs: seq<Msg>): seq<Msg> {
    var (system, out) := ToClaude(codec, msgs);
    SystemToChat(Cached(system)) + MessagesToChat(codec, out)
  }

  /** What a user's part comes back as: images as URLs, parts that say nothing not at all. */
  function UserPart(p: Part): seq<Part> {
    match p
    case TextPart(_) => [p]
    case ImagePart(url) => if url == "" then [] else [p]
    case ClaudePart(image) => if ImageURL(image) == "" then [] else [ImagePart(ImageURL(image))]
    case OtherPart => []
  }

  /** What an assistant's part comes back as: images in Claude's shape. */
  function AssistantPart(p: Part): seq<Part> {
    match p
    case TextPart(_) => [p]
    case ImagePart(url) => if url == "" then [] else [ClaudePart(ImageFromURL(url))]
    case ClaudePart(image) => if image.Base64? && image.data == "" then [] else [p]
    case OtherPart => []
  }

  function UserParts(ps: seq<Part>): seq<Part> {
    if ps == [] then [] else UserParts(ps[..|ps| - 1]) + UserPart(ps[|ps| - 1])
  }

  function AssistantParts(ps: seq<Part>): seq<Part> {
    if ps == [] then [] else AssistantParts(ps[..|ps| - 1]) + AssistantPart(ps[|ps| - 1])
  }

  /** Empty text on its own is no content. */
  function AssistantContent(c: Content): Content {
    var ps := if c.Plain? then [TextPart(c.text)] else AssistantParts(c.parts);
    if ps == [TextPart("")] then Parts([]) else Collapse(ps)
  }

  function CanonArgs(codec: Codec, args: string): string {
    match codec.parse(args)
    case Some(v) => if v.Null? then "{}" else codec.render(v)
    case None => codec.render(Obj(map["raw" := Str(args)]))
  }

  function CanonCalls(codec: Codec, calls: seq<Call>): (r: seq<Call>)
    ensures |r| == |calls|
    ensures forall i :: 0 <= i < |calls| ==> r[i] == Call(calls[i].id, calls[i].name, CanonArgs(codec, calls[i].args))
  {
    seq(|calls|, i requires 0 <= i < |calls| => Call(calls[i].id, calls[i].name, CanonArgs(codec, calls[i].args)))
  }

  /** What one message other than a system message comes back as. */
  function Canon(codec: Codec, m: Msg): Msg
    requires !m.System?
  {
    match m
    case User(Plain(text)) => m
    case User(Parts(ps)) => User(Collapse(UserParts(ps)))
    case Assistant(content, _, _, calls) =>
      Assistant(AssistantContent(content), ReasoningOf(m), ReasoningOf(m), CanonCalls(codec, calls))
    case ToolMsg(id, content) => ToolMsg(id, Plain(FlattenContent(content)))
  }

  function CanonAll(codec: Codec, msgs: seq<Msg>): seq<Msg> {
    if msgs == [] then []
    else
      var m := msgs[|msgs| - 1];
      CanonAll(codec, msgs[..|msgs| - 1]) + if m.System? then [] else [Canon(codec, m)]
  }

  /** Every text of every system message, in order. */
  function SystemTexts(msgs: seq<Msg>): seq<string> {
    if msgs == [] then []
    else
      var m := msgs[|msgs| - 1];
      SystemTexts(msgs[..|msgs| - 1]) +
      if !m.System? then [] else if m.content.Plain? then Shown(m.content.text) else PartTexts(m.content.parts)
  }

  predicate HasSystem(msgs: seq<Msg>) {
    exists i :: 0 <= i < |msgs| && msgs[i].System?
  }

  function GatheredSystem(msgs: seq<Msg>): seq<Msg> {
    if HasSystem(msgs) then [System(Plain(Join(SystemTexts(msgs), "\n")))] else []
  }

  lemma {:induction false} BlockTextsAppend(a: seq<Block>, b: seq<Block>)
    ensures BlockTexts(a + b) == BlockTexts(a) + BlockTexts(b)
    decreases |b|
  {
    if b == [] {
      assert a + b == a;
    } else {
      assert (a + b)[..|a + b| - 1] == a + b[..|b| - 1];
      BlockTextsAppend(a, b[..|b| - 1]);
    }
  }

  lemma {:induction false} PartText(p: Part)
    ensures BlockTexts(PartBlocks(p)) == if p.TextPart? then Shown(p.text) else []
  {
    hide ImageFromURL;
    var bs := PartBlocks(p);
    assert bs != [] ==> bs[..|bs| - 1] == [];
  }

  lemma {:induction false} PartTextsStay(ps: seq<Part>)
    ensures BlockTexts(BlocksOf(ps)) == PartTexts(ps)
  {
    if ps != [] {
      hide PartBlocks, BlockTexts;
      PartTextsStay(ps[..|ps| - 1]);
      BlockTextsAppend(BlocksOf(ps[..|ps| - 1]), PartBlocks(ps[|ps| - 1]));
      PartText(ps[|ps| - 1]);
    }
  }

  lemma {:induction false} UnwrapTexts(bs: seq<Block>)
    ensures AsBlocks(Unwrap(bs)) == bs
  {
  }

  lemma {:induction false} OneBlockText(text: string)
    ensures BlockTexts([TextBlock(text)]) == Shown(text)
  {
    assert [TextBlock(text)][..0] == [];
  }

  lemma {:induction false} ContentTexts(c: Content)
    ensures BlockTexts(AsBlocks(ContentToClaude(c))) == if c.Plain? then Shown(c.text) else PartTexts(c.parts)
  {
    match c
    case Plain(text) => OneBlockText(text);
    case Parts(ps) =>
      UnwrapTexts(BlocksOf(ps));
      PartTextsStay(ps);
  }

  lemma {:induction false} FlattenIsJoin(c: ClaudeContent)
    ensures FlattenClaude(c) == Join(BlockTexts(AsBlocks(c)), "\n")
    ensures FlattenClaude(Cached(Some(c)).value) == FlattenClaude(c)
  {
    if c.PlainString? {
      OneBlockText(c.text);
    }
  }

  lemma {:induction false} SystemGathered(codec: Codec, msgs: seq<Msg>)
    ensures var system := ToClaude(codec, msgs).0;
            && (system.Some? <==> HasSystem(msgs))
            && (system.Some? ==> BlockTexts(AsBlocks(system.value)) == SystemTexts(msgs))
            && (system.None? ==> SystemTexts(msgs) == [])
    decreases |msgs|
  {
    hide ContentToClaude, MessageToClaude, AsBlocks, BlockTexts, PartTexts, Shown;
    if msgs != [] {
      var front, m := msgs[..|msgs| - 1], msgs[|msgs| - 1];
      SystemGathered(codec, front);
      assert HasSystem(msgs) <==> HasSystem(front) || m.System?;
      if m.System? {
        var system, block := ToClaude(codec, front).0, ContentToClaude(m.content);
        ContentTexts(m.content);
        if system.Some? {
          SystemAdded(system.value, block);
        }
      }
    }
  }

  lemma {:induction false} SystemAdded(a: ClaudeContent, b: ClaudeContent)
    ensures BlockTexts(AsBlocks(Blocks(AsBlocks(a) + AsBlocks(b)))) == BlockTexts(AsBlocks(a)) + BlockTexts(AsBlocks(b))
  {
    BlockTextsAppend(AsBlocks(a), AsBlocks(b));
  }

  lemma {:induction false} CallsInAppend(codec: Codec, a: seq<Block>, b: seq<Block>)
    ensures CallsIn(codec, a + b) == CallsIn(codec, a) + CallsIn(codec, b)
    decreases |b|
  {
    if b == [] {
      assert a + b == a;
    } else {
      assert (a + b)[..|a + b| - 1] == a + b[..|b| - 1];
      CallsInAppend(codec, a, b[..|b| - 1]);
    }
  }

  lemma {:induction false} ThinkingInAppend(a: seq<Block>, b: seq<Block>)
    ensures ThinkingIn(a + b) == ThinkingIn(a) + ThinkingIn(b)
    decreases |b|
  {
    if b == [] {
      assert a + b == a;
    } else {
      assert (a + b)[..|a + b| - 1] == a + b[..|b| - 1];
      ThinkingInAppend(a, b[..|b| - 1]);
    }
  }

  lemma {:induction false} PartsInAppend(a: seq<Block>, b: seq<Block>)
    ensures PartsIn(a + b) == PartsIn(a) + PartsIn(b)
    decreases |b|
  {
    if b == [] {
      assert a + b == a;
    } else {
      assert (a + b)[..|a + b| - 1] == a + b[..|b| - 1];
      PartsInAppend(a, b[..|b| - 1]);
    }
  }

  lemma {:induction false} PushTool(codec: Codec, bs: seq<Block>, b: Block)
    requires b.ToolUse?
    ensures CallsIn(codec, bs + [b]) == CallsIn(codec, bs) + [Call(b.id, b.name, Arguments(codec, b.input))]
    ensures ThinkingIn(bs + [b]) == ThinkingIn(bs) && PartsIn(bs + [b]) == PartsIn(bs)
  {
    assert (bs + [b])[..|bs|] == bs;
  }

  /** What tool-use blocks, a thinking block and content blocks each give back, and do not give. */
  lemma {:induction false} ToolUsesComeBack(codec: Codec, calls: seq<Call>)
    ensures var bs := ToolUses(codec, calls);
            CallsIn(codec, bs) == CanonCalls(codec, calls) && ThinkingIn(bs) == "" && PartsIn(bs) == []
    decreases |calls|
  {
    if calls != [] {
      hide CallsIn, ThinkingIn, PartsIn;
      var front, c := calls[..|calls| - 1], calls[|calls| - 1];
      ToolUsesComeBack(codec, front);
      PushTool(codec, ToolUses(codec, front), ToolUse(c.id, c.name, Input(codec, c.args)));
      assert Arguments(codec, Input(codec, c.args)) == CanonArgs(codec, c.args);
      hide Input, Arguments, CanonArgs;
      assert CanonCalls(codec, calls) == CanonCalls(codec, front) + [Call(c.id, c.name, CanonArgs(codec, c.args))];
    }
  }

  lemma {:induction false} ThoughtComesBack(codec: Codec, text: string)
    ensures var bs := Thought(text);
            CallsIn(codec, bs) == [] && ThinkingIn(bs) == text && PartsIn(bs) == []
  {
    assert [ThinkingBlock(text)][..0] == [] && "" + text == text;
  }

  lemma {:induction false} PartsComeBack(codec: Codec, ps: seq<Part>)
    ensures var bs := BlocksOf(ps);
            && PartsIn(bs) == AssistantParts(ps) && CallsIn(codec, bs) == [] && ThinkingIn(bs) == ""
            && ChatParts(bs) == UserParts(ps) && forall i :: 0 <= i < |bs| ==> bs[i].TextBlock? || bs[i].ImageBlock?
    decreases |ps|
  {
    if ps != [] {
      PartsComeBack(codec, ps[..|ps| - 1]);
      BlocksOfLast(codec, ps);
    }
  }

  lemma {:induction false} PushBlock(codec: Codec, bs: seq<Block>, b: Block)
    requires b.TextBlock? || b.ImageBlock?
    ensures PartsIn(bs + [b]) == PartsIn(bs) + [AsPart(b)] && CallsIn(codec, bs + [b]) == CallsIn(codec, bs)
    ensures ThinkingIn(bs + [b]) == ThinkingIn(bs)
    ensures ChatParts(bs + [b]) == ChatParts(bs) + ChatPart(b)
  {
    assert (bs + [b])[..|bs|] == bs;
    hide ImageURL;
  }

  /** A block on its own. */
  lemma {:induction false} LoneBlock(b: Block)
    ensures b.TextBlock? || b.ImageBlock? ==> PartsIn([b]) == [AsPart(b)]
    ensures ChatParts([b]) == ChatPart(b)
  {
    hide ImageURL;
    assert [b][..0] == [];
    assert [] + [AsPart(b)] == [AsPart(b)] && [] + ChatPart(b) == ChatPart(b);
  }

  function ChatPart(b: Block): seq<Part> {
    if b.TextBlock? then [TextPart(b.text)]
    else if b.ImageBlock? && ImageURL(b.image) != "" then [ImagePart(ImageURL(b.image))]
    else []
  }

  /** One part makes one block or none, and the block gives back the part's canonical form. */
  lemma {:induction false} OnePart(p: Part)
    ensures PartBlocks(p) == [] ==> AssistantPart(p) == [] && UserPart(p) == []
    ensures PartBlocks(p) != [] ==>
              var b := PartBlocks(p)[0];
              PartBlocks(p) == [b] && (b.TextBlock? || b.ImageBlock?) && AssistantPart(p) == [AsPart(b)] && UserPart(p) == ChatPart(b)
  {
    if p.ImagePart? {
      ImageURLComesBack(p.url);
    }
    hide ImageFromURL;
  }

  /** One more part. */
  lemma {:induction false} BlocksOfLast(codec: Codec, ps: seq<Part>)
    requires ps != []
    ensures var front, p := BlocksOf(ps[..|ps| - 1]), ps[|ps| - 1];
            && PartsIn(BlocksOf(ps)) == PartsIn(front) + AssistantPart(p)
            && CallsIn(codec, BlocksOf(ps)) == CallsIn(codec, front) && ThinkingIn(BlocksOf(ps)) == ThinkingIn(front)
            && ChatParts(BlocksOf(ps)) == ChatParts(front) + UserPart(p)
  {
    hide PartBlocks, AssistantPart, UserPart, PartsIn, CallsIn, ThinkingIn, ChatParts, ChatPart;
    var front, p := BlocksOf(ps[..|ps| - 1]), ps[|ps| - 1];
    OnePart(p);
    if PartBlocks(p) != [] {
      PushBlock(codec, front, PartBlocks(p)[0]);
    } else {
      assert front + [] == front;
    }
  }

  /** An assistant's own blocks give back its canonical content and nothing else. */
  lemma {:induction false} OwnBlocksComeBack(codec: Codec, c: Content)
    ensures var bs := OwnBlocks(c);
            CallsIn(codec, bs) == [] && ThinkingIn(bs) == "" && Collapse(PartsIn(bs)) == AssistantContent(c)
  {
    match c
    case Plain(text) =>
      PushBlock(codec, [], TextBlock(text));
      assert [] + [TextBlock(text)] == [TextBlock(text)];
    case Parts(ps) =>
      PartsComeBack(codec, ps);
      LoneEmptyText(codec, ps);
  }

  lemma {:induction false} LoneEmptyText(codec: Codec, ps: seq<Part>)
    ensures ContentToClaude(Parts(ps)) == PlainString("") <==> AssistantParts(ps) == [TextPart("")]
    ensures AsBlocks(ContentToClaude(Parts(ps))) == BlocksOf(ps)
  {
    hide BlocksOf, AssistantParts, PartsIn, CallsIn, ThinkingIn, ChatParts, UserParts;
    PartsComeBack(codec, ps);
    UnwrapTexts(BlocksOf(ps));
    LoneEmptyBlock(BlocksOf(ps));
  }

  lemma {:induction false} LoneEmptyBlock(bs: seq<Block>)
    requires forall i :: 0 <= i < |bs| ==> bs[i].TextBlock? || bs[i].ImageBlock?
    ensures Unwrap(bs) == PlainString("") <==> PartsIn(bs) == [TextPart("")]
  {
    hide PartsIn, CallsIn, ThinkingIn, ChatParts;
    PartsInSize(bs);
    if |bs| == 1 {
      assert bs == [bs[0]];
      LoneBlock(bs[0]);
    }
  }

  lemma {:induction false} PartsInSize(bs: seq<Block>)
    requires forall i :: 0 <= i < |bs| ==> bs[i].TextBlock? || bs[i].ImageBlock?
    ensures |PartsIn(bs)| == |bs|
    decreases |bs|
  {
    if bs != [] {
      PartsInSize(bs[..|bs| - 1]);
    }
  }

  lemma {:induction false} AssistantComesBack(codec: Codec, m: Msg)
    requires m.Assistant?
    ensures MessageToChat(codec, MessageToClaude(codec, m)) == [Canon(codec, m)]
  {
    hide OwnBlocks, ToolUses, Thought, AssistantContent, CanonCalls, CallsIn, ThinkingIn, PartsIn;
    var thought, own, uses := Thought(ReasoningOf(m)), OwnBlocks(m.content), ToolUses(codec, m.calls);
    var bs := thought + (own + uses);
    UnwrapTexts(bs);
    OwnBlocksComeBack(codec, m.content);
    ToolUsesComeBack(codec, m.calls);
    ThoughtComesBack(codec, ReasoningOf(m));
    CallsInAppend(codec, thought, own + uses);
    CallsInAppend(codec, own, uses);
    ThinkingInAppend(thought, own + uses);
    ThinkingInAppend(own, uses);
    PartsInAppend(thought, own + uses);
    PartsInAppend(own, uses);
    assert [] + CanonCalls(codec, m.calls) == CanonCalls(codec, m.calls);
    assert ReasoningOf(m) + "" == ReasoningOf(m);
    assert [] + (PartsIn(own) + []) == PartsIn(own);
  }

  lemma {:induction false} UserComesBack(codec: Codec, c: Content)
    ensures MessageToChat(codec, MessageToClaude(codec, User(c))) == [Canon(codec, User(c))]
  {
    if c.Parts? {
      hide UserParts, AssistantParts, ChatParts, CallsIn, ThinkingIn, PartsIn, BlocksOf;
      PartsComeBack(codec, c.parts);
      LoneText(BlocksOf(c.parts));
    }
  }

  lemma {:induction false} LoneText(bs: seq<Block>)
    ensures ContentToChat(Unwrap(bs)) == Collapse(ChatParts(bs))
  {
    hide ChatParts;
    if |bs| == 1 && bs[0].TextBlock? {
      assert bs == [bs[0]];
      LoneBlock(bs[0]);
    }
  }

  lemma {:induction false} ToolComesBack(codec: Codec, id: string, c: Content)
    ensures MessageToChat(codec, MessageToClaude(codec, ToolMsg(id, c))) == [Canon(codec, ToolMsg(id, c))]
  {
    hide FlattenContent;
    var bs := [ToolResult(id, FlattenContent(c))];
    assert bs[..0] == [] && bs[0].ToolResult?;
    assert Results(bs) == [ToolMsg(id, Plain(FlattenContent(c)))];
  }

  lemma {:induction false} MessagesComeBack(codec: Codec, msgs: seq<Msg>)
    ensures MessagesToChat(codec, ToClaude(codec, msgs).1) == CanonAll(codec, msgs)
    decreases |msgs|
  {
    hide MessageToClaude, MessageToChat, Canon;
    if msgs != [] {
      var front, m := msgs[..|msgs| - 1], msgs[|msgs| - 1];
      MessagesComeBack(codec, front);
      if !m.System? {
        match m
        case User(c) => UserComesBack(codec, c);
        case ToolMsg(id, c) => ToolComesBack(codec, id, c);
        case Assistant(_, _, _, _) => AssistantComesBack(codec, m);
        var out := ToClaude(codec, front).1;
        assert (out + [MessageToClaude(codec, m)])[..|out|] == out;
      }
    }
  }

  /**
   Every conversation comes back from Claude's form as its canonical form: one system message holding all
   system texts, then every other message in place, changed only as Canon says.
   */
  lemma {:induction false} ThroughClaudeIsCanonical(codec: Codec, msgs: seq<Msg>)
    ensures ThroughClaude(codec, msgs) == GatheredSystem(msgs) + CanonAll(codec, msgs)
  {
    hide ToClaude, Cached, FlattenClaude, SystemTexts, BlockTexts;
    SystemGathered(codec, msgs);
    MessagesComeBack(codec, msgs);
    var system := ToClaude(codec, msgs).0;
    if system.Some? {
      FlattenIsJoin(system.value);
      CachedIsSome(system);
    } else {
      CachedIsSome(system);
    }
  }

  lemma {:induction false} CachedIsSome(system: Option<ClaudeContent>)
    ensures Cached(system).Some? == system.Some?
  {
  }

  // ---------------------------------------------------------------------------------------------
  // The conversations that come back unchanged
  // ---------------------------------------------------------------------------------------------

  predicate UserOk(p: Part) {
    p.TextPart? || (p.ImagePart? && p.url != "")
  }

  predicate AssistantOk(p: Part) {
    p.TextPart? || (p.ClaudePart? && !(p.image.Base64? && p.image.data == ""))
  }

  predicate LoneTextPart(ps: seq<Part>) {
    |ps| == 1 && ps[0].TextPart?
  }

  /** Arguments printed as the codec prints them. */
  predicate CanonicalCalls(codec: Codec, calls: seq<Call>) {
    forall i :: 0 <= i < |calls| ==> CanonArgs(codec, calls[i].args) == calls[i].args
  }

  predicate ContentSettled(c: Content) {
    match c
    case Plain(text) => text != ""
    case Parts(ps) => !LoneTextPart(ps) && forall i :: 0 <= i < |ps| ==> AssistantOk(ps[i])
  }

  /** A message other than system in the form it comes back in. */
  predicate Settled(codec: Codec, m: Msg)
    requires !m.System?
  {
    match m
    case User(Plain(_)) => true
    case User(Parts(ps)) => !LoneTextPart(ps) && forall i :: 0 <= i < |ps| ==> UserOk(ps[i])
    case Assistant(content, rc, r, calls) =>
      rc == r && CanonicalCalls(codec, calls) && ContentSettled(content)
    case ToolMsg(_, content) => content.Plain?
  }

  /** At most one system message, leading and a plain string; every other message settled. */
  predicate Canonical(codec: Codec, msgs: seq<Msg>) {
    forall i :: 0 <= i < |msgs| ==> if msgs[i].System? then i == 0 && msgs[i].content.Plain? else Settled(codec, msgs[i])
  }

  lemma {:induction false} UserPartsFixed(ps: seq<Part>)
    ensures |UserParts(ps)| <= |ps|
    ensures UserParts(ps) == ps <==> forall i :: 0 <= i < |ps| ==> UserOk(ps[i])
    decreases |ps|
  {
    hide UserPart, UserOk;
    if ps != [] {
      var front, p := ps[..|ps| - 1], ps[|ps| - 1];
      UserPartsFixed(front);
      assert ps == front + [p];
      UserPartFixed(p);
      if UserParts(ps) == ps {
        assert UserPart(p) == [UserParts(ps)[|ps| - 1]];
        assert UserParts(ps)[..|ps| - 1] == front;
      }
    }
  }

  lemma {:induction false} UserPartFixed(p: Part)
    ensures |UserPart(p)| <= 1 && (UserPart(p) == [p] <==> UserOk(p)) && (UserPart(p) != [] ==> UserOk(UserPart(p)[0]))
  {
    hide ImageURL;
  }

  lemma {:induction false} AssistantPartsFixed(ps: seq<Part>)
    ensures |AssistantParts(ps)| <= |ps|
    ensures AssistantParts(ps) == ps <==> forall i :: 0 <= i < |ps| ==> AssistantOk(ps[i])
    decreases |ps|
  {
    hide AssistantPart, AssistantOk;
    if ps != [] {
      var front, p := ps[..|ps| - 1], ps[|ps| - 1];
      AssistantPartsFixed(front);
      assert ps == front + [p];
      AssistantPartFixed(p);
      if AssistantParts(ps) == ps {
        assert AssistantPart(p) == [AssistantParts(ps)[|ps| - 1]];
        assert AssistantParts(ps)[..|ps| - 1] == front;
      }
    }
  }

  lemma {:induction false} AssistantPartFixed(p: Part)
    ensures |AssistantPart(p)| <= 1 && (AssistantPart(p) == [p] <==> AssistantOk(p))
    ensures AssistantPart(p) != [] ==> AssistantOk(AssistantPart(p)[0])
  {
  }

  lemma {:induction false} CanonFixed(codec: Codec, m: Msg)
    requires !m.System?
    ensures Canon(codec, m) == m <==> Settled(codec, m)
  {
    hide CanonArgs, UserParts, AssistantParts, UserOk, AssistantOk;
    match m
    case User(Plain(_)) =>
    case User(Parts(ps)) => UserPartsFixed(ps);
    case Assistant(content, _, _, calls) =>
      hide AssistantContent, CanonicalCalls, CanonCalls;
      CallsFixed(codec, calls);
      AssistantContentFixed(content);
    case ToolMsg(_, _) =>
  }

  lemma {:induction false} CallsFixed(codec: Codec, calls: seq<Call>)
    ensures CanonCalls(codec, calls) == calls <==> CanonicalCalls(codec, calls)
  {
    hide CanonArgs;
    var canon := CanonCalls(codec, calls);
    forall i | 0 <= i < |calls|
      ensures canon[i] == calls[i] <==> CanonArgs(codec, calls[i].args) == calls[i].args
    {
    }
  }

  lemma {:induction false} AssistantContentFixed(c: Content)
    ensures AssistantContent(c) == c <==> ContentSettled(c)
  {
    hide AssistantParts, AssistantOk;
    if c.Parts? {
      AssistantPartsFixed(c.parts);
      NoAssistantParts();
    }
  }

  lemma {:induction false} NoAssistantParts()
    ensures AssistantParts([]) == []
  {
  }

  lemma {:induction false} CanonAllAppend(codec: Codec, a: seq<Msg>, b: seq<Msg>)
    ensures CanonAll(codec, a + b) == CanonAll(codec, a) + CanonAll(codec, b)
    ensures SystemTexts(a + b) == SystemTexts(a) + SystemTexts(b)
    decreases |b|
  {
    hide Canon, PartTexts;
    if b == [] {
      assert a + b == a;
    } else {
      assert (a + b)[..|a + b| - 1] == a + b[..|b| - 1];
      CanonAllAppend(codec, a, b[..|b| - 1]);
    }
  }

  lemma {:induction false} CanonAllPointwise(codec: Codec, msgs: seq<Msg>)
    requires forall i :: 0 <= i < |msgs| ==> !msgs[i].System?
    ensures |CanonAll(codec, msgs)| == |msgs| && SystemTexts(msgs) == []
    ensures forall i :: 0 <= i < |msgs| ==> CanonAll(codec, msgs)[i] == Canon(codec, msgs[i])
    decreases |msgs|
  {
    hide Canon;
    if msgs != [] {
      CanonAllPointwise(codec, msgs[..|msgs| - 1]);
    }
  }

  lemma {:induction false} CanonAllHasNoSystem(codec: Codec, msgs: seq<Msg>)
    ensures forall i :: 0 <= i < |CanonAll(codec, msgs)| ==> !CanonAll(codec, msgs)[i].System?
    decreases |msgs|
  {
    if msgs != [] {
      CanonAllHasNoSystem(codec, msgs[..|msgs| - 1]);
    }
  }

  /** Messages without a system message are their own canonical forms exactly when each is settled. */
  lemma {:induction false} CanonAllFixed(codec: Codec, msgs: seq<Msg>)
    requires forall i :: 0 <= i < |msgs| ==> !msgs[i].System?
    ensures CanonAll(codec, msgs) == msgs <==> forall i :: 0 <= i < |msgs| ==> Settled(codec, msgs[i])
  {
    hide Canon, Settled, CanonAll;
    CanonAllPointwise(codec, msgs);
    forall i | 0 <= i < |msgs|
      ensures CanonAll(codec, msgs)[i] == msgs[i] <==> Settled(codec, msgs[i])
    {
      CanonFixed(codec, msgs[i]);
    }
  }

  /** One leading system message and no other: what is gathered is that message again if it is a plain string. */
  lemma {:induction false} LeadingSystem(codec: Codec, content: Content, rest: seq<Msg>)
    requires forall i :: 0 <= i < |rest| ==> !rest[i].System?
    ensures CanonAll(codec, [System(content)] + rest) == CanonAll(codec, rest)
    ensures GatheredSystem([System(content)] + rest) == [System(content)] <==> content.Plain?
  {
    var msgs := [System(content)] + rest;
    assert msgs[0].System?;
    CanonAllAppend(codec, [System(content)], rest);
    CanonAllPointwise(codec, rest);
    assert [System(content)][..0] == [];
    assert SystemTexts(msgs) == SystemTexts([System(content)]) + [];
    if content.Plain? {
      assert SystemTexts([System(content)]) == Shown(content.text);
    }
  }

  /** The round trip through Claude is the identity on exactly the canonical conversations. */
  lemma {:induction false} UnchangedIffCanonical(codec: Codec, msgs: seq<Msg>)
    ensures ThroughClaude(codec, msgs) == msgs <==> Canonical(codec, msgs)
  {
    hide Settled, CanonAll, ThroughClaude, SystemTexts;
    ThroughClaudeIsCanonical(codec, msgs);
    CanonAllHasNoSystem(codec, msgs);
    if !HasSystem(msgs) {
      assert [] + CanonAll(codec, msgs) == CanonAll(codec, msgs);
      CanonAllFixed(codec, msgs);
    } else if msgs[0].System? && !HasSystem(msgs[1..]) {
      OneSystem(codec, msgs);
    } else {
      SystemElsewhere(codec, msgs);
    }
  }

  lemma {:induction false} OneSystem(codec: Codec, msgs: seq<Msg>)
    requires |msgs| > 0 && msgs[0].System? && !HasSystem(msgs[1..])
    ensures GatheredSystem(msgs) + CanonAll(codec, msgs) == msgs <==> Canonical(codec, msgs)
  {
    hide Settled, CanonAll, SystemTexts;
    var head, rest := msgs[0], msgs[1..];
    assert msgs == [head] + rest;
    assert forall i :: 0 <= i < |rest| ==> !rest[i].System? && rest[i] == msgs[i + 1];
    LeadingSystem(codec, head.content, rest);
    CanonAllFixed(codec, rest);
    CanonicalFromHead(codec, head, rest);
    assert |GatheredSystem(msgs)| == 1;
    hide GatheredSystem, Canonical, HasSystem;
    var out := GatheredSystem(msgs) + CanonAll(codec, msgs);
    assert out[1..] == CanonAll(codec, rest) && out[..1] == GatheredSystem(msgs);
    assert msgs[..1] == [head];
  }

  lemma {:induction false} CanonicalFromHead(codec: Codec, head: Msg, rest: seq<Msg>)
    requires head.System? && forall i :: 0 <= i < |rest| ==> !rest[i].System?
    ensures Canonical(codec, [head] + rest) <==> head.content.Plain? && forall i :: 0 <= i < |rest| ==> Settled(codec, rest[i])
  {
    hide Settled;
    var msgs := [head] + rest;
    assert msgs[0] == head;
    assert forall i :: 0 <= i < |rest| ==> msgs[i + 1] == rest[i];
    if Canonical(codec, msgs) {
      forall i | 0 <= i < |rest|
        ensures Settled(codec, rest[i])
      {
        assert !msgs[i + 1].System?;
      }
    }
  }

  /** A system message that is not the first comes back as the first, so the conversation changes. */
  lemma {:induction false} SystemElsewhere(codec: Codec, msgs: seq<Msg>)
    requires HasSystem(msgs) && !(msgs[0].System? && !HasSystem(msgs[1..]))
    ensures GatheredSystem(msgs) + CanonAll(codec, msgs) != msgs && !Canonical(codec, msgs)
  {
    hide Settled, CanonAll, SystemTexts;
    CanonAllHasNoSystem(codec, msgs);
    var i :| 1 <= i < |msgs| && msgs[i].System?;
    var out := GatheredSystem(msgs) + CanonAll(codec, msgs);
    assert i < |out| ==> !out[i].System?;
  }

  // ---------------------------------------------------------------------------------------------
  // Once is enough
  // ---------------------------------------------------------------------------------------------

  /** Printing and reading are inverse, and the empty object prints as Go prints it. */
  ghost predicate Lawful(codec: Codec) {
    && (forall v :: codec.parse(codec.render(v)) == Some(v))
    && codec.render(Obj(map[])) == "{}"
  }

  lemma {:induction false} UserPartsOk(ps: seq<Part>)
    ensures forall i :: 0 <= i < |UserParts(ps)| ==> UserOk(UserParts(ps)[i])
    decreases |ps|
  {
    hide UserPart, UserOk;
    if ps != [] {
      UserPartsOk(ps[..|ps| - 1]);
      UserPartFixed(ps[|ps| - 1]);
    }
  }

  lemma {:induction false} AssistantPartsOk(ps: seq<Part>)
    ensures forall i :: 0 <= i < |AssistantParts(ps)| ==> AssistantOk(AssistantParts(ps)[i])
    decreases |ps|
  {
    hide AssistantPart, AssistantOk;
    if ps != [] {
      AssistantPartsOk(ps[..|ps| - 1]);
      AssistantPartFixed(ps[|ps| - 1]);
    }
  }

  lemma {:induction false} CanonIsSettled(codec: Codec, m: Msg)
    requires Lawful(codec) && !m.System?
    ensures !Canon(codec, m).System? && Settled(codec, Canon(codec, m))
  {
    hide FlattenContent, UserParts, AssistantParts, UserOk, AssistantOk;
    match m
    case User(Plain(_)) =>
    case User(Parts(ps)) => UserPartsOk(ps);
    case Assistant(content, _, _, calls) =>
      ArgsSettle(codec, calls);
      if content.Parts? {
        AssistantPartsOk(content.parts);
      }
    case ToolMsg(_, _) =>
  }

  lemma {:induction false} ArgsSettle(codec: Codec, calls: seq<Call>)
    requires Lawful(codec)
    ensures CanonicalCalls(codec, CanonCalls(codec, calls))
  {
    forall i | 0 <= i < |calls|
      ensures CanonArgs(codec, CanonArgs(codec, calls[i].args)) == CanonArgs(codec, calls[i].args)
    {
      assert codec.parse("{}") == Some(Obj(map[]));
    }
  }

  lemma {:induction false} CanonAllSettled(codec: Codec, msgs: seq<Msg>)
    requires Lawful(codec)
    ensures forall i :: 0 <= i < |CanonAll(codec, msgs)| ==>
              !CanonAll(codec, msgs)[i].System? && Settled(codec, CanonAll(codec, msgs)[i])
    decreases |msgs|
  {
    hide Canon, Settled;
    if msgs != [] {
      CanonAllSettled(codec, msgs[..|msgs| - 1]);
      if !msgs[|msgs| - 1].System? {
        CanonIsSettled(codec, msgs[|msgs| - 1]);
      }
    }
  }

  /** A second round trip changes nothing, for every conversation. */
  lemma {:induction false} ThroughClaudeTwice(codec: Codec, msgs: seq<Msg>)
    requires Lawful(codec)
    ensures var out := ThroughClaude(codec, msgs);
            ThroughClaude(codec, out) == out
  {
    hide Settled, CanonAll, ThroughClaude, SystemTexts;
    ThroughClaudeIsCanonical(codec, msgs);
    CanonAllSettled(codec, msgs);
    UnchangedIffCanonical(codec, ThroughClaude(codec, msgs));
  }
}
