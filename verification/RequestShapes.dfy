/**
 What a translated request looks like in itself, message by message and block by block: the order, roles and
 ids that openaiChatToClaude, claudeToGrok and openaiChatToCodex give, whatever a translation back would make of it.
 */
module RequestShapes {
  import opened Chat
  import opened Json
  import opened RoundTrip
  import opened Sequences
  import P = ResponsesTrip

  // ---------------------------------------------------------------------------------------------
  // Content
  // ---------------------------------------------------------------------------------------------

  /** A base64 data URL, as the regular expression of parseDataURL reads it. */
  ghost predicate IsDataURL(url: string, media: string, data: string) {
    media != "" && ';' !in media && data != "" && '\n' !in data && url == "data:" + media + ";base64," + data
  }

  /** A part that Claude is shown. */
  predicate Showing(p: Part) {
    match p
    case TextPart(_) => true
    case ImagePart(url) => url != ""
    case ClaudePart(image) => image.Url? || image.data != ""
    case OtherPart => false
  }

  /** The block shows the part: the same text, or the same image, taken apart if its URL holds its data. */
  ghost predicate Shows(p: Part, b: Block) {
    match p
    case TextPart(text) => b == TextBlock(text)
    case ImagePart(url) =>
      && b.ImageBlock?
      && (b.image == Url(url) || (b.image.Base64? && IsDataURL(url, b.image.media, b.image.data)))
      && (b.image == Url(url) ==> forall media, data :: !IsDataURL(url, media, data))
    case ClaudePart(image) => b == ImageBlock(image)
    case OtherPart => false
  }

  ghost predicate AllShow(ps: seq<Part>, bs: seq<Block>) {
    |ps| == |bs| && forall i :: 0 <= i < |ps| ==> Shows(ps[i], bs[i])
  }

  lemma {:induction false} DataURLsAreTakenApart(url: string)
    ensures ImageFromURL(url) == Url(url) ==> forall media, data :: !IsDataURL(url, media, data)
    ensures ImageFromURL(url).Base64? ==> IsDataURL(url, ImageFromURL(url).media, ImageFromURL(url).data)
    ensures ImageFromURL(url).Url? ==> ImageFromURL(url) == Url(url)
  {
    hide ImageFromURL, IsDataURL;
    forall media, data | IsDataURL(url, media, data)
      ensures ImageFromURL(url).Base64?
    {
      DataURLIsTakenApart(url, media, data);
    }
    TakenApartIsDataURL(url);
  }

  lemma {:induction false} DataURLIsTakenApart(url: string, media: string, data: string)
    requires IsDataURL(url, media, data)
    ensures ImageFromURL(url).Base64?
  {
    var tail := BASE64 + data;
    var rest := media + tail;
    ConcatAssoc(DATA, media, tail);
    ConcatAssoc(DATA + media, BASE64, data);
    assert url == DATA + rest && url[|DATA|..] == rest;
    EndsAtSemicolon(media, tail);
    assert rest[|media|..] == tail && rest[|media| + |BASE64|..] == data;
    assert BASE64 <= tail;
  }

  lemma {:induction false} TakenApartIsDataURL(url: string)
    ensures ImageFromURL(url).Url? ==> ImageFromURL(url) == Url(url)
    ensures var image := ImageFromURL(url); image.Base64? ==> IsDataURL(url, image.media, image.data)
  {
    if ImageFromURL(url).Base64? {
      var rest := url[|DATA|..];
      var n := MediaEnd(rest);
      var media, data := rest[..n], rest[n + |BASE64|..];
      assert url == DATA + rest && rest == media + rest[n..] && rest[n..] == BASE64 + data;
      ConcatAssoc(DATA, media, BASE64 + data);
      ConcatAssoc(DATA + media, BASE64, data);
      assert |media| == n && |data| == |rest| - n - |BASE64|;
    }
  }

  lemma {:induction false} EndsAtSemicolon(media: string, after: string)
    requires ';' !in media && after != "" && after[0] == ';'
    ensures MediaEnd(media + after) == |media|
    decreases |media|
  {
    if media == "" {
      assert media + after == after;
    } else {
      assert (media + after)[1..] == media[1..] + after;
      EndsAtSemicolon(media[1..], after);
    }
  }

  lemma {:induction false} PartShown(p: Part)
    ensures Showing(p) ==> |PartBlocks(p)| == 1 && Shows(p, PartBlocks(p)[0])
    ensures !Showing(p) ==> PartBlocks(p) == []
  {
    hide IsDataURL, ImageFromURL;
    if p.ImagePart? {
      DataURLsAreTakenApart(p.url);
    }
  }

  lemma {:induction false} PartsShown(ps: seq<Part>)
    ensures AllShow(Filter(ps, Showing), RoundTrip.BlocksOf(ps))
    decreases |ps|
  {
    hide Shows, PartBlocks, Showing;
    if ps != [] {
      PartsShown(ps[..|ps| - 1]);
      PartShown(ps[|ps| - 1]);
    }
  }

  /** What content shows; nothing is lost but parts that show nothing. */
  function Shown(c: Content): seq<Part> {
    match c
    case Plain(text) => [TextPart(text)]
    case Parts(ps) => Filter(ps, Showing)
  }

  /** The blocks show the parts, as a plain string when that is one text. */
  ghost predicate ContentShows(ps: seq<Part>, c: ClaudeContent) {
    AllShow(ps, AsBlocks(c)) && (c.PlainString? <==> |ps| == 1 && ps[0].TextPart?)
  }

  lemma {:induction false} ContentIsShown(c: Content)
    ensures ContentShows(Shown(c), ContentToClaude(c))
  {
    if c.Parts? {
      PartsShown(c.parts);
      ShownText(c.parts);
    }
  }

  lemma {:induction false} ShownText(ps: seq<Part>)
    ensures var bs, shown := RoundTrip.BlocksOf(ps), Filter(ps, Showing);
            |bs| == |shown| && (|bs| == 1 ==> (bs[0].TextBlock? <==> shown[0].TextPart?))
  {
    PartsShown(ps);
    hide RoundTrip.BlocksOf, Filter, IsDataURL;
    var bs, shown := RoundTrip.BlocksOf(ps), Filter(ps, Showing);
    if |bs| == 1 {
      assert Shows(shown[0], bs[0]);
    }
  }

  predicate SaysText(p: Part) {
    p.TextPart? && p.text != ""
  }

  /** The texts, one a line. */
  function Lines(texts: seq<string>): string {
    if texts == [] then "" else if |texts| == 1 then texts[0] else texts[0] + "\n" + Lines(texts[1..])
  }

  lemma {:induction false} LinesSnoc(texts: seq<string>, t: string)
    requires texts != []
    ensures Lines(texts + [t]) == Lines(texts) + "\n" + t
    decreases |texts|
  {
    assert (texts + [t])[0] == texts[0] && (texts + [t])[1..] == texts[1..] + [t];
    if |texts| > 1 {
      LinesSnoc(texts[1..], t);
    } else {
      assert texts[1..] + [t] == [t];
    }
  }

  lemma {:induction false} JoinIsLines(texts: seq<string>)
    ensures Join(texts, "\n") == Lines(texts)
    decreases |texts|
  {
    if |texts| > 1 {
      var front, t := texts[..|texts| - 1], texts[|texts| - 1];
      JoinIsLines(front);
      LinesSnoc(front, t);
      assert texts == front + [t];
    }
  }

  /** The text is what the content says: its own, or that of its text parts that have any, one a line. */
  predicate Says(c: Content, text: string) {
    match c
    case Plain(own) => text == own
    case Parts(ps) => text == Lines(TextsSaid(ps))
  }

  function TextsSaid(ps: seq<Part>): (r: seq<string>)
    ensures var said := Filter(ps, SaysText); |r| == |said| && forall i :: 0 <= i < |r| ==> r[i] == said[i].text
  {
    var said := Filter(ps, SaysText);
    seq(|said|, i requires 0 <= i < |said| => said[i].text)
  }

  lemma {:induction false} PartTextsSaid(ps: seq<Part>)
    ensures PartTexts(ps) == TextsSaid(ps)
    decreases |ps|
  {
    if ps != [] {
      PartTextsSaid(ps[..|ps| - 1]);
    }
  }

  lemma {:induction false} ContentSays(c: Content)
    ensures Says(c, FlattenContent(c))
  {
    if c.Parts? {
      PartTextsSaid(c.parts);
      JoinIsLines(PartTexts(c.parts));
    }
  }

  // ---------------------------------------------------------------------------------------------
  // Chat to Claude
  // ---------------------------------------------------------------------------------------------

  /** An assistant's content: an empty text alone is none. */
  function OwnShown(c: Content): seq<Part> {
    if Shown(c) == [TextPart("")] then [] else Shown(c)
  }

  /** The block is the call with its id and name, and its arguments read, or kept raw if they cannot be. */
  predicate Uses(codec: Codec, c: Call, b: Block) {
    && b.ToolUse? && b.id == c.id && b.name == c.name
    && match codec.parse(c.args)
       case Some(v) => b.input == v
       case None => b.input == Obj(map["raw" := Str(c.args)])
  }

  /** Thinking first, if there is any, then the content, then one block a call. */
  ghost predicate AssistantShape(codec: Codec, m: Msg, r: ClaudeMsg)
    requires m.Assistant?
  {
    var thought := if m.reasoningContent != "" then m.reasoningContent else m.reasoning;
    var bs := AsBlocks(r.content);
    var h, n := if thought == "" then 0 else 1, |bs| - |m.calls|;
    && r.assistant && h <= n
    && (thought != "" ==> bs[0] == ThinkingBlock(thought))
    && AllShow(OwnShown(m.content), bs[h..n])
    && (forall j :: 0 <= j < |m.calls| ==> Uses(codec, m.calls[j], bs[n + j]))
    && (r.content.PlainString? <==> |bs| == 1 && bs[0].TextBlock?)
  }

  ghost predicate ClaudeShape(codec: Codec, m: Msg, r: ClaudeMsg)
    requires !m.System?
  {
    match m
    case User(content) => !r.assistant && ContentShows(Shown(content), r.content)
    case Assistant(_, _, _, _) => AssistantShape(codec, m, r)
    case ToolMsg(id, content) =>
      && !r.assistant && r.content.Blocks? && |r.content.blocks| == 1
      && r.content.blocks[0].ToolResult? && r.content.blocks[0].id == id && Says(content, r.content.blocks[0].output)
  }

  lemma {:induction false} CallsUsed(codec: Codec, calls: seq<Call>)
    ensures |ToolUses(codec, calls)| == |calls|
    ensures forall j :: 0 <= j < |calls| ==> Uses(codec, calls[j], ToolUses(codec, calls)[j])
    decreases |calls|
  {
    hide Uses;
    if calls != [] {
      var front, c := calls[..|calls| - 1], calls[|calls| - 1];
      CallsUsed(codec, front);
      OneUsed(codec, c);
    }
  }

  lemma {:induction false} OneUsed(codec: Codec, c: Call)
    ensures Uses(codec, c, ToolUse(c.id, c.name, Input(codec, c.args)))
  {
  }

  lemma {:induction false} OwnIsShown(c: Content)
    ensures AllShow(OwnShown(c), OwnBlocks(c))
  {
    hide ContentToClaude, Shown;
    ContentIsShown(c);
    var shown, bs := Shown(c), AsBlocks(ContentToClaude(c));
    if shown == [TextPart("")] {
      assert Shows(shown[0], bs[0]);
    }
    if ContentToClaude(c) == PlainString("") {
      assert Shows(shown[0], bs[0]);
      assert shown == [shown[0]];
    }
  }

  lemma {:induction false} AssistantShaped(codec: Codec, m: Msg)
    requires m.Assistant?
    ensures AssistantShape(codec, m, MessageToClaude(codec, m))
  {
    hide OwnBlocks, ToolUses, OwnShown, AllShow, Uses;
    var thought, own, uses := Thought(ReasoningOf(m)), OwnBlocks(m.content), ToolUses(codec, m.calls);
    var bs := thought + (own + uses);
    var h, n := |thought|, |thought| + |own|;
    OwnIsShown(m.content);
    CallsUsed(codec, m.calls);
    UnwrapTexts(bs);
    assert bs[h..n] == own;
    assert forall j :: 0 <= j < |uses| ==> bs[n + j] == uses[j];
  }

  lemma {:induction false} MessageShaped(codec: Codec, m: Msg)
    requires !m.System?
    ensures ClaudeShape(codec, m, MessageToClaude(codec, m))
  {
    hide AssistantShape, ContentShows, ContentToClaude, Says, FlattenContent;
    match m
    case User(content) => ContentIsShown(content);
    case Assistant(_, _, _, _) => AssistantShaped(codec, m);
    case ToolMsg(_, content) => ContentSays(content);
  }

  predicate NotSystem(m: Msg) {
    !m.System?
  }

  /** Everything the system messages show, in order. */
  function SystemShown(msgs: seq<Msg>): seq<Part> {
    if msgs == [] then []
    else SystemShown(msgs[..|msgs| - 1]) + if msgs[|msgs| - 1].System? then Shown(msgs[|msgs| - 1].content) else []
  }

  lemma {:induction false} ShowAppend(ps: seq<Part>, bs: seq<Block>, qs: seq<Part>, cs: seq<Block>)
    requires AllShow(ps, bs) && AllShow(qs, cs)
    ensures AllShow(ps + qs, bs + cs)
  {
    hide Shows;
  }

  lemma {:induction false} SystemIsShown(codec: Codec, msgs: seq<Msg>)
    ensures var system := ToClaude(codec, msgs).0;
            && (system.Some? <==> HasSystem(msgs))
            && AllShow(SystemShown(msgs), if system.Some? then AsBlocks(system.value) else [])
    decreases |msgs|
  {
    hide ContentToClaude, MessageToClaude, AllShow, Shown;
    if msgs == [] {
      NothingShown();
    } else {
      var front, m := msgs[..|msgs| - 1], msgs[|msgs| - 1];
      SystemIsShown(codec, front);
      assert HasSystem(msgs) <==> HasSystem(front) || m.System?;
      if m.System? {
        var system, block := ToClaude(codec, front).0, ContentToClaude(m.content);
        ContentIsShown(m.content);
        var before := if system.Some? then AsBlocks(system.value) else [];
        ShowAppend(SystemShown(front), before, Shown(m.content), AsBlocks(block));
        assert [] + AsBlocks(block) == AsBlocks(block);
      } else {
        assert SystemShown(front) + [] == SystemShown(front);
      }
    }
  }

  lemma {:induction false} NothingShown()
    ensures AllShow([], [])
  {
  }

  lemma {:induction false} OthersShaped(codec: Codec, msgs: seq<Msg>)
    ensures var others, out := Filter(msgs, NotSystem), ToClaude(codec, msgs).1;
            |out| == |others| && forall i :: 0 <= i < |out| ==> ClaudeShape(codec, others[i], out[i])
    decreases |msgs|
  {
    hide MessageToClaude, ContentToClaude, ClaudeShape;
    if msgs != [] {
      OthersShaped(codec, msgs[..|msgs| - 1]);
      if NotSystem(msgs[|msgs| - 1]) {
        MessageShaped(codec, msgs[|msgs| - 1]);
      }
    }
  }

  /**
   The request Claude is sent: the system messages' content in order, in one system field; and one message for each
   other message, in order and in its role, an assistant's with its thinking first and its calls last.
   */
  lemma {:induction false} ClaudeRequestIs(codec: Codec, msgs: seq<Msg>)
    ensures var system, out, others := Cached(ToClaude(codec, msgs).0), ToClaude(codec, msgs).1, Filter(msgs, NotSystem);
            && (system.Some? <==> HasSystem(msgs))
            && (system.Some? ==> AllShow(SystemShown(msgs), AsBlocks(system.value)))
            && (system.Some? && system.value.PlainString? ==> system.value.text == "")
            && |out| == |others|
            && forall i :: 0 <= i < |out| ==> ClaudeShape(codec, others[i], out[i])
  {
    hide ToClaude, AllShow, ClaudeShape, SystemShown;
    SystemIsShown(codec, msgs);
    OthersShaped(codec, msgs);
  }

  /** So in every message of the request thinking stands first or nowhere, and content before calls. */
  lemma {:induction false} ThinkingFirstCallsLast(codec: Codec, msgs: seq<Msg>, i: nat)
    requires i < |ToClaude(codec, msgs).1|
    ensures InOrder(AsBlocks(ToClaude(codec, msgs).1[i].content))
  {
    hide ToClaude, Filter, ClaudeShape, InOrder;
    OthersShaped(codec, msgs);
    ShapeInOrder(codec, Filter(msgs, NotSystem)[i], ToClaude(codec, msgs).1[i]);
  }

  lemma {:induction false} ShapeInOrder(codec: Codec, m: Msg, r: ClaudeMsg)
    requires !m.System? && ClaudeShape(codec, m, r)
    ensures InOrder(AsBlocks(r.content))
  {
    hide AllShow, Shown, OwnShown, Says, AssistantShape;
    if m.User? {
      OnlyShown(Shown(m.content), AsBlocks(r.content));
    } else if m.Assistant? {
      AssistantOrder(codec, m, r);
    }
  }

  predicate InOrder(bs: seq<Block>) {
    && (forall j :: 0 < j < |bs| ==> !bs[j].ThinkingBlock?)
    && (forall j, k :: 0 <= j < k < |bs| && bs[j].ToolUse? ==> bs[k].ToolUse?)
  }

  lemma {:induction false} AssistantOrder(codec: Codec, m: Msg, r: ClaudeMsg)
    requires m.Assistant? && AssistantShape(codec, m, r)
    ensures InOrder(AsBlocks(r.content))
  {
    hide AllShow, OwnShown;
    var bs := AsBlocks(r.content);
    var h := if m.reasoningContent != "" || m.reasoning != "" then 1 else 0;
    var n := |bs| - |m.calls|;
    OnlyShown(OwnShown(m.content), bs[h..n]);
    assert forall j :: h <= j < n ==> bs[h..n][j - h] == bs[j];
    forall j | n <= j < |bs|
      ensures bs[j].ToolUse?
    {
      assert Uses(codec, m.calls[j - n], bs[n + (j - n)]);
    }
  }

  lemma {:induction false} OnlyShown(ps: seq<Part>, bs: seq<Block>)
    requires AllShow(ps, bs)
    ensures forall j :: 0 <= j < |bs| ==> bs[j].TextBlock? || bs[j].ImageBlock?
  {
    hide IsDataURL;
    forall j | 0 <= j < |bs|
      ensures bs[j].TextBlock? || bs[j].ImageBlock?
    {
      assert Shows(ps[j], bs[j]);
    }
  }

  // ---------------------------------------------------------------------------------------------
  // Claude to chat
  // ---------------------------------------------------------------------------------------------

  predicate IsUse(b: Block) {
    b.ToolUse?
  }

  predicate IsThought(b: Block) {
    b.ThinkingBlock?
  }

  predicate IsResult(b: Block) {
    b.ToolResult?
  }

  predicate IsOwn(b: Block) {
    !b.ToolUse? && !b.ThinkingBlock?
  }

  /** A block a user's chat message shows: a text, or an image that has a URL. */
  predicate IsSeen(b: Block) {
    b.TextBlock? || (b.ImageBlock? && if b.image.Url? then b.image.url != "" else b.image.data != "")
  }

  function Thoughts(bs: seq<Block>): string {
    if bs == [] then "" else Thoughts(bs[..|bs| - 1]) + if IsThought(bs[|bs| - 1]) then bs[|bs| - 1].thinking else ""
  }

  /** An assistant's parts keep images in Claude's shape; a user's give their URLs. */
  predicate Kept(b: Block, p: Part) {
    match b
    case TextBlock(text) => p == TextPart(text)
    case ImageBlock(image) => p == ClaudePart(image)
    case _ => p == OtherPart
  }

  predicate Seen(b: Block, p: Part) {
    match b
    case TextBlock(text) => p == TextPart(text)
    case ImageBlock(Url(url)) => p == ImagePart(url)
    case ImageBlock(Base64(media, data)) => p == ImagePart("data:" + media + ";base64," + data)
    case _ => false
  }

  function PartsOf(c: Content): seq<Part> {
    if c.Plain? then [TextPart(c.text)] else c.parts
  }

  predicate LoneText(c: Content) {
    c.Plain? <==> |PartsOf(c)| == 1 && PartsOf(c)[0].TextPart?
  }

  predicate AssistantReads(codec: Codec, bs: seq<Block>, m: Msg) {
    && m.Assistant? && m.reasoning == m.reasoningContent == Thoughts(bs)
    && (var own, ps := Filter(bs, IsOwn), PartsOf(m.content);
        |ps| == |own| && (forall i :: 0 <= i < |ps| ==> Kept(own[i], ps[i])) && LoneText(m.content))
    && (var uses := Filter(bs, IsUse);
        |m.calls| == |uses| &&
        forall i :: 0 <= i < |uses| ==>
          m.calls[i] == Call(uses[i].id, uses[i].name, if uses[i].input.Null? then "{}" else codec.render(uses[i].input)))
  }

  /** A user's message with results is its results, one message each; any other is what it shows. */
  predicate UserReads(c: ClaudeContent, ms: seq<Msg>) {
    var bs := AsBlocks(c);
    var results, seen := Filter(bs, IsResult), Filter(bs, IsSeen);
    if results != [] then
      |ms| == |results| && forall i :: 0 <= i < |ms| ==> ms[i] == ToolMsg(results[i].id, Plain(results[i].output))
    else
      && |ms| == 1 && ms[0].User? && LoneText(ms[0].content)
      && |PartsOf(ms[0].content)| == |seen|
      && forall i :: 0 <= i < |seen| ==> Seen(seen[i], PartsOf(ms[0].content)[i])
  }

  predicate ChatReads(codec: Codec, m: ClaudeMsg, ms: seq<Msg>) {
    if m.assistant then |ms| == 1 && AssistantReads(codec, AsBlocks(m.content), ms[0]) else UserReads(m.content, ms)
  }

  lemma {:induction false} OwnPartsRead(bs: seq<Block>)
    ensures |PartsIn(bs)| == |Filter(bs, IsOwn)|
    ensures forall i :: 0 <= i < |PartsIn(bs)| ==> Kept(Filter(bs, IsOwn)[i], PartsIn(bs)[i])
    decreases |bs|
  {
    if bs != [] {
      OwnPartsRead(bs[..|bs| - 1]);
    }
  }

  lemma {:induction false} CallsRead(codec: Codec, bs: seq<Block>)
    ensures var uses, calls := Filter(bs, IsUse), CallsIn(codec, bs);
            |calls| == |uses| &&
            forall i :: 0 <= i < |uses| ==>
              calls[i] == Call(uses[i].id, uses[i].name, if uses[i].input.Null? then "{}" else codec.render(uses[i].input))
    decreases |bs|
  {
    if bs != [] {
      CallsRead(codec, bs[..|bs| - 1]);
    }
  }

  lemma {:induction false} ThoughtsRead(bs: seq<Block>)
    ensures ThinkingIn(bs) == Thoughts(bs)
    decreases |bs|
  {
    if bs != [] {
      ThoughtsRead(bs[..|bs| - 1]);
    }
  }

  lemma {:induction false} ResultsRead(bs: seq<Block>)
    ensures var results := Filter(bs, IsResult);
            |Results(bs)| == |results| &&
            forall i :: 0 <= i < |results| ==> Results(bs)[i] == ToolMsg(results[i].id, Plain(results[i].output))
    decreases |bs|
  {
    if bs != [] {
      ResultsRead(bs[..|bs| - 1]);
    }
  }

  lemma {:induction false} SeenRead(bs: seq<Block>)
    ensures var seen, ps := Filter(bs, IsSeen), ChatParts(bs);
            |ps| == |seen| && forall i :: 0 <= i < |seen| ==> Seen(seen[i], ps[i])
    decreases |bs|
  {
    if bs != [] {
      var front, b := bs[..|bs| - 1], bs[|bs| - 1];
      SeenRead(front);
      if b.ImageBlock? {
        ImageSeen(b.image);
      }
    }
  }

  lemma {:induction false} ImageSeen(image: Image)
    ensures ImageURL(image) != "" <==> IsSeen(ImageBlock(image))
    ensures IsSeen(ImageBlock(image)) ==> Seen(ImageBlock(image), ImagePart(ImageURL(image)))
  {
  }

  lemma {:induction false} Collapsed(ps: seq<Part>)
    ensures PartsOf(Collapse(ps)) == ps && LoneText(Collapse(ps))
  {
  }

  lemma {:induction false} MessageReads(codec: Codec, m: ClaudeMsg)
    ensures ChatReads(codec, m, MessageToChat(codec, m))
  {
    hide PartsIn, CallsIn, ThinkingIn, Results, ChatParts, Filter, Kept, Seen, Collapse, Thoughts;
    var bs := AsBlocks(m.content);
    if m.assistant {
      OwnPartsRead(bs);
      CallsRead(codec, bs);
      ThoughtsRead(bs);
      Collapsed(PartsIn(bs));
    } else {
      ResultsRead(bs);
      SeenRead(bs);
      Collapsed(ChatParts(bs));
      HasResults(m.content);
      if m.content.PlainString? {
        PlainIsSeen(m.content.text);
      }
    }
  }

  lemma {:induction false} HasResults(c: ClaudeContent)
    ensures HasResult(c) <==> Filter(AsBlocks(c), IsResult) != []
  {
    var bs := AsBlocks(c);
    var results := Filter(bs, IsResult);
    if results != [] {
      assert results[0] in results;
    }
    if HasResult(c) {
      var i :| 0 <= i < |c.blocks| && c.blocks[i].ToolResult?;
      assert c.blocks[i] in results;
    }
  }

  lemma {:induction false} PlainIsSeen(text: string)
    ensures Filter([TextBlock(text)], IsSeen) == [TextBlock(text)]
    ensures Seen(TextBlock(text), TextPart(text))
  {
    assert [TextBlock(text)][..0] == [];
  }

  /** The chat messages are those of each of Claude's in turn. */
  ghost predicate ChatIs(codec: Codec, ms: seq<ClaudeMsg>, chat: seq<Msg>) {
    exists runs: seq<seq<Msg>> :: ChatRuns(codec, ms, runs) && chat == Flatten(runs)
  }

  predicate ChatRuns(codec: Codec, ms: seq<ClaudeMsg>, runs: seq<seq<Msg>>) {
    |runs| == |ms| && forall i :: 0 <= i < |ms| ==> ChatReads(codec, ms[i], runs[i])
  }

  lemma {:induction false} ChatGrows(codec: Codec, ms: seq<ClaudeMsg>, chat: seq<Msg>, m: ClaudeMsg, last: seq<Msg>)
    requires ChatIs(codec, ms, chat) && ChatReads(codec, m, last)
    ensures ChatIs(codec, ms + [m], chat + last)
  {
    hide ChatReads;
    var runs: seq<seq<Msg>> :| ChatRuns(codec, ms, runs) && chat == Flatten(runs);
    FlattenAppend(runs, [last]);
    FlattenOne(last);
    assert ChatRuns(codec, ms + [m], runs + [last]);
  }

  lemma {:induction false} NoChat(codec: Codec)
    ensures ChatIs(codec, [], [])
  {
    assert ChatRuns(codec, [], []) && Flatten<Msg>([]) == [];
  }

  /** The chat request made of Claude's: the messages of each in turn, none lost and none added. */
  lemma {:induction false} ChatRequestIs(codec: Codec, ms: seq<ClaudeMsg>)
    ensures ChatIs(codec, ms, MessagesToChat(codec, ms))
    decreases |ms|
  {
    hide MessageToChat, ChatIs, ChatReads;
    if ms == [] {
      NoChat(codec);
    } else {
      var front, m := ms[..|ms| - 1], ms[|ms| - 1];
      ChatRequestIs(codec, front);
      MessageReads(codec, m);
      ChatGrows(codec, front, MessagesToChat(codec, front), m, MessageToChat(codec, m));
      assert front + [m] == ms;
    }
  }

  // ---------------------------------------------------------------------------------------------
  // Chat to Responses
  // ---------------------------------------------------------------------------------------------

  /** A part that Responses input has a form for. */
  predicate IsGiven(p: Part) {
    p.TextPart? || p.ImagePart?
  }

  predicate Gives(p: Part, q: P.InputPart) {
    match p
    case TextPart(text) => q == P.InputText(text)
    case ImagePart(url) => q == P.InputImage(url)
    case _ => false
  }

  function Given(c: Content): seq<Part> {
    match c
    case Plain(text) => if text == "" then [] else [TextPart(text)]
    case Parts(ps) => Filter(ps, IsGiven)
  }

  predicate AllGive(c: Content, qs: seq<P.InputPart>) {
    |qs| == |Given(c)| && forall i :: 0 <= i < |qs| ==> Gives(Given(c)[i], qs[i])
  }

  /** Reasoning first, then the content if there is any, then one item a call. */
  predicate AssistantGives(m: Msg, items: seq<P.Item>)
    requires m.Assistant?
  {
    var thought := if m.reasoningContent != "" then m.reasoningContent else m.reasoning;
    var h, n := if thought == "" then 0 else 1, |items| - |m.calls|;
    && n == h + (if Given(m.content) == [] then 0 else 1)
    && (thought != "" ==> items[0] == P.ReasoningItem(thought))
    && (Given(m.content) != [] ==>
          items[h].MessageItem? && items[h].role == P.AssistantRole && AllGive(m.content, items[h].content))
    && forall j :: 0 <= j < |m.calls| ==> items[n + j] == P.CallItem(m.calls[j])
  }

  predicate MessageGives(codec: Codec, m: Msg, items: seq<P.Item>) {
    match m
    case System(_) => items == []
    case User(content) =>
      |items| == 1 && items[0].MessageItem? && items[0].role == P.UserRole && AllGive(content, items[0].content)
    case Assistant(_, _, _, _) => AssistantGives(m, items)
    case ToolMsg(id, content) =>
      items == [P.OutputItem(id, if content.Plain? then content.text else codec.renderParts(content.parts))]
  }

  lemma {:induction false} PartsGiven(ps: seq<Part>)
    ensures AllGive(Parts(ps), P.ToInputParts(ps))
    decreases |ps|
  {
    if ps != [] {
      PartsGiven(ps[..|ps| - 1]);
    }
  }

  lemma {:induction false} ContentGiven(c: Content)
    ensures AllGive(c, P.InputParts(c))
  {
    if c.Parts? {
      PartsGiven(c.parts);
    }
  }

  lemma {:induction false} MessageIsGiven(codec: Codec, m: Msg)
    ensures MessageGives(codec, m, if m.System? then [] else P.Items(codec, m))
  {
    hide P.InputParts, AllGive, AssistantGives;
    match m
    case System(_) =>
    case User(content) => ContentGiven(content);
    case Assistant(_, _, _, _) => AssistantIsGiven(m);
    case ToolMsg(_, _) =>
  }

  lemma {:induction false} AssistantIsGiven(m: Msg)
    requires m.Assistant?
    ensures AssistantGives(m, P.AssistantItems(m))
  {
    hide P.InputParts, Given, P.CallItems;
    ContentGiven(m.content);
    var thought := if ReasoningOf(m) != "" then [P.ReasoningItem(ReasoningOf(m))] else [];
    var said := if P.InputParts(m.content) != [] then [P.MessageItem(P.AssistantRole, P.InputParts(m.content))] else [];
    var calls := P.CallItems(m.calls);
    assert P.AssistantItems(m) == thought + (said + calls);
    ThreeParts(thought, said, calls);
    assert said == [] <==> Given(m.content) == [];
    assert forall j :: 0 <= j < |m.calls| ==> calls[j] == P.CallItem(m.calls[j]) by {
      CallsAreItems(m.calls);
    }
    hide P.AssistantItems, AllGive;
    var items := P.AssistantItems(m);
    assert |items| - |m.calls| == |thought| + |said|;
  }

  lemma {:induction false} CallsAreItems(calls: seq<Call>)
    ensures |P.CallItems(calls)| == |calls| && forall j :: 0 <= j < |calls| ==> P.CallItems(calls)[j] == P.CallItem(calls[j])
  {
  }

  lemma {:induction false} ThreeParts<T>(a: seq<T>, b: seq<T>, c: seq<T>)
    ensures var all := a + (b + c);
            && |all| == |a| + |b| + |c| && (a != [] ==> all[0] == a[0]) && (b != [] ==> all[|a|] == b[0])
            && forall j :: 0 <= j < |c| ==> all[|a| + |b| + j] == c[j]
  {
  }

  /** The input is the items of each message in turn. */
  ghost predicate InputIs(codec: Codec, msgs: seq<Msg>, input: seq<P.Item>) {
    exists runs: seq<seq<P.Item>> :: InputRuns(codec, msgs, runs) && input == Flatten(runs)
  }

  predicate InputRuns(codec: Codec, msgs: seq<Msg>, runs: seq<seq<P.Item>>) {
    |runs| == |msgs| && forall i :: 0 <= i < |msgs| ==> MessageGives(codec, msgs[i], runs[i])
  }

  lemma {:induction false} InputGrows(codec: Codec, msgs: seq<Msg>, input: seq<P.Item>, m: Msg, last: seq<P.Item>)
    requires InputIs(codec, msgs, input) && MessageGives(codec, m, last)
    ensures InputIs(codec, msgs + [m], input + last)
  {
    hide MessageGives;
    var runs: seq<seq<P.Item>> :| InputRuns(codec, msgs, runs) && input == Flatten(runs);
    FlattenAppend(runs, [last]);
    FlattenOne(last);
    assert InputRuns(codec, msgs + [m], runs + [last]);
  }

  lemma {:induction false} NoInput(codec: Codec)
    ensures InputIs(codec, [], [])
  {
    assert InputRuns(codec, [], []) && Flatten<P.Item>([]) == [];
  }

  /** The input Codex is sent is the items of each message in turn, none lost and none added. */
  lemma {:induction false} CodexRequestIs(codec: Codec, msgs: seq<Msg>)
    ensures InputIs(codec, msgs, P.ToResponses(codec, msgs).1)
    decreases |msgs|
  {
    hide P.Items, InputIs, MessageGives, FlattenContent;
    if msgs == [] {
      NoInput(codec);
    } else {
      var front, m := msgs[..|msgs| - 1], msgs[|msgs| - 1];
      var input := P.ToResponses(codec, front).1;
      CodexRequestIs(codec, front);
      MessageIsGiven(codec, m);
      InputGrows(codec, front, input, m, if m.System? then [] else P.Items(codec, m));
      assert front + [m] == msgs && input + [] == input;
    }
  }

  // ---------------------------------------------------------------------------------------------
  // Responses to chat
  // ---------------------------------------------------------------------------------------------

  predicate IsText(q: P.InputPart) {
    q.InputText?
  }

  predicate IsImage(q: P.InputPart) {
    q.InputImage?
  }

  function Together(qs: seq<P.InputPart>): string {
    if qs == [] then "" else Together(qs[..|qs| - 1]) + if IsText(qs[|qs| - 1]) then qs[|qs| - 1].text else ""
  }

  /** Text alone is run together; beside images, the texts come first, one part each, and then the images. */
  predicate ContentReads(qs: seq<P.InputPart>, c: Content) {
    var texts, images := Filter(qs, IsText), Filter(qs, IsImage);
    if images == [] then c == Plain(Together(qs))
    else
      && c.Parts? && |c.parts| == |texts| + |images|
      && (forall i :: 0 <= i < |texts| ==> c.parts[i] == TextPart(texts[i].text))
      && (forall i :: 0 <= i < |images| ==> c.parts[|texts| + i] == ImagePart(images[i].url))
  }

  /** A message keeps its role; reasoning and a call are an assistant's, without content; an output is a tool's. */
  predicate ItemReads(item: P.Item, m: Msg) {
    match item
    case StringItem(text) => m == User(Plain(text))
    case MessageItem(role, qs) =>
      && !m.ToolMsg? && ContentReads(qs, m.content)
      && (role == P.UserRole <==> m.User?) && (role == P.AssistantRole <==> m.Assistant?) && (role == P.SystemRole <==> m.System?)
      && (m.Assistant? ==> m == Assistant(m.content, "", "", []))
    case ReasoningItem(summary) => m == Assistant(Parts([]), summary, summary, [])
    case CallItem(call) => m == Assistant(Parts([]), "", "", [call])
    case OutputItem(id, output) => m == ToolMsg(id, Plain(output))
  }

  lemma {:induction false} TextsRead(qs: seq<P.InputPart>)
    ensures Flatten(P.Texts(qs)) == Together(qs)
    ensures |P.Texts(qs)| == |Filter(qs, IsText)| && |P.Images(qs)| == |Filter(qs, IsImage)|
    ensures forall i :: 0 <= i < |P.Texts(qs)| ==> P.Texts(qs)[i] == Filter(qs, IsText)[i].text
    ensures forall i :: 0 <= i < |P.Images(qs)| ==> P.Images(qs)[i] == ImagePart(Filter(qs, IsImage)[i].url)
    decreases |qs|
  {
    if qs != [] {
      var front, q := qs[..|qs| - 1], qs[|qs| - 1];
      TextsRead(front);
      if IsText(q) {
        FlattenAppend(P.Texts(front), [q.text]);
        FlattenOne(q.text);
      } else {
        assert P.Texts(front) + [] == P.Texts(front);
      }
    }
  }

  /** Each item of a Responses request becomes one chat message, in order. */
  lemma {:induction false} ResponsesRequestIs(items: seq<P.Item>, i: nat)
    requires i < |items|
    ensures |P.ItemsToChat(items)| == |items| && ItemReads(items[i], P.ItemsToChat(items)[i])
  {
    hide P.Texts, P.Images, Filter, Together;
    if items[i].MessageItem? {
      TextsRead(items[i].content);
    }
  }
}
