/**
 Chat requests translated to Responses input items and back: the message loop of openaiChatToCodex
 (internal/translate/openai_chat.go) and the item loop of responsesToGrok (openai_responses.go).
 */
module ResponsesTrip {
  import opened Chat
  import opened RoundTrip
  import opened Sequences

  datatype InputPart = InputText(text: string) | InputImage(url: string)

  /** The roles of a message item that a chat message here has; a missing role is user. */
  datatype Role = UserRole | AssistantRole | SystemRole

  /** An entry of the input list; a bare string is what a user says. */
  datatype Item =
    | StringItem(text: string)
    | MessageItem(role: Role, content: seq<InputPart>)
    | ReasoningItem(summary: string)
    | CallItem(call: Call)
    | OutputItem(callID: string, output: string)

  // ---------------------------------------------------------------------------------------------
  // Chat to Responses
  // ---------------------------------------------------------------------------------------------

  function ToInputPart(p: Part): seq<InputPart> {
    match p
    case TextPart(text) => [InputText(text)]
    case ImagePart(url) => [InputImage(url)]
    case _ => []
  }

  function ToInputParts(ps: seq<Part>): seq<InputPart> {
    if ps == [] then [] else ToInputParts(ps[..|ps| - 1]) + ToInputPart(ps[|ps| - 1])
  }

  function InputParts(c: Content): seq<InputPart> {
    match c
    case Plain(text) => if text == "" then [] else [InputText(text)]
    case Parts(ps) => ToInputParts(ps)
  }

  method OpenAIPartsToResponses(c: Content) returns (out: seq<InputPart>)
    ensures out == InputParts(c)
  {
    out := [];
    if c.Plain? {
      if c.text != "" {
        out := [InputText(c.text)];
      }
      return;
    }
    for i := 0 to |c.parts|
      invariant out == ToInputParts(c.parts[..i])
    {
      assert c.parts[..i + 1][..i] == c.parts[..i];
      match c.parts[i] {
        case TextPart(text) => out := out + [InputText(text)];
        case ImagePart(url) => out := out + [InputImage(url)];
        case _ =>
      }
    }
    assert c.parts[..|c.parts|] == c.parts;
  }

  function CallItems(calls: seq<Call>): (r: seq<Item>)
    ensures |r| == |calls| && forall i :: 0 <= i < |calls| ==> r[i] == CallItem(calls[i])
  {
    seq(|calls|, i requires 0 <= i < |calls| => CallItem(calls[i]))
  }

  function OutputOf(codec: Codec, c: Content): string {
    if c.Plain? then c.text else codec.renderParts(c.parts)
  }

  function AssistantItems(m: Msg): seq<Item>
    requires m.Assistant?
  {
    (if ReasoningOf(m) != "" then [ReasoningItem(ReasoningOf(m))] else []) +
    ((if InputParts(m.content) != [] then [MessageItem(AssistantRole, InputParts(m.content))] else []) + CallItems(m.calls))
  }

  function Items(codec: Codec, m: Msg): seq<Item>
    requires !m.System?
  {
    match m
    case User(content) => [MessageItem(UserRole, InputParts(content))]
    case Assistant(_, _, _, _) => AssistantItems(m)
    case ToolMsg(id, content) => [OutputItem(id, OutputOf(codec, content))]
  }

  /** Instructions and input of a conversation. */
  function ToResponses(codec: Codec, msgs: seq<Msg>): (string, seq<Item>) {
    if msgs == [] then ("", [])
    else
      var (instructions, input) := ToResponses(codec, msgs[..|msgs| - 1]);
      var m := msgs[|msgs| - 1];
      if m.System? then
        (if instructions != "" then instructions + "\n\n" + FlattenContent(m.content) else FlattenContent(m.content), input)
      else (instructions, input + Items(codec, m))
  }

  method AssistantToItems(m: Msg) returns (input: seq<Item>)
    requires m.Assistant?
    ensures input == AssistantItems(m)
  {
    hide InputParts, CallItems;
    input := [];
    var r := if m.reasoningContent != "" then m.reasoningContent else m.reasoning;
    if r != "" {
      input := [ReasoningItem(r)];
    }
    ghost var thought := input;
    assert r == ReasoningOf(m);
    hide ReasoningOf;
    var content := OpenAIPartsToResponses(m.content);
    if |content| > 0 {
      input := input + [MessageItem(AssistantRole, content)];
    }
    ghost var said := if |content| > 0 then [MessageItem(AssistantRole, content)] else [];
    assert input == thought + said;
    var calls := CallsToItems(m.calls);
    input := input + calls;
    ConcatAssoc(thought, said, calls);
  }

  method CallsToItems(calls: seq<Call>) returns (items: seq<Item>)
    ensures items == CallItems(calls)
  {
    items := [];
    for i := 0 to |calls|
      invariant items == CallItems(calls[..i])
    {
      assert CallItems(calls[..i + 1]) == CallItems(calls[..i]) + [CallItem(calls[i])];
      items := items + [CallItem(calls[i])];
    }
    assert calls[..|calls|] == calls;
  }

  method OpenAIChatToCodex(codec: Codec, messages: seq<Msg>) returns (instructions: string, input: seq<Item>)
    ensures (instructions, input) == ToResponses(codec, messages)
  {
    hide InputParts, FlattenContent, AssistantItems;
    instructions, input := "", [];
    for i := 0 to |messages|
      invariant (instructions, input) == ToResponses(codec, messages[..i])
    {
      assert messages[..i + 1][..i] == messages[..i];
      match messages[i] {
        case System(content) =>
          var text := FlattenContent(content);
          if instructions != "" {
            instructions := instructions + "\n\n" + text;
          } else {
            instructions := text;
          }
        case ToolMsg(id, content) =>
          var out := if content.Plain? then content.text else codec.renderParts(content.parts);
          input := input + [OutputItem(id, out)];
        case Assistant(_, _, _, _) =>
          var items := AssistantToItems(messages[i]);
          input := input + items;
        case User(content) =>
          var parts := OpenAIPartsToResponses(content);
          input := input + [MessageItem(UserRole, parts)];
      }
    }
    assert messages[..|messages|] == messages;
  }

  // ---------------------------------------------------------------------------------------------
  // Responses to chat
  // ---------------------------------------------------------------------------------------------

  function Texts(ps: seq<InputPart>): seq<string> {
    if ps == [] then []
    else Texts(ps[..|ps| - 1]) + if ps[|ps| - 1].InputText? then [ps[|ps| - 1].text] else []
  }

  function Images(ps: seq<InputPart>): seq<Part> {
    if ps == [] then []
    else Images(ps[..|ps| - 1]) + if ps[|ps| - 1].InputImage? then [ImagePart(ps[|ps| - 1].url)] else []
  }

  function TextParts(texts: seq<string>): (r: seq<Part>)
    ensures |r| == |texts| && forall i :: 0 <= i < |texts| ==> r[i] == TextPart(texts[i])
  {
    seq(|texts|, i requires 0 <= i < |texts| => TextPart(texts[i]))
  }

  function ChatContent(ps: seq<InputPart>): Content {
    if Images(ps) == [] then Plain(Flatten(Texts(ps))) else Parts(TextParts(Texts(ps)) + Images(ps))
  }

  method ResponsesContentToOpenai(content: seq<InputPart>) returns (r: Content)
    ensures r == ChatContent(content)
  {
    var texts: seq<string>, parts: seq<Part> := [], [];
    for i := 0 to |content|
      invariant texts == Texts(content[..i]) && parts == Images(content[..i])
    {
      assert content[..i + 1][..i] == content[..i];
      match content[i] {
        case InputText(text) => texts := texts + [text];
        case InputImage(url) => parts := parts + [ImagePart(url)];
      }
    }
    assert content[..|content|] == content;
    if |parts| == 0 {
      return Plain(Flatten(texts));
    }
    r := Parts(TextParts(texts) + parts);
  }

  function InRole(role: Role, content: Content): Msg {
    match role
    case UserRole => User(content)
    case AssistantRole => Assistant(content, "", "", [])
    case SystemRole => System(content)
  }

  function ItemToChat(item: Item): Msg {
    match item
    case StringItem(text) => User(Plain(text))
    case MessageItem(role, content) => InRole(role, ChatContent(content))
    case ReasoningItem(summary) => Assistant(Parts([]), summary, summary, [])
    case CallItem(call) => Assistant(Parts([]), "", "", [call])
    case OutputItem(id, output) => ToolMsg(id, Plain(output))
  }

  function ItemsToChat(items: seq<Item>): (r: seq<Msg>)
    ensures |r| == |items| && forall i :: 0 <= i < |items| ==> r[i] == ItemToChat(items[i])
  {
    seq(|items|, i requires 0 <= i < |items| => ItemToChat(items[i]))
  }

  function Instructions(text: string): seq<Msg> {
    if text == "" then [] else [System(Plain(text))]
  }

  method ResponsesToGrok(instructions: string, input: seq<Item>) returns (messages: seq<Msg>)
    ensures messages == Instructions(instructions) + ItemsToChat(input)
  {
    hide ChatContent;
    messages := [];
    if instructions != "" {
      messages := messages + [System(Plain(instructions))];
    }
    ghost var head := messages;
    for i := 0 to |input|
      invariant messages == head + ItemsToChat(input[..i])
    {
      assert ItemsToChat(input[..i + 1]) == ItemsToChat(input[..i]) + [ItemToChat(input[i])];
      match input[i] {
        case StringItem(text) => messages := messages + [User(Plain(text))];
        case MessageItem(role, content) =>
          var c := ResponsesContentToOpenai(content);
          messages := messages + [InRole(role, c)];
        case ReasoningItem(summary) => messages := messages + [Assistant(Parts([]), summary, summary, [])];
        case CallItem(call) => messages := messages + [Assistant(Parts([]), "", "", [call])];
        case OutputItem(id, output) => messages := messages + [ToolMsg(id, Plain(output))];
      }
    }
    assert input[..|input|] == input;
  }

  // ---------------------------------------------------------------------------------------------
  // There and back through Responses
  // ---------------------------------------------------------------------------------------------

  function ThroughResponses(codec: Codec, msgs: seq<Msg>): seq<Msg> {
    var (instructions, input) := ToResponses(codec, msgs);
    Instructions(instructions) + ItemsToChat(input)
  }

  /** All the text of a content, its parts run together. */
  function TextsOf(ps: seq<Part>): seq<string> {
    if ps == [] then [] else TextsOf(ps[..|ps| - 1]) + if ps[|ps| - 1].TextPart? then [ps[|ps| - 1].text] else []
  }

  function ImagesOf(ps: seq<Part>): seq<Part> {
    if ps == [] then [] else ImagesOf(ps[..|ps| - 1]) + if ps[|ps| - 1].ImagePart? then [ps[|ps| - 1]] else []
  }

  /** Text run together into one string; beside images, the texts come first. */
  function Sorted(c: Content): Content {
    match c
    case Plain(_) => c
    case Parts(ps) => if ImagesOf(ps) == [] then Plain(Flatten(TextsOf(ps))) else Parts(TextParts(TextsOf(ps)) + ImagesOf(ps))
  }

  /** A content with no text part or image, or the empty string. */
  predicate SaysNothing(c: Content) {
    match c
    case Plain(text) => text == ""
    case Parts(ps) => TextsOf(ps) == [] && ImagesOf(ps) == []
  }

  function CallMessages(calls: seq<Call>): (r: seq<Msg>)
    ensures |r| == |calls| && forall i :: 0 <= i < |calls| ==> r[i] == Assistant(Parts([]), "", "", [calls[i]])
  {
    seq(|calls|, i requires 0 <= i < |calls| => Assistant(Parts([]), "", "", [calls[i]]))
  }

  /** An assistant message comes back as its reasoning, its content and each of its calls, one message each. */
  function Split(codec: Codec, m: Msg): seq<Msg>
    requires !m.System?
  {
    match m
    case User(content) => [User(Sorted(content))]
    case ToolMsg(id, content) => [ToolMsg(id, Plain(OutputOf(codec, content)))]
    case Assistant(content, _, _, calls) =>
      var r := ReasoningOf(m);
      (if r == "" then [] else [Assistant(Parts([]), r, r, [])]) +
      ((if SaysNothing(content) then [] else [Assistant(Sorted(content), "", "", [])]) + CallMessages(calls))
  }

  function SplitAll(codec: Codec, msgs: seq<Msg>): seq<Msg> {
    if msgs == [] then []
    else
      var m := msgs[|msgs| - 1];
      SplitAll(codec, msgs[..|msgs| - 1]) + if m.System? then [] else Split(codec, m)
  }

  /** The texts of the system messages from the first that is not empty. */
  function SystemLines(msgs: seq<Msg>): seq<string> {
    if msgs == [] then []
    else
      var lines, m := SystemLines(msgs[..|msgs| - 1]), msgs[|msgs| - 1];
      if !m.System? || (lines == [] && FlattenContent(m.content) == "") then lines else lines + [FlattenContent(m.content)]
  }

  lemma {:induction false} PartSorted(ps: seq<InputPart>, p: Part)
    ensures Texts(ps + ToInputPart(p)) == Texts(ps) + if p.TextPart? then [p.text] else []
    ensures Images(ps + ToInputPart(p)) == Images(ps) + if p.ImagePart? then [p] else []
  {
    if ToInputPart(p) == [] {
      assert ps + [] == ps;
    } else {
      assert (ps + ToInputPart(p))[..|ps|] == ps;
    }
  }

  lemma {:induction false} PartsSorted(ps: seq<Part>)
    ensures Texts(ToInputParts(ps)) == TextsOf(ps) && Images(ToInputParts(ps)) == ImagesOf(ps)
    decreases |ps|
  {
    hide ToInputPart, Texts, Images;
    if ps != [] {
      PartsSorted(ps[..|ps| - 1]);
      PartSorted(ToInputParts(ps[..|ps| - 1]), ps[|ps| - 1]);
    } else {
      NoTexts();
    }
  }

  lemma {:induction false} NoTexts()
    ensures Texts([]) == [] && Images([]) == []
  {
  }

  /** Every input part is a text or an image. */
  lemma {:induction false} NothingToInput(ps: seq<InputPart>)
    ensures ps == [] <==> Texts(ps) == [] && Images(ps) == []
    decreases |ps|
  {
    if ps != [] {
      NothingToInput(ps[..|ps| - 1]);
    }
  }

  lemma {:induction false} ContentSorted(c: Content)
    ensures ChatContent(InputParts(c)) == Sorted(c)
    ensures InputParts(c) == [] <==> SaysNothing(c)
  {
    match c
    case Plain(text) => PlainSorted(text);
    case Parts(ps) =>
      PartsSorted(ps);
      NothingToInput(ToInputParts(ps));
  }

  lemma {:induction false} PlainSorted(text: string)
    ensures ChatContent(InputParts(Plain(text))) == Plain(text)
  {
    if text != "" {
      var ps := [InputText(text)];
      assert ps[..0] == [];
      assert [] + [text] == [text];
      FlattenOne(text);
      assert Texts(ps) == [text] && Images(ps) == [];
    }
  }

  lemma {:induction false} ItemsToChatAppend(a: seq<Item>, b: seq<Item>)
    ensures ItemsToChat(a + b) == ItemsToChat(a) + ItemsToChat(b)
  {
  }

  lemma {:induction false} ItemsSplit(codec: Codec, m: Msg)
    requires !m.System?
    ensures ItemsToChat(Items(codec, m)) == Split(codec, m)
  {
    hide ChatContent, InputParts, Sorted, SaysNothing;
    match m
    case User(content) => ContentSorted(content);
    case ToolMsg(_, _) =>
    case Assistant(content, _, _, calls) =>
      hide ItemsToChat, CallItems, CallMessages, ReasoningOf;
      ContentSorted(content);
      var r := if ReasoningOf(m) != "" then [ReasoningItem(ReasoningOf(m))] else [];
      var said := if InputParts(content) != [] then [MessageItem(AssistantRole, InputParts(content))] else [];
      ItemsToChatAppend(r, said + CallItems(calls));
      ItemsToChatAppend(said, CallItems(calls));
      CallItemsBack(calls);
      ItemBack(ReasoningItem(ReasoningOf(m)));
      ItemBack(MessageItem(AssistantRole, InputParts(content)));
  }

  lemma {:induction false} CallItemsBack(calls: seq<Call>)
    ensures ItemsToChat(CallItems(calls)) == CallMessages(calls)
  {
  }

  lemma {:induction false} ItemBack(item: Item)
    ensures ItemsToChat([item]) == [ItemToChat(item)] && ItemsToChat([]) == []
  {
  }

  lemma {:induction false} JoinSnoc(lines: seq<string>, line: string, sep: string)
    ensures Join(lines + [line], sep) == if lines == [] then line else Join(lines, sep) + sep + line
  {
    if lines == [] {
      assert [] + [line] == [line];
    } else {
      assert (lines + [line])[..|lines|] == lines;
    }
  }

  lemma {:induction false} SystemLinesStart(msgs: seq<Msg>)
    ensures SystemLines(msgs) != [] ==> SystemLines(msgs)[0] != ""
    decreases |msgs|
  {
    hide FlattenContent;
    if msgs != [] {
      SystemLinesStart(msgs[..|msgs| - 1]);
    }
  }

  lemma {:induction false} JoinNotEmpty(lines: seq<string>, sep: string)
    requires lines != [] && lines[0] != ""
    ensures Join(lines, sep) != ""
    decreases |lines|
  {
    if |lines| > 1 {
      JoinNotEmpty(lines[..|lines| - 1], sep);
    }
  }

  /**
   Every conversation comes back from Responses split: the system texts joined into one message in front,
   and every other message as Split gives it, in order.
   */
  lemma {:induction false} ThroughResponsesParts(codec: Codec, msgs: seq<Msg>)
    ensures ToResponses(codec, msgs).0 == Join(SystemLines(msgs), "\n\n")
    ensures ItemsToChat(ToResponses(codec, msgs).1) == SplitAll(codec, msgs)
    decreases |msgs|
  {
    hide Items, Split, FlattenContent, Join, ItemsToChat;
    if msgs == [] {
      NothingJoined();
    } else {
      var front, m := msgs[..|msgs| - 1], msgs[|msgs| - 1];
      ThroughResponsesParts(codec, front);
      var (instructions, input) := ToResponses(codec, front);
      if m.System? {
        JoinSnoc(SystemLines(front), FlattenContent(m.content), "\n\n");
        SystemLinesStart(front);
        NothingJoined();
        if SystemLines(front) != [] {
          JoinNotEmpty(SystemLines(front), "\n\n");
        }
      } else {
        ItemsToChatAppend(input, Items(codec, m));
        ItemsSplit(codec, m);
      }
    }
  }

  lemma {:induction false} NothingJoined()
    ensures Join([], "\n\n") == "" && ItemsToChat([]) == []
  {
  }

  /** The whole round trip. */
  lemma {:induction false} ThroughResponsesSplits(codec: Codec, msgs: seq<Msg>)
    ensures ThroughResponses(codec, msgs) == Instructions(Join(SystemLines(msgs), "\n\n")) + SplitAll(codec, msgs)
  {
    hide ToResponses, Join, SystemLines, SplitAll, ItemsToChat;
    ThroughResponsesParts(codec, msgs);
  }

  // ---------------------------------------------------------------------------------------------
  // No call is lost
  // ---------------------------------------------------------------------------------------------

  /** Every tool call of a conversation, in order. */
  function AllCalls(msgs: seq<Msg>): seq<Call> {
    if msgs == [] then []
    else AllCalls(msgs[..|msgs| - 1]) + if msgs[|msgs| - 1].Assistant? then msgs[|msgs| - 1].calls else []
  }

  lemma {:induction false} AllCallsAppend(a: seq<Msg>, b: seq<Msg>)
    ensures AllCalls(a + b) == AllCalls(a) + AllCalls(b)
    decreases |b|
  {
    if b == [] {
      assert a + b == a;
    } else {
      assert (a + b)[..|a + b| - 1] == a + b[..|b| - 1];
      AllCallsAppend(a, b[..|b| - 1]);
      var more := if b[|b| - 1].Assistant? then b[|b| - 1].calls else [];
      ConcatAssoc(AllCalls(a), AllCalls(b[..|b| - 1]), more);
    }
  }

  lemma {:induction false} CallMessagesCall(calls: seq<Call>)
    ensures AllCalls(CallMessages(calls)) == calls
    decreases |calls|
  {
    if calls != [] {
      CallMessagesCall(calls[..|calls| - 1]);
      assert CallMessages(calls)[..|calls| - 1] == CallMessages(calls[..|calls| - 1]);
      assert calls == calls[..|calls| - 1] + [calls[|calls| - 1]];
    }
  }

  lemma {:induction false} QuietMessage(m: Msg)
    ensures !m.Assistant? || m.calls == [] ==> AllCalls([m]) == []
  {
    assert [m][..0] == [];
  }

  lemma {:induction false} SplitKeepsCalls(codec: Codec, m: Msg)
    requires !m.System?
    ensures AllCalls(Split(codec, m)) == if m.Assistant? then m.calls else []
  {
    hide AllCalls, Sorted, SaysNothing, OutputOf;
    match m
    case User(content) => QuietMessage(User(Sorted(content)));
    case ToolMsg(id, content) => QuietMessage(ToolMsg(id, Plain(OutputOf(codec, content))));
    case Assistant(content, _, _, calls) =>
      var r := ReasoningOf(m);
      var thought := if r == "" then [] else [Assistant(Parts([]), r, r, [])];
      var said := if SaysNothing(content) then [] else [Assistant(Sorted(content), "", "", [])];
      AllCallsAppend(thought, said + CallMessages(calls));
      AllCallsAppend(said, CallMessages(calls));
      CallMessagesCall(calls);
      NoCalls();
      QuietMessage(Assistant(Parts([]), r, r, []));
      QuietMessage(Assistant(Sorted(content), "", "", []));
      assert AllCalls(thought) == [] && AllCalls(said) == [];
      assert Split(codec, m) == thought + (said + CallMessages(calls));
      assert [] + ([] + calls) == calls;
  }

  lemma {:induction false} NoCalls()
    ensures AllCalls([]) == []
  {
  }

  /** Splitting keeps every tool call, in order. */
  lemma {:induction false} ThroughResponsesKeepsCalls(codec: Codec, msgs: seq<Msg>)
    ensures AllCalls(SplitAll(codec, msgs)) == AllCalls(msgs)
    ensures AllCalls(ThroughResponses(codec, msgs)) == AllCalls(msgs)
    decreases |msgs|
  {
    hide Split, ThroughResponses;
    if msgs != [] {
      var front, m := msgs[..|msgs| - 1], msgs[|msgs| - 1];
      ThroughResponsesKeepsCalls(codec, front);
      if !m.System? {
        AllCallsAppend(SplitAll(codec, front), Split(codec, m));
        SplitKeepsCalls(codec, m);
      } else {
        assert SplitAll(codec, msgs) == SplitAll(codec, front);
        assert AllCalls(msgs) == AllCalls(front);
      }
    }
    ThroughResponsesSplits(codec, msgs);
    var head := Instructions(Join(SystemLines(msgs), "\n\n"));
    AllCallsAppend(head, SplitAll(codec, msgs));
    if head != [] {
      QuietMessage(head[0]);
      assert head == [head[0]];
    }
    assert [] + AllCalls(msgs) == AllCalls(msgs);
  }

  // ---------------------------------------------------------------------------------------------
  // When once is enough
  // ---------------------------------------------------------------------------------------------

  /** An assistant message whose only content is empty text parts: it comes back as "", and then not at all. */
  predicate Fades(m: Msg) {
    m.Assistant? && !SaysNothing(m.content) && SaysNothing(Sorted(m.content))
  }

  lemma {:induction false} TextPartsTexts(texts: seq<string>)
    ensures TextsOf(TextParts(texts)) == texts && ImagesOf(TextParts(texts)) == []
    decreases |texts|
  {
    if texts != [] {
      TextPartsTexts(texts[..|texts| - 1]);
      assert TextParts(texts)[..|texts| - 1] == TextParts(texts[..|texts| - 1]);
      assert texts == texts[..|texts| - 1] + [texts[|texts| - 1]];
    }
  }

  lemma {:induction false} OneImage(p: Part)
    ensures p.ImagePart? ==> ImagesOf([p]) == [p] && TextsOf([p]) == []
  {
    assert [p][..0] == [];
  }

  lemma {:induction false} ImagesAreImages(ps: seq<Part>)
    ensures ImagesOf(ImagesOf(ps)) == ImagesOf(ps) && TextsOf(ImagesOf(ps)) == []
    decreases |ps|
  {
    if ps != [] {
      ImagesAreImages(ps[..|ps| - 1]);
      var front, p := ImagesOf(ps[..|ps| - 1]), ps[|ps| - 1];
      OneImage(p);
      PartsOfAppend(front, [p]);
      assert front + [] == front;
    }
  }

  lemma {:induction false} PartsOfAppend(a: seq<Part>, b: seq<Part>)
    ensures TextsOf(a + b) == TextsOf(a) + TextsOf(b) && ImagesOf(a + b) == ImagesOf(a) + ImagesOf(b)
    decreases |b|
  {
    if b == [] {
      assert a + b == a;
    } else {
      assert (a + b)[..|a + b| - 1] == a + b[..|b| - 1];
      PartsOfAppend(a, b[..|b| - 1]);
    }
  }

  lemma {:induction false} SortedTwice(c: Content)
    ensures Sorted(Sorted(c)) == Sorted(c)
  {
    if c.Parts? {
      var texts, images := TextsOf(c.parts), ImagesOf(c.parts);
      TextPartsTexts(texts);
      ImagesAreImages(c.parts);
      PartsOfAppend(TextParts(texts), images);
      assert texts + [] == texts && [] + images == images;
    }
  }

  /** A split message splits into itself, or into nothing when it is a faded one. */
  predicate Steady(codec: Codec, m: Msg) {
    !m.System? && Split(codec, m) == [m]
  }

  predicate Gone(codec: Codec, m: Msg) {
    !m.System? && Split(codec, m) == []
  }

  lemma {:induction false} PieceIsSteady(codec: Codec, c: Content, r: string, call: Call)
    ensures Steady(codec, User(Sorted(c)))
    ensures r != "" ==> Steady(codec, Assistant(Parts([]), r, r, []))
    ensures Steady(codec, Assistant(Parts([]), "", "", [call]))
    ensures if SaysNothing(Sorted(c)) then Gone(codec, Assistant(Sorted(c), "", "", []))
            else Steady(codec, Assistant(Sorted(c), "", "", []))
  {
    hide Sorted;
    SortedTwice(c);
    assert SaysNothing(Parts([]));
    assert CallMessages([]) == [] && CallMessages([call]) == [Assistant(Parts([]), "", "", [call])];
  }

  lemma {:induction false} SplitIsSteady(codec: Codec, m: Msg)
    requires !m.System?
    ensures forall i :: 0 <= i < |Split(codec, m)| ==> Steady(codec, Split(codec, m)[i]) || Gone(codec, Split(codec, m)[i])
    ensures Fades(m) <==> exists i :: 0 <= i < |Split(codec, m)| && Gone(codec, Split(codec, m)[i])
  {
    hide Sorted, SaysNothing, Steady, Gone;
    var blank := Call("", "", "");
    match m
    case User(content) =>
      PieceIsSteady(codec, content, "", blank);
      SteadyIsNotGone(codec, User(Sorted(content)));
    case ToolMsg(id, content) =>
      ToolIsSteady(codec, id, OutputOf(codec, content));
      SteadyIsNotGone(codec, ToolMsg(id, Plain(OutputOf(codec, content))));
    case Assistant(content, _, _, calls) =>
      var r := ReasoningOf(m);
      var thought := if r == "" then [] else [Assistant(Parts([]), r, r, [])];
      var said := if SaysNothing(content) then [] else [Assistant(Sorted(content), "", "", [])];
      PieceIsSteady(codec, content, r, blank);
      SteadyIsNotGone(codec, Assistant(Parts([]), r, r, []));
      SteadyIsNotGone(codec, Assistant(Sorted(content), "", "", []));
      forall i | 0 <= i < |calls|
        ensures Steady(codec, CallMessages(calls)[i]) && !Gone(codec, CallMessages(calls)[i])
      {
        PieceIsSteady(codec, content, r, calls[i]);
        SteadyIsNotGone(codec, CallMessages(calls)[i]);
      }
      SomeGone(codec, thought, said + CallMessages(calls));
      SomeGone(codec, said, CallMessages(calls));
      assert Split(codec, m) == thought + (said + CallMessages(calls));
      assert said != [] ==> said[0] == Assistant(Sorted(content), "", "", []);
  }

  lemma {:induction false} ToolIsSteady(codec: Codec, id: string, output: string)
    ensures Steady(codec, ToolMsg(id, Plain(output)))
  {
  }

  lemma {:induction false} SteadyIsNotGone(codec: Codec, m: Msg)
    ensures !(Steady(codec, m) && Gone(codec, m))
  {
  }

  lemma {:induction false} SplitAllIsSteady(codec: Codec, msgs: seq<Msg>)
    ensures var out := SplitAll(codec, msgs);
            && (forall i :: 0 <= i < |out| ==> Steady(codec, out[i]) || Gone(codec, out[i]))
            && ((exists i :: 0 <= i < |out| && Gone(codec, out[i])) <==> exists i :: 0 <= i < |msgs| && Fades(msgs[i]))
    decreases |msgs|
  {
    hide Split, Steady, Gone, Fades;
    if msgs != [] {
      var front, m := msgs[..|msgs| - 1], msgs[|msgs| - 1];
      SplitAllIsSteady(codec, front);
      var before := SplitAll(codec, front);
      assert (exists i :: 0 <= i < |msgs| && Fades(msgs[i])) <==> (exists i :: 0 <= i < |front| && Fades(front[i])) || Fades(m);
      if m.System? {
        SystemDoesNotFade(m);
        assert SplitAll(codec, msgs) == before;
      } else {
        SplitIsSteady(codec, m);
        SomeGone(codec, before, Split(codec, m));
      }
    }
  }

  lemma {:induction false} SystemDoesNotFade(m: Msg)
    requires m.System?
    ensures !Fades(m)
  {
  }

  lemma {:induction false} SomeGone(codec: Codec, a: seq<Msg>, b: seq<Msg>)
    ensures (forall i :: 0 <= i < |a| ==> Steady(codec, a[i]) || Gone(codec, a[i])) &&
            (forall i :: 0 <= i < |b| ==> Steady(codec, b[i]) || Gone(codec, b[i])) ==>
              forall i :: 0 <= i < |a + b| ==> Steady(codec, (a + b)[i]) || Gone(codec, (a + b)[i])
    ensures (exists i :: 0 <= i < |a + b| && Gone(codec, (a + b)[i]))
            <==> (exists i :: 0 <= i < |a| && Gone(codec, a[i])) || (exists i :: 0 <= i < |b| && Gone(codec, b[i]))
  {
    hide Gone, Steady;
    forall i | 0 <= i < |a|
      ensures (a + b)[i] == a[i]
    {
    }
    forall i | 0 <= i < |b|
      ensures (a + b)[|a| + i] == b[i]
    {
    }
  }

  /** A list grown on both sides by the same element, or on one side only. */
  lemma {:induction false} SameOrShorter(out: seq<Msg>, front: seq<Msg>, m: Msg)
    requires |out| <= |front|
    ensures out + [m] == front + [m] <==> out == front
    ensures out != front + [m]
  {
    assert (out + [m])[..|out|] == out && (front + [m])[..|front|] == front;
  }

  lemma {:induction false} SplitLast(codec: Codec, msgs: seq<Msg>)
    requires |msgs| > 0 && (Steady(codec, msgs[|msgs| - 1]) || Gone(codec, msgs[|msgs| - 1]))
    ensures var out, m := SplitAll(codec, msgs[..|msgs| - 1]), msgs[|msgs| - 1];
            SplitAll(codec, msgs) == if Gone(codec, m) then out else out + [m]
  {
    hide Split;
    var out := SplitAll(codec, msgs[..|msgs| - 1]);
    assert out + [] == out;
  }

  lemma {:induction false} SteadySplit(codec: Codec, msgs: seq<Msg>)
    requires forall i :: 0 <= i < |msgs| ==> Steady(codec, msgs[i]) || Gone(codec, msgs[i])
    ensures |SplitAll(codec, msgs)| <= |msgs|
    ensures SplitAll(codec, msgs) == msgs <==> forall i :: 0 <= i < |msgs| ==> !Gone(codec, msgs[i])
    decreases |msgs|
  {
    hide Split, Steady, Gone;
    if msgs != [] {
      var front, m := msgs[..|msgs| - 1], msgs[|msgs| - 1];
      SteadySplit(codec, front);
      var out := SplitAll(codec, front);
      SplitLast(codec, msgs);
      assert msgs == front + [m];
      SameOrShorter(out, front, m);
      assert (forall i :: 0 <= i < |msgs| ==> !Gone(codec, msgs[i]))
             <==> (forall i :: 0 <= i < |front| ==> !Gone(codec, front[i])) && !Gone(codec, m);
    }
  }

  lemma {:induction false} SplitAllAppend(codec: Codec, a: seq<Msg>, b: seq<Msg>)
    requires forall i :: 0 <= i < |b| ==> !b[i].System?
    ensures SplitAll(codec, a + b) == SplitAll(codec, a) + SplitAll(codec, b)
    ensures SystemLines(a + b) == SystemLines(a)
    decreases |b|
  {
    hide Split, FlattenContent;
    if b == [] {
      assert a + b == a;
    } else {
      assert (a + b)[..|a + b| - 1] == a + b[..|b| - 1];
      SplitAllAppend(codec, a, b[..|b| - 1]);
    }
  }

  lemma {:induction false} LinesOfInstructions(codec: Codec, text: string)
    ensures Join(SystemLines(Instructions(text)), "\n\n") == text && SplitAll(codec, Instructions(text)) == []
  {
    if text != "" {
      assert [System(Plain(text))][..0] == [];
      assert [] + [text] == [text];
    }
  }

  /** A second round trip changes nothing exactly when no assistant message consists of empty text parts alone. */
  lemma {:induction false} ThroughResponsesTwice(codec: Codec, msgs: seq<Msg>)
    ensures var out := ThroughResponses(codec, msgs);
            ThroughResponses(codec, out) == out <==> forall i :: 0 <= i < |msgs| ==> !Fades(msgs[i])
  {
    hide ThroughResponses, SplitAll, SystemLines, Join, Fades, Steady, Gone, Instructions;
    ThroughResponsesSplits(codec, msgs);
    var text, split := Join(SystemLines(msgs), "\n\n"), SplitAll(codec, msgs);
    var head := Instructions(text);
    SplitAllIsSteady(codec, msgs);
    NoSystemLeft(codec, split);
    SplitAllAppend(codec, head, split);
    LinesOfInstructions(codec, text);
    ThroughResponsesSplits(codec, head + split);
    assert [] + SplitAll(codec, split) == SplitAll(codec, split);
    SteadySplit(codec, split);
    assert (head + SplitAll(codec, split))[|head|..] == SplitAll(codec, split) && (head + split)[|head|..] == split;
  }

  lemma {:induction false} NoSystemLeft(codec: Codec, msgs: seq<Msg>)
    requires forall i :: 0 <= i < |msgs| ==> Steady(codec, msgs[i]) || Gone(codec, msgs[i])
    ensures forall i :: 0 <= i < |msgs| ==> !msgs[i].System?
  {
    hide Split;
  }
}
