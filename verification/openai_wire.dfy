/**
 The two OpenAI request encoders: chat completions (`llm/provider/openai/openai.go`)
 and Responses (`llm/provider/openai/responses.go`).

 Each encoder is proved against what its wire form tells the model, read back from the
 wire: the same transcript of the conversation for both.
 */
module OpenAIWire {
  import opened Common
  import opened Messages

  // ---------- What a conversation tells the model ----------

  datatype Url = Plain(url: string) | DataUrl(mediaType: string, data: Bytes)

  /** Text is told character by character: how it is cut into parts does not matter. */
  datatype Piece = Char(c: char) | Picture(url: Url)

  /** A tool result's text, or its `{"error": ...}` object. */
  datatype Output = AsIs(text: string) | ErrorObject(text: string)

  datatype Told =
    | Said(role: string, pieces: seq<Piece>)
    | Called(id: string, name: string, arguments: string)
    | Returned(id: string, output: Output)

  function Chars(s: string): seq<Piece> { seq(|s|, i requires 0 <= i < |s| => Char(s[i])) }

  lemma CharsConcat(s: string, t: string)
    ensures Chars(s + t) == Chars(s) + Chars(t)
  {
  }

  /** Where a picture is to be found; one without a source is left out. */
  function UrlOf(image: Option<Media>): Option<Url> {
    if image.None? then None
    else if image.value.url != "" then Some(Plain(image.value.url))
    else if image.value.data == [] then None
    else Some(DataUrl(if image.value.mediaType == "" then "application/octet-stream" else image.value.mediaType, image.value.data))
  }

  function PieceOf(b: Block): seq<Piece> {
    match b
    case Text(text) => Chars(text)
    case Image(image) => if UrlOf(image).Some? then [Picture(UrlOf(image).value)] else []
    case _ => []
  }

  /** An assistant's pictures are not sent. */
  function TextOf(b: Block): seq<Piece> { if b.Text? then Chars(b.text) else [] }

  function CallOf(b: Block): seq<Told> {
    if b.ToolUse? && b.use.Some? then [Called(b.use.value.id, b.use.value.name, b.use.value.input)] else []
  }

  /** `toolresult.Content`. */
  function Content(text: string, isError: bool): Output {
    if !isError then AsIs(text) else ErrorObject(if text == "" then UNSPECIFIED else text)
  }

  function ResultOf(b: Block): seq<Told> { if b.ToolResult? then [Returned(b.id, Content(b.result, b.isError))] else [] }

  function Pieces(bs: seq<Block>): seq<Piece> { FlatMap(PieceOf, bs) }

  function Calls(bs: seq<Block>): seq<Told> { FlatMap(CallOf, bs) }

  function Results(bs: seq<Block>): seq<Told> { FlatMap(ResultOf, bs) }

  function Spoken(role: string, pieces: seq<Piece>): seq<Told> { if pieces == [] then [] else [Said(role, pieces)] }

  /** What one message tells: a user message's tool results go ahead of the rest of it. */
  function TellsOne(m: Message): seq<Told> {
    if m.role == "assistant" then Spoken(m.role, FlatMap(TextOf, m.content)) + Calls(m.content)
    else if m.role == "tool" then Results(m.content)
    else if m.role == "user" then Results(m.content) + Spoken(m.role, Pieces(m.content))
    else Spoken(m.role, Pieces(m.content))
  }

  function Tells(ms: seq<Message>): seq<Told> { FlatMap(TellsOne, ms) }

  // ---------- Reading the wire forms back ----------

  datatype Part = TextPart(text: string) | ImagePart(url: Url)

  datatype ChatContent = Absent | Str(s: string) | Parts(parts: seq<Part>) | Outcome(output: Output)

  datatype ToolCall = ToolCall(id: string, name: string, arguments: string)

  datatype ChatMessage = ChatMessage(role: string, content: ChatContent, toolCalls: seq<ToolCall>, toolCallID: string)

  datatype InputItem =
    | MessageItem(role: string, parts: seq<Part>)
    | FunctionCall(callID: string, name: string, arguments: string)
    | FunctionCallOutput(callID: string, output: Output)

  function ReadPart(p: Part): seq<Piece> {
    match p
    case TextPart(text) => Chars(text)
    case ImagePart(url) => [Picture(url)]
  }

  function ContentPieces(c: ChatContent): seq<Piece> {
    match c
    case Str(s) => Chars(s)
    case Parts(ps) => FlatMap(ReadPart, ps)
    case _ => []
  }

  function ReadCall(c: ToolCall): seq<Told> { [Called(c.id, c.name, c.arguments)] }

  function ReadChatMessage(m: ChatMessage): seq<Told> {
    if m.role == "tool" && m.content.Outcome? then [Returned(m.toolCallID, m.content.output)]
    else Spoken(m.role, ContentPieces(m.content)) + FlatMap(ReadCall, m.toolCalls)
  }

  function ReadChat(ms: seq<ChatMessage>): seq<Told> { FlatMap(ReadChatMessage, ms) }

  function ReadItem(i: InputItem): seq<Told> {
    match i
    case MessageItem(role, parts) => Spoken(role, FlatMap(ReadPart, parts))
    case FunctionCall(id, name, arguments) => [Called(id, name, arguments)]
    case FunctionCallOutput(id, output) => [Returned(id, output)]
  }

  function ReadItems(items: seq<InputItem>): seq<Told> { FlatMap(ReadItem, items) }

  // ---------- Splitting a user message ----------

  predicate NoResults(bs: seq<Block>) { forall b :: b in bs ==> !b.ToolResult? }

  predicate OnlyResults(bs: seq<Block>) { forall b :: b in bs ==> b.ToolResult? }

  /**
   `splitUserToolResults` moves the tool results out, in order, and loses nothing:
   every block goes to one side, each side tells what the whole told of its kind.
   */
  method SplitUserToolResults(m: Message) returns (results: Message, rest: Message, ok: bool)
    ensures results.role == "tool" && rest.role == m.role
    ensures OnlyResults(results.content) && NoResults(rest.content)
    ensures multiset(results.content) + multiset(rest.content) == multiset(m.content)
    ensures Results(results.content) == Results(m.content) && Pieces(rest.content) == Pieces(m.content)
    ensures ok <==> !NoResults(m.content)
    ensures !ok ==> Results(m.content) == []
  {
    var bs := m.content;
    var found: seq<Block>, others: seq<Block> := [], [];
    for i := 0 to |bs|
      invariant OnlyResults(found) && NoResults(others)
      invariant multiset(found) + multiset(others) == multiset(bs[..i])
      invariant Results(found) == Results(bs[..i]) && Pieces(others) == Pieces(bs[..i])
    {
      SplitStep(found, others, bs, i);
      if bs[i].ToolResult? {
        found := found + [bs[i]];
      } else {
        others := others + [bs[i]];
      }
    }
    assert bs[..|bs|] == bs;
    SplitFound(found, others, bs);
    return Message("tool", found), Message(m.role, others), |found| > 0;
  }

  lemma SplitStep(found: seq<Block>, others: seq<Block>, bs: seq<Block>, i: nat)
    requires i < |bs| && multiset(found) + multiset(others) == multiset(bs[..i])
    requires Results(found) == Results(bs[..i]) && Pieces(others) == Pieces(bs[..i])
    ensures bs[i].ToolResult? ==> Results(found + [bs[i]]) == Results(bs[..i + 1]) && Pieces(others) == Pieces(bs[..i + 1])
    ensures !bs[i].ToolResult? ==> Results(found) == Results(bs[..i + 1]) && Pieces(others + [bs[i]]) == Pieces(bs[..i + 1])
    ensures multiset(found) + multiset(others) + multiset{bs[i]} == multiset(bs[..i + 1])
  {
    assert bs[..i + 1] == bs[..i] + [bs[i]];
    FlatMapAppend(ResultOf, bs[..i], bs[i]);
    FlatMapAppend(PieceOf, bs[..i], bs[i]);
    FlatMapAppend(ResultOf, found, bs[i]);
    FlatMapAppend(PieceOf, others, bs[i]);
  }

  lemma SplitFound(found: seq<Block>, others: seq<Block>, bs: seq<Block>)
    requires OnlyResults(found) && NoResults(others) && multiset(found) + multiset(others) == multiset(bs)
    ensures |found| > 0 <==> !NoResults(bs)
  {
    if |found| > 0 {
      assert found[0] in multiset(bs) && found[0] in bs;
    } else {
      assert multiset(others) == multiset(bs);
      assert forall b :: b in bs ==> b in multiset(others);
    }
  }

  // ---------- Chat completions ----------

  method ConvertUserMessage(m: Message) returns (msg: ChatMessage)
    ensures ReadChatMessage(msg) == Spoken(m.role, Pieces(m.content))
  {
    var bs := m.content;
    var hasImage := false;
    for i := 0 to |bs|
      invariant !hasImage
      invariant forall j :: 0 <= j < i ==> !bs[j].Image?
    {
      if bs[i].Image? {
        hasImage := true;
        break;
      }
    }
    if !hasImage {
      var sb := "";
      for i := 0 to |bs|
        invariant Chars(sb) == Pieces(bs[..i])
      {
        FlatMapNext(PieceOf, bs, i);
        if bs[i].Text? {
          CharsConcat(sb, bs[i].text);
          sb := sb + bs[i].text;
        }
      }
      assert bs[..|bs|] == bs;
      return ChatMessage(m.role, Str(sb), [], "");
    }
    var parts := ConvertParts(bs);
    return ChatMessage(m.role, Parts(parts), [], "");
  }

  /** The parts of text and pictures, which both wire forms build alike. */
  method ConvertParts(bs: seq<Block>) returns (parts: seq<Part>)
    ensures FlatMap(ReadPart, parts) == Pieces(bs)
  {
    parts := [];
    for i := 0 to |bs|
      invariant FlatMap(ReadPart, parts) == Pieces(bs[..i])
    {
      FlatMapNext(PieceOf, bs, i);
      if bs[i].Text? {
        FlatMapAppend(ReadPart, parts, TextPart(bs[i].text));
        parts := parts + [TextPart(bs[i].text)];
      } else if bs[i].Image? {
        var url := UrlOf(bs[i].image);
        if url.None? {
          continue;
        }
        FlatMapAppend(ReadPart, parts, ImagePart(url.value));
        parts := parts + [ImagePart(url.value)];
      }
    }
    assert bs[..|bs|] == bs;
  }

  method ConvertAssistantMessage(m: Message) returns (msg: ChatMessage)
    requires m.role == "assistant"
    ensures ReadChatMessage(msg) == TellsOne(m)
  {
    var bs := m.content;
    var textParts, toolCalls: seq<ToolCall>, someText := "", [], false;
    for i := 0 to |bs|
      invariant Chars(textParts) == FlatMap(TextOf, bs[..i]) && FlatMap(ReadCall, toolCalls) == Calls(bs[..i])
      invariant !someText ==> textParts == ""
    {
      FlatMapNext(TextOf, bs, i);
      FlatMapNext(CallOf, bs, i);
      if bs[i].Text? {
        CharsConcat(textParts, bs[i].text);
        textParts, someText := textParts + bs[i].text, true;
      } else if bs[i].ToolUse? && bs[i].use.Some? {
        var use := bs[i].use.value;
        FlatMapAppend(ReadCall, toolCalls, ToolCall(use.id, use.name, use.input));
        toolCalls := toolCalls + [ToolCall(use.id, use.name, use.input)];
      }
    }
    assert bs[..|bs|] == bs;
    return ChatMessage("assistant", if someText then Str(textParts) else Absent, toolCalls, "");
  }

  method ConvertToolMessage(m: Message) returns (out: seq<ChatMessage>)
    ensures ReadChat(out) == Results(m.content)
  {
    var bs := m.content;
    out := [];
    for i := 0 to |bs|
      invariant ReadChat(out) == Results(bs[..i])
    {
      FlatMapNext(ResultOf, bs, i);
      if !bs[i].ToolResult? {
        continue;
      }
      var msg := ChatMessage("tool", Outcome(Content(bs[i].result, bs[i].isError)), [], bs[i].id);
      FlatMapAppend(ReadChatMessage, out, msg);
      out := out + [msg];
    }
    assert bs[..|bs|] == bs;
  }

  method ConvertMessage(m: Message) returns (out: seq<ChatMessage>)
    ensures ReadChat(out) == TellsOne(m)
  {
    if m.role == "assistant" {
      var msg := ConvertAssistantMessage(m);
      FlatMapOne(ReadChatMessage, msg);
      return [msg];
    }
    if m.role == "tool" {
      out := ConvertToolMessage(m);
      return;
    }
    if m.role == "user" {
      var results, rest, ok := SplitUserToolResults(m);
      if !ok {
        var msg := ConvertUserMessage(m);
        FlatMapOne(ReadChatMessage, msg);
        return [msg];
      }
      out := ConvertToolMessage(results);
      if |rest.content| > 0 {
        var msg := ConvertUserMessage(rest);
        FlatMapAppend(ReadChatMessage, out, msg);
        out := out + [msg];
      }
      return;
    }
    var msg := ConvertUserMessage(m);
    FlatMapOne(ReadChatMessage, msg);
    return [msg];
  }

  /** The chat-completions messages tell exactly the system prompt and the conversation. */
  method ConvertMessages(systemPrompt: string, history: seq<Message>) returns (msgs: seq<ChatMessage>)
    ensures ReadChat(msgs) == Spoken("system", Chars(systemPrompt)) + Tells(history)
  {
    msgs := SystemMessages(systemPrompt);
    ghost var prompt := ReadChat(msgs);
    for i := 0 to |history|
      invariant ReadChat(msgs) == prompt + Tells(history[..i])
    {
      var one := ConvertMessage(history[i]);
      ToldSoFar(prompt, msgs, one, history, i);
      msgs := msgs + one;
    }
    assert history[..|history|] == history;
  }

  lemma ToldSoFar(prompt: seq<Told>, msgs: seq<ChatMessage>, one: seq<ChatMessage>, history: seq<Message>, i: nat)
    requires i < |history| && ReadChat(msgs) == prompt + Tells(history[..i]) && ReadChat(one) == TellsOne(history[i])
    ensures ReadChat(msgs + one) == prompt + Tells(history[..i + 1])
  {
    FlatMapNext(TellsOne, history, i);
    FlatMapConcat(ReadChatMessage, msgs, one);
  }

  method SystemMessages(systemPrompt: string) returns (msgs: seq<ChatMessage>)
    ensures ReadChat(msgs) == Spoken("system", Chars(systemPrompt))
  {
    if systemPrompt == "" {
      return [];
    }
    var msg := ChatMessage("system", Str(systemPrompt), [], "");
    FlatMapOne(ReadChatMessage, msg);
    return [msg];
  }

  // ---------- Responses ----------

  method ConvertResponsesUserMessage(m: Message) returns (item: InputItem)
    ensures ReadItem(item) == Spoken(m.role, Pieces(m.content))
  {
    var parts := ConvertParts(m.content);
    return MessageItem(m.role, parts);
  }

  /** The assistant's text as one item, if it has any text block. */
  method AssistantText(bs: seq<Block>) returns (items: seq<InputItem>)
    ensures ReadItems(items) == Spoken("assistant", FlatMap(TextOf, bs))
  {
    var textParts, someText := "", false;
    for i := 0 to |bs|
      invariant Chars(textParts) == FlatMap(TextOf, bs[..i])
      invariant !someText ==> textParts == ""
    {
      FlatMapNext(TextOf, bs, i);
      if bs[i].Text? {
        CharsConcat(textParts, bs[i].text);
        textParts, someText := textParts + bs[i].text, true;
      }
    }
    assert bs[..|bs|] == bs;
    if !someText {
      return [];
    }
    FlatMapOne(ReadPart, TextPart(textParts));
    FlatMapOne(ReadItem, MessageItem("assistant", [TextPart(textParts)]));
    return [MessageItem("assistant", [TextPart(textParts)])];
  }

  method ConvertResponsesAssistantMessage(m: Message) returns (items: seq<InputItem>)
    requires m.role == "assistant"
    ensures ReadItems(items) == TellsOne(m)
  {
    var bs := m.content;
    items := AssistantText(bs);
    ghost var spoken := ReadItems(items);
    for i := 0 to |bs|
      invariant ReadItems(items) == spoken + Calls(bs[..i])
    {
      FlatMapNext(CallOf, bs, i);
      if !bs[i].ToolUse? || bs[i].use.None? {
        continue;
      }
      var use := bs[i].use.value;
      FlatMapAppend(ReadItem, items, FunctionCall(use.id, use.name, use.input));
      items := items + [FunctionCall(use.id, use.name, use.input)];
    }
    assert bs[..|bs|] == bs;
  }

  method ConvertResponsesToolMessage(m: Message) returns (out: seq<InputItem>)
    ensures ReadItems(out) == Results(m.content)
  {
    var bs := m.content;
    out := [];
    for i := 0 to |bs|
      invariant ReadItems(out) == Results(bs[..i])
    {
      FlatMapNext(ResultOf, bs, i);
      if !bs[i].ToolResult? {
        continue;
      }
      var item := FunctionCallOutput(bs[i].id, Content(bs[i].result, bs[i].isError));
      FlatMapAppend(ReadItem, out, item);
      out := out + [item];
    }
    assert bs[..|bs|] == bs;
  }

  method ResponsesItems(m: Message) returns (out: seq<InputItem>)
    ensures ReadItems(out) == TellsOne(m)
  {
    if m.role == "assistant" {
      out := ConvertResponsesAssistantMessage(m);
      return;
    }
    if m.role == "tool" {
      out := ConvertResponsesToolMessage(m);
      return;
    }
    if m.role == "user" {
      var results, rest, ok := SplitUserToolResults(m);
      if !ok {
        var item := ConvertResponsesUserMessage(m);
        FlatMapOne(ReadItem, item);
        return [item];
      }
      out := ConvertResponsesToolMessage(results);
      if |rest.content| > 0 {
        var item := ConvertResponsesUserMessage(rest);
        FlatMapAppend(ReadItem, out, item);
        out := out + [item];
      }
      return;
    }
    var item := ConvertResponsesUserMessage(m);
    FlatMapOne(ReadItem, item);
    return [item];
  }

  /** The Responses input tells exactly the conversation, as the chat-completions messages do. */
  method BuildResponsesInput(history: seq<Message>) returns (out: seq<InputItem>)
    ensures ReadItems(out) == Tells(history)
  {
    out := [];
    for i := 0 to |history|
      invariant ReadItems(out) == Tells(history[..i])
    {
      FlatMapNext(TellsOne, history, i);
      var items := ResponsesItems(history[i]);
      FlatMapConcat(ReadItem, out, items);
      out := out + items;
    }
    assert history[..|history|] == history;
  }

  // ---------- No call or result is lost ----------

  function CarriedBy(t: Told): seq<Told> { if t.Said? then [] else [t] }

  /** The tool calls and results among what is told. */
  function Traffic(told: seq<Told>): seq<Told> { FlatMap(CarriedBy, told) }

  function BlockTraffic(b: Block): seq<Told> { CallOf(b) + ResultOf(b) }

  function MessageTraffic(m: Message): seq<Told> { FlatMap(BlockTraffic, m.content) }

  /** Every tool call and result of a history, in block order. */
  function HistoryTraffic(ms: seq<Message>): seq<Told> { FlatMap(MessageTraffic, ms) }

  /** Where each kind of block is expected: calls from the assistant, results from the user or a tool. */
  predicate Placed(role: string, bs: seq<Block>) {
    && (role != "assistant" ==> Calls(bs) == [])
    && (role != "user" && role != "tool" ==> Results(bs) == [])
  }

  lemma {:induction false} OnlyTraffic(bs: seq<Block>)
    ensures Traffic(Calls(bs)) == Calls(bs) && Traffic(Results(bs)) == Results(bs)
    decreases |bs|
  {
    if bs != [] {
      var init, b := bs[..|bs| - 1], bs[|bs| - 1];
      OnlyTraffic(init);
      OneIsTraffic(b);
      FlatMapConcat(CarriedBy, Calls(init), CallOf(b));
      FlatMapConcat(CarriedBy, Results(init), ResultOf(b));
    }
  }

  lemma OneIsTraffic(b: Block)
    ensures Traffic(CallOf(b)) == CallOf(b) && Traffic(ResultOf(b)) == ResultOf(b)
  {
    forall t: Told
      ensures Traffic([t]) == CarriedBy(t)
    {
      FlatMapOne(CarriedBy, t);
    }
  }

  lemma {:induction false} OneKindOfTraffic(bs: seq<Block>)
    ensures Calls(bs) == [] ==> FlatMap(BlockTraffic, bs) == Results(bs)
    ensures Results(bs) == [] ==> FlatMap(BlockTraffic, bs) == Calls(bs)
    decreases |bs|
  {
    if bs != [] {
      OneKindOfTraffic(bs[..|bs| - 1]);
    }
  }

  lemma {:induction false} TrafficLength(bs: seq<Block>)
    ensures |FlatMap(BlockTraffic, bs)| == |Calls(bs)| + |Results(bs)|
    decreases |bs|
  {
    if bs != [] {
      TrafficLength(bs[..|bs| - 1]);
    }
  }

  lemma TrafficOfOne(m: Message)
    ensures Placed(m.role, m.content) ==> Traffic(TellsOne(m)) == MessageTraffic(m)
    ensures |Traffic(TellsOne(m))| <= |MessageTraffic(m)|
    ensures |Traffic(TellsOne(m))| == |MessageTraffic(m)| ==> Placed(m.role, m.content)
  {
    OnlyTraffic(m.content);
    OneKindOfTraffic(m.content);
    TrafficLength(m.content);
    var pieces, text := Spoken(m.role, Pieces(m.content)), Spoken(m.role, FlatMap(TextOf, m.content));
    SpeechIsNotTraffic(m.role, Pieces(m.content));
    SpeechIsNotTraffic(m.role, FlatMap(TextOf, m.content));
    FlatMapConcat(CarriedBy, text, Calls(m.content));
    FlatMapConcat(CarriedBy, Results(m.content), pieces);
  }

  lemma SpeechIsNotTraffic(role: string, pieces: seq<Piece>)
    ensures Traffic(Spoken(role, pieces)) == []
  {
    FlatMapOne(CarriedBy, Said(role, pieces));
  }

  lemma OneMoreMessage(ms: seq<Message>, m: Message)
    ensures Traffic(Tells(ms + [m])) == Traffic(Tells(ms)) + Traffic(TellsOne(m))
    ensures HistoryTraffic(ms + [m]) == HistoryTraffic(ms) + MessageTraffic(m)
    ensures AllPlaced(ms + [m]) <==> AllPlaced(ms) && Placed(m.role, m.content)
  {
    FlatMapAppend(TellsOne, ms, m);
    FlatMapAppend(MessageTraffic, ms, m);
    FlatMapConcat(CarriedBy, Tells(ms), TellsOne(m));
    assert (ms + [m])[|ms|] == m;
  }

  predicate AllPlaced(ms: seq<Message>) { forall i :: 0 <= i < |ms| ==> Placed(ms[i].role, ms[i].content) }

  /**
   Both encoders carry every tool call and every tool result of a history, in order,
   exactly when calls stand in assistant messages only and results in user or tool
   messages only; any other placing loses some.
   */
  lemma {:induction false} EveryCallAndResultIsToldIff(ms: seq<Message>)
    ensures Traffic(Tells(ms)) == HistoryTraffic(ms) <==> AllPlaced(ms)
    ensures |Traffic(Tells(ms))| <= |HistoryTraffic(ms)|
    ensures !AllPlaced(ms) ==> |Traffic(Tells(ms))| < |HistoryTraffic(ms)|
    decreases |ms|
  {
    if ms != [] {
      var n := |ms| - 1;
      EveryCallAndResultIsToldIff(ms[..n]);
      TrafficOfOne(ms[n]);
      OneMoreMessage(ms[..n], ms[n]);
      assert ms == ms[..n] + [ms[n]];
    }
  }

  // ---------- How results are told ----------

  /** What a result block must be told as: its own text, or for a failure an error object that says why. */
  predicate ToldTruly(b: Block, t: Told) {
    && b.ToolResult? && t.Returned? && t.id == b.id
    && (!b.isError ==> t.output == AsIs(b.result))
    && (b.isError && b.result != "" ==> t.output == ErrorObject(b.result))
    && (b.isError && b.result == "" ==>
          t.output == ErrorObject("tool execution failed; no error message was provided"))
  }

  function OnlyResult(b: Block): seq<Block> { if b.ToolResult? then [b] else [] }

  /** The tool results of a message that is sent any, in order. */
  function ResultBlocks(m: Message): seq<Block> {
    if m.role != "user" && m.role != "tool" then [] else FlatMap(OnlyResult, m.content)
  }

  function Returns(told: seq<Told>): seq<Told> { FlatMap(OnlyReturned, told) }

  function OnlyReturned(t: Told): seq<Told> { if t.Returned? then [t] else [] }

  predicate AllToldTruly(bs: seq<Block>, told: seq<Told>) {
    |bs| == |told| && forall i :: 0 <= i < |bs| ==> ToldTruly(bs[i], told[i])
  }

  lemma {:induction false} ResultsToldTruly(bs: seq<Block>)
    ensures AllToldTruly(FlatMap(OnlyResult, bs), Results(bs))
    decreases |bs|
  {
    if bs != [] {
      ResultsToldTruly(bs[..|bs| - 1]);
    }
  }

  lemma {:induction false} CallsReturnNothing(bs: seq<Block>)
    ensures Returns(Calls(bs)) == [] && Returns(Results(bs)) == Results(bs)
    decreases |bs|
  {
    if bs != [] {
      var init, b := bs[..|bs| - 1], bs[|bs| - 1];
      CallsReturnNothing(init);
      FlatMapConcat(OnlyReturned, Calls(init), CallOf(b));
      FlatMapConcat(OnlyReturned, Results(init), ResultOf(b));
      forall t: Told
        ensures Returns([t]) == OnlyReturned(t)
      {
        FlatMapOne(OnlyReturned, t);
      }
    }
  }

  lemma SpeechReturnsNothing(role: string, pieces: seq<Piece>)
    ensures Returns(Spoken(role, pieces)) == []
  {
    FlatMapOne(OnlyReturned, Said(role, pieces));
  }

  lemma MessageResultsToldTruly(m: Message)
    ensures AllToldTruly(ResultBlocks(m), Returns(TellsOne(m)))
  {
    var text, pieces := Spoken(m.role, FlatMap(TextOf, m.content)), Spoken(m.role, Pieces(m.content));
    ResultsToldTruly(m.content);
    CallsReturnNothing(m.content);
    SpeechReturnsNothing(m.role, FlatMap(TextOf, m.content));
    SpeechReturnsNothing(m.role, Pieces(m.content));
    FlatMapConcat(OnlyReturned, text, Calls(m.content));
    FlatMapConcat(OnlyReturned, Results(m.content), pieces);
  }

  lemma TrulyConcat(bs: seq<Block>, told: seq<Told>, cs: seq<Block>, more: seq<Told>)
    requires AllToldTruly(bs, told) && AllToldTruly(cs, more)
    ensures AllToldTruly(bs + cs, told + more)
  {
  }

  /**
   Both encoders tell the results of every history one by one: a success by its own
   text, unchanged, and a failure by an error object holding its text, or the fixed
   message when it has none. So none is told as the other.
   */
  lemma {:induction false} EveryResultIsToldTruly(ms: seq<Message>)
    ensures AllToldTruly(FlatMap(ResultBlocks, ms), Returns(Tells(ms)))
    decreases |ms|
  {
    if ms != [] {
      var init, m := ms[..|ms| - 1], ms[|ms| - 1];
      EveryResultIsToldTruly(init);
      MessageResultsToldTruly(m);
      FlatMapConcat(OnlyReturned, Tells(init), TellsOne(m));
      TrulyConcat(FlatMap(ResultBlocks, init), Returns(Tells(init)), ResultBlocks(m), Returns(TellsOne(m)));
    }
  }

  /** The text on the wire; `quote` is JSON string encoding. */
  function WireText(quote: string -> string, o: Output): string {
    match o
    case AsIs(text) => text
    case ErrorObject(text) => "{\"error\":" + quote(text) + "}"
  }

  /**
   On the wire itself a success and a failure look alike exactly when the success's own
   text is that error object: the field says nothing else of which it is.
   */
  lemma SuccessLooksLikeFailureIff(quote: string -> string, success: string, failure: string)
    ensures WireText(quote, Content(success, false)) == WireText(quote, Content(failure, true)) <==>
      success == "{\"error\":" + quote(if failure == "" then UNSPECIFIED else failure) + "}"
  {
  }

  // ---------- How text and pictures are told ----------

  function CharOf(p: Piece): string { if p.Char? then [p.c] else "" }

  function PictureOf(p: Piece): seq<Url> { if p.Picture? then [p.url] else [] }

  lemma {:induction false} CharsAreTheText(s: string)
    ensures FlatMap(CharOf, Chars(s)) == s && FlatMap(PictureOf, Chars(s)) == []
    decreases |s|
  {
    if s != "" {
      var n := |s| - 1;
      CharsAreTheText(s[..n]);
      assert Chars(s)[..n] == Chars(s[..n]) && |Chars(s)| == n + 1;
      assert s == s[..n] + [s[n]];
    }
  }

  function BlockText(b: Block): string { if b.Text? then b.text else "" }

  /** A picture is told by its URL if it has one, else by its data under its type, else not at all. */
  predicate PictureTold(image: Option<Media>, urls: seq<Url>) {
    && (image.Some? && image.value.url != "" ==> urls == [Plain(image.value.url)])
    && (image.Some? && image.value.url == "" && image.value.data != [] ==>
          && |urls| == 1 && urls[0].DataUrl? && urls[0].data == image.value.data
          && urls[0].mediaType == (if image.value.mediaType == "" then "application/octet-stream" else image.value.mediaType))
    && (image.None? || (image.value.url == "" && image.value.data == []) ==> urls == [])
  }

  lemma BlockIsTold(b: Block)
    ensures FlatMap(CharOf, PieceOf(b)) == BlockText(b) && FlatMap(CharOf, TextOf(b)) == BlockText(b)
    ensures FlatMap(PictureOf, TextOf(b)) == []
    ensures if b.Image? then PictureTold(b.image, FlatMap(PictureOf, PieceOf(b))) else FlatMap(PictureOf, PieceOf(b)) == []
  {
    if b.Text? {
      CharsAreTheText(b.text);
    } else if b.Image? && UrlOf(b.image).Some? {
      FlatMapOne(CharOf, Picture(UrlOf(b.image).value));
      FlatMapOne(PictureOf, Picture(UrlOf(b.image).value));
    }
  }

  lemma {:induction false} TextIsKept(bs: seq<Block>)
    ensures FlatMap(CharOf, Pieces(bs)) == FlatMap(BlockText, bs) == FlatMap(CharOf, FlatMap(TextOf, bs))
    decreases |bs|
  {
    if bs != [] {
      var init, b := bs[..|bs| - 1], bs[|bs| - 1];
      TextIsKept(init);
      BlockIsTold(b);
      FlatMapConcat(CharOf, Pieces(init), PieceOf(b));
      FlatMapConcat(CharOf, FlatMap(TextOf, init), TextOf(b));
    }
  }

  /** What a message says, told under its own role: all its text in order, unless it is a tool's. */
  lemma MessageTextIsTold(m: Message)
    ensures forall t :: t in TellsOne(m) && t.Said? ==>
      t.role == m.role && FlatMap(CharOf, t.pieces) == FlatMap(BlockText, m.content)
    ensures m.role != "tool" && FlatMap(BlockText, m.content) != "" ==>
      exists t :: t in TellsOne(m) && t.Said?
  {
    TextIsKept(m.content);
    NoSpeechIn(m.content);
    var pieces := if m.role == "assistant" then FlatMap(TextOf, m.content) else Pieces(m.content);
    if m.role != "tool" && FlatMap(BlockText, m.content) != "" {
      assert pieces != [];
      assert Said(m.role, pieces) in TellsOne(m);
    }
  }

  lemma {:induction false} NoSpeechIn(bs: seq<Block>)
    ensures forall t :: t in Calls(bs) || t in Results(bs) ==> !t.Said?
    decreases |bs|
  {
    if bs != [] {
      NoSpeechIn(bs[..|bs| - 1]);
    }
  }
}
