/**
 The Gemini request encoder and reply parser (`llm/provider/gemini/gemini.go`): which
 parts reach the wire, and which function each tool result is named after.

 JSON enters only as an encoder and a decoder of argument objects.
 */
module Gemini {
  import opened Common
  import opened Messages

  // ---------- The wire ----------

  /** A decoded JSON object, or Go's nil map. */
  datatype Args = NilMap | Object(repr: string)

  /** `encoding/json`, as far as argument objects go. */
  datatype Json = Json(marshal: Args -> string, unmarshal: string -> Option<Args>)

  /** A payload and the key it is wrapped under. */
  datatype Response = Parsed(args: Args) | WrappedText(key: string, text: string) | WrappedArgs(key: string, args: Args)

  datatype Part =
    | TextPart(text: string)
    | FileData(mimeType: string, uri: string)
    | InlineData(mimeType: string, data: Bytes)
    | FunctionCall(name: string, args: Args, signature: string)
    | FunctionResponse(name: string, response: Response)

  datatype Content = Content(role: string, parts: seq<Part>)

  /** Gemini rejects a part none of whose fields is set. */
  predicate Sendable(p: Part) {
    match p
    case TextPart(text) => text != ""
    case FileData(_, uri) => uri != ""
    case InlineData(_, data) => data != []
    case _ => true
  }

  function MapRole(role: string): string {
    if role == "assistant" then "model" else if role == "tool" || role == "system" then "user" else role
  }

  // ---------- What each block becomes ----------

  const PREFIX := "gemini-tool-"

  function GeneratedID(name: string): string { PREFIX + name }

  /** `strings.TrimPrefix` of the generated-ID prefix. */
  function TrimPrefix(id: string): string { if PREFIX <= id then id[|PREFIX|..] else id }

  /** The name of the latest tool use with a given ID among some blocks. */
  function LatestName(bs: seq<Block>, id: string): Option<string> {
    if bs == [] then None
    else
      var b := bs[|bs| - 1];
      if b.ToolUse? && b.use.Some? && b.use.value.id == id && id != "" then Some(b.use.value.name)
      else LatestName(bs[..|bs| - 1], id)
  }

  function NameFor(before: seq<Block>, id: string): string {
    var latest := LatestName(before, id);
    if latest.Some? then latest.value else TrimPrefix(id)
  }

  function ResponseOf(json: Json, text: string, isError: bool): Response {
    if isError && text == "" then WrappedText("error", UNSPECIFIED)
    else
      var parsed := json.unmarshal(text);
      if parsed.None? then WrappedText(if isError then "error" else "result", text)
      else if isError then WrappedArgs("error", parsed.value)
      else Parsed(parsed.value)
  }

  function MediaPart(m: Option<Media>): seq<Part> {
    if m.None? then []
    else if m.value.url != "" then [FileData(m.value.mediaType, m.value.url)]
    else if m.value.data != [] then [InlineData(m.value.mediaType, m.value.data)]
    else []
  }

  function ArgsOf(json: Json, input: string): Args {
    if input == "" then NilMap
    else
      var parsed := json.unmarshal(input);
      if parsed.Some? then parsed.value else NilMap
  }

  /** The part a block becomes, if any, given all the blocks before it in the conversation. */
  function PartOf(json: Json, before: seq<Block>, b: Block): (ps: seq<Part>)
    ensures |ps| <= 1 && forall p :: p in ps ==> Sendable(p)
  {
    match b
    case Text(text) => if text == "" then [] else [TextPart(text)]
    case Image(image) => MediaPart(image)
    case Document(document) => MediaPart(document)
    case ToolUse(use) =>
      if use.None? then [] else [FunctionCall(use.value.name, ArgsOf(json, use.value.input), use.value.signature)]
    case ToolResult(id, text, isError) => [FunctionResponse(NameFor(before, id), ResponseOf(json, text, isError))]
    case OtherBlock => []
  }

  /** The parts of some blocks following others. */
  function PartsAfter(json: Json, before: seq<Block>, bs: seq<Block>): seq<Part> {
    if bs == [] then []
    else
      PartsAfter(json, before, bs[..|bs| - 1]) + PartOf(json, before + bs[..|bs| - 1], bs[|bs| - 1])
  }

  function BlocksOf(m: Message): seq<Block> { m.content }

  /** All the blocks of a conversation, in order. */
  function AllBlocks(ms: seq<Message>): seq<Block> { FlatMap(BlocksOf, ms) }

  /** The contents of a conversation: messages in order, those without a part left out. */
  function ContentsOf(json: Json, ms: seq<Message>): seq<Content> {
    if ms == [] then []
    else
      var m, init := ms[|ms| - 1], ms[..|ms| - 1];
      ContentsOf(json, init) + ContentOf(m.role, PartsAfter(json, AllBlocks(init), m.content))
  }

  function ContentOf(role: string, parts: seq<Part>): seq<Content> {
    if parts == [] then [] else [Content(MapRole(role), parts)]
  }

  lemma {:induction false} EveryPartIsSendable(json: Json, before: seq<Block>, bs: seq<Block>)
    ensures forall p :: p in PartsAfter(json, before, bs) ==> Sendable(p)
    decreases |bs|
  {
    if bs != [] {
      EveryPartIsSendable(json, before, bs[..|bs| - 1]);
    }
  }

  /** No empty content, and no part Gemini would find empty, ever reaches the wire. */
  lemma {:induction false} NothingEmptyIsSent(json: Json, ms: seq<Message>)
    ensures forall c :: c in ContentsOf(json, ms) ==> c.parts != [] && forall p :: p in c.parts ==> Sendable(p)
    ensures (forall m :: m in ms ==> m.role in {"user", "assistant", "system", "tool"}) ==>
      forall c :: c in ContentsOf(json, ms) ==> c.role in {"user", "model"}
    decreases |ms|
  {
    if ms != [] {
      var m, init := ms[|ms| - 1], ms[..|ms| - 1];
      NothingEmptyIsSent(json, init);
      EveryPartIsSendable(json, AllBlocks(init), m.content);
    }
  }

  /** Who speaks: the model's side is the assistant's, every other role of the library the user's. */
  predicate SpeaksFor(role: string, wire: string) {
    && (role == "assistant" ==> wire == "model")
    && (role == "user" || role == "tool" || role == "system" ==> wire == "user")
    && (role !in {"assistant", "user", "tool", "system"} ==> wire == role)
  }

  /** The message at index `i` as it is sent: its own parts, given all blocks before it, in its speaker's role. */
  predicate SentAs(json: Json, ms: seq<Message>, i: nat, c: Content) {
    && i < |ms| && SpeaksFor(ms[i].role, c.role)
    && c.parts == PartsAfter(json, AllBlocks(ms[..i]), ms[i].content) && c.parts != []
  }

  /** Which message each content comes from: strictly later ones, none that has a part passed over. */
  predicate Origins(json: Json, ms: seq<Message>, contents: seq<Content>, origin: seq<nat>) {
    && |origin| == |contents|
    && (forall k :: 0 <= k < |origin| ==> SentAs(json, ms, origin[k], contents[k]))
    && (forall j, k :: 0 <= j < k < |origin| ==> origin[j] < origin[k])
    && forall i :: 0 <= i < |ms| && HasPart(json, ms, i) ==> i in origin
  }

  predicate HasPart(json: Json, ms: seq<Message>, i: nat)
    requires i < |ms|
  {
    PartsAfter(json, AllBlocks(ms[..i]), ms[i].content) != []
  }

  lemma SameInPrefix(json: Json, ms: seq<Message>, n: nat, i: nat)
    requires i < n <= |ms|
    ensures HasPart(json, ms, i) <==> HasPart(json, ms[..n], i)
    ensures forall c :: SentAs(json, ms, i, c) <==> SentAs(json, ms[..n], i, c)
  {
    assert ms[..n][..i] == ms[..i];
  }

  lemma OriginsInPrefix(json: Json, ms: seq<Message>, n: nat, contents: seq<Content>, origin: seq<nat>)
    requires n < |ms| && Origins(json, ms[..n], contents, origin)
    ensures forall k :: 0 <= k < |origin| ==> origin[k] < n && SentAs(json, ms, origin[k], contents[k])
    ensures forall i :: 0 <= i < n && HasPart(json, ms, i) ==> i in origin
  {
    forall i | 0 <= i < n
      ensures HasPart(json, ms, i) <==> HasPart(json, ms[..n], i)
    {
      SameInPrefix(json, ms, n, i);
    }
    forall k | 0 <= k < |origin|
      ensures origin[k] < n && SentAs(json, ms, origin[k], contents[k])
    {
      assert SentAs(json, ms[..n], origin[k], contents[k]);
      SameInPrefix(json, ms, n, origin[k]);
    }
  }

  /**
   The contents are the messages that have a part, one each and in order: `origin` says
   which. So everything the assistant said, and nothing else, is sent as the model's.
   */
  lemma {:induction false} ContentsAreTheMessages(json: Json, ms: seq<Message>) returns (origin: seq<nat>)
    ensures Origins(json, ms, ContentsOf(json, ms), origin)
    decreases |ms|
  {
    origin := [];
    if ms != [] {
      var n := |ms| - 1;
      var before := ContentsAreTheMessages(json, ms[..n]);
      OriginsInPrefix(json, ms, n, ContentsOf(json, ms[..n]), before);
      origin := if HasPart(json, ms, n) then before + [n] else before;
      LastOrigin(json, ms, ContentsOf(json, ms[..n]), before);
    }
  }

  lemma LastOrigin(json: Json, ms: seq<Message>, contents: seq<Content>, before: seq<nat>)
    requires ms != [] && |before| == |contents|
    requires forall k :: 0 <= k < |before| ==> before[k] < |ms| - 1 && SentAs(json, ms, before[k], contents[k])
    requires forall j, k :: 0 <= j < k < |before| ==> before[j] < before[k]
    requires forall i :: 0 <= i < |ms| - 1 && HasPart(json, ms, i) ==> i in before
    ensures var n := |ms| - 1;
      var parts := PartsAfter(json, AllBlocks(ms[..n]), ms[n].content);
      Origins(json, ms, contents + ContentOf(ms[n].role, parts), if HasPart(json, ms, n) then before + [n] else before)
  {
  }

  /** With the library's own roles, a content is the model's exactly when its message is the assistant's. */
  lemma ModelIsTheAssistant(json: Json, ms: seq<Message>, i: nat, c: Content)
    requires SentAs(json, ms, i, c) && ms[i].role in {"user", "assistant", "system", "tool"}
    ensures c.role == "model" <==> ms[i].role == "assistant"
    ensures c.role == "model" || c.role == "user"
  {
  }

  /** A picture or document is sent by its URL if it has one, else by its data, in its own type, else not at all. */
  lemma MediaIsSent(m: Option<Media>)
    ensures m.Some? && m.value.url != "" ==> MediaPart(m) == [FileData(m.value.mediaType, m.value.url)]
    ensures m.Some? && m.value.url == "" && m.value.data != [] ==> MediaPart(m) == [InlineData(m.value.mediaType, m.value.data)]
    ensures m.None? || (m.value.url == "" && m.value.data == []) ==> MediaPart(m) == []
  {
  }

  // ---------- The encoder ----------

  /** The tool names seen so far, shared by all the messages of one request. */
  class ToolNames {
    var byID: map<string, string>

    constructor ()
      ensures byID == map[]
    {
      byID := map[];
    }

    /** It knows, for every ID, the latest tool use among the blocks gone by. */
    ghost predicate Knows(bs: seq<Block>)
      reads this
    {
      forall id :: LatestName(bs, id) == if id in byID then Some(byID[id]) else None
    }
  }

  /** `buildFunctionResponse`. */
  method BuildFunctionResponse(json: Json, id: string, text: string, isError: bool, toolNames: ToolNames, ghost before: seq<Block>)
    returns (p: Part)
    requires toolNames.Knows(before)
    ensures p == FunctionResponse(NameFor(before, id), ResponseOf(json, text, isError))
  {
    var name;
    if id in toolNames.byID {
      name := toolNames.byID[id];
    } else {
      name := TrimPrefix(id);
    }
    var key := "result";
    if isError {
      key := "error";
    }
    if isError && text == "" {
      return FunctionResponse(name, WrappedText(key, UNSPECIFIED));
    }
    var parsed := json.unmarshal(text);
    if parsed.None? {
      return FunctionResponse(name, WrappedText(key, text));
    }
    return FunctionResponse(name, if isError then WrappedArgs(key, parsed.value) else Parsed(parsed.value));
  }

  /** One block of a message: its part appended, a tool use remembered. */
  method ConvertBlock(json: Json, b: Block, toolNames: ToolNames, ghost before: seq<Block>) returns (parts: seq<Part>)
    requires toolNames.Knows(before)
    modifies toolNames
    ensures parts == PartOf(json, before, b) && toolNames.Knows(before + [b])
  {
    assert (before + [b])[..|before|] == before;
    match b
    case Text(text) => return if text == "" then [] else [TextPart(text)];
    case Image(image) => return MediaPart(image);
    case Document(document) => return MediaPart(document);
    case ToolUse(use) =>
      if use.None? {
        return [];
      }
      var args := NilMap;
      if |use.value.input| > 0 {
        var parsed := json.unmarshal(use.value.input);
        if parsed.Some? {
          args := parsed.value;
        }
      }
      if use.value.id != "" {
        toolNames.byID := toolNames.byID[use.value.id := use.value.name];
      }
      return [FunctionCall(use.value.name, args, use.value.signature)];
    case ToolResult(id, text, isError) =>
      var p := BuildFunctionResponse(json, id, text, isError, toolNames, before);
      return [p];
    case OtherBlock => return [];
  }

  method ConvertMessage(json: Json, m: Message, toolNames: ToolNames, ghost before: seq<Block>)
    returns (contents: seq<Content>)
    requires toolNames.Knows(before)
    modifies toolNames
    ensures contents == ContentOf(m.role, PartsAfter(json, before, m.content))
    ensures toolNames.Knows(before + m.content)
  {
    var role := MapRole(m.role);
    var bs := m.content;
    var parts: seq<Part> := [];
    assert before + bs[..0] == before;
    for i := 0 to |bs|
      invariant parts == PartsAfter(json, before, bs[..i]) && toolNames.Knows(before + bs[..i])
    {
      assert bs[..i + 1][..i] == bs[..i];
      assert before + bs[..i] + [bs[i]] == before + bs[..i + 1];
      var ps := ConvertBlock(json, bs[i], toolNames, before + bs[..i]);
      parts := parts + ps;
    }
    assert bs[..|bs|] == bs;
    if |parts| == 0 {
      return [];
    }
    return [Content(role, parts)];
  }

  datatype Encoded = Contents(contents: seq<Content>) | NoMessages | NothingToSend

  /**
   The contents sent are those of the conversation, each tool result named after the
   latest earlier tool use with its ID; a conversation without any is an error instead.
   */
  method ConvertMessages(json: Json, ms: seq<Message>) returns (r: Encoded)
    ensures r == if ContentsOf(json, ms) != [] then Contents(ContentsOf(json, ms))
                 else if ms == [] then NoMessages else NothingToSend
  {
    var contents: seq<Content> := [];
    var toolNames := new ToolNames();
    for i := 0 to |ms|
      invariant fresh(toolNames)
      invariant contents == ContentsOf(json, ms[..i]) && toolNames.Knows(AllBlocks(ms[..i]))
    {
      assert ms[..i + 1][..i] == ms[..i];
      FlatMapNext(BlocksOf, ms, i);
      var cs := ConvertMessage(json, ms[i], toolNames, AllBlocks(ms[..i]));
      contents := contents + cs;
    }
    assert ms[..|ms|] == ms;
    if |contents| == 0 {
      return if |ms| > 0 then NothingToSend else NoMessages;
    }
    return Contents(contents);
  }

  // ---------- Which name a result gets ----------

  predicate UseAt(bs: seq<Block>, k: int, id: string) {
    0 <= k < |bs| && bs[k].ToolUse? && bs[k].use.Some? && bs[k].use.value.id == id
  }

  predicate LastUse(bs: seq<Block>, k: int, id: string) {
    UseAt(bs, k, id) && forall j :: k < j < |bs| ==> !UseAt(bs, j, id)
  }

  /** The name found is that of a use with the ID after which there is no other; without a use there is none. */
  lemma {:induction false} LatestNameIsTheLatest(bs: seq<Block>, id: string)
    requires id != ""
    ensures LatestName(bs, id).None? <==> forall k :: 0 <= k < |bs| ==> !UseAt(bs, k, id)
    ensures LatestName(bs, id).Some? ==> exists k :: LastUse(bs, k, id) && LatestName(bs, id).value == bs[k].use.value.name
    decreases |bs|
  {
    if bs != [] {
      var n := |bs| - 1;
      LatestNameIsTheLatest(bs[..n], id);
      assert forall k :: 0 <= k < n ==> (UseAt(bs, k, id) <==> UseAt(bs[..n], k, id));
      if UseAt(bs, n, id) {
        assert LastUse(bs, n, id);
      } else if LatestName(bs, id).Some? {
        var k :| LastUse(bs[..n], k, id) && LatestName(bs[..n], id).value == bs[k].use.value.name;
        assert LastUse(bs, k, id);
      }
    }
  }

  /** There is at most one last use, so its name is the one found. */
  lemma LastUseNames(bs: seq<Block>, k: int, id: string)
    requires id != "" && LastUse(bs, k, id)
    ensures LatestName(bs, id) == Some(bs[k].use.value.name)
  {
    LatestNameIsTheLatest(bs, id);
    var j :| LastUse(bs, j, id) && LatestName(bs, id).value == bs[j].use.value.name;
    assert j == k;
  }

  /**
   A result for a Gemini-generated ID carries the function's own name, with or without
   the call in the conversation, exactly when the last block that uses that ID, if any,
   calls that function; so always, when all the IDs in it are Gemini's.
   */
  lemma GeneratedNamesAreRecoveredIff(before: seq<Block>, name: string)
    ensures GeneratedID(name) == "gemini-tool-" + name
    ensures NameFor(before, GeneratedID(name)) == name
       <==> forall k :: LastUse(before, k, GeneratedID(name)) ==> before[k].use.value.name == name
    ensures (forall k, id :: UseAt(before, k, id) ==> id == GeneratedID(before[k].use.value.name)) ==>
      NameFor(before, GeneratedID(name)) == name
  {
    var id := GeneratedID(name);
    assert id[|PREFIX|..] == name;
    LatestNameIsTheLatest(before, id);
    forall k | LastUse(before, k, id)
      ensures LatestName(before, id) == Some(before[k].use.value.name)
    {
      LastUseNames(before, k, id);
    }
    if forall k, id :: UseAt(before, k, id) ==> id == GeneratedID(before[k].use.value.name) {
      forall k | LastUse(before, k, id)
        ensures before[k].use.value.name == name
      {
        assert GeneratedID(before[k].use.value.name)[|PREFIX|..] == before[k].use.value.name;
      }
    }
  }

  // ---------- Replies, and sending them back ----------

  datatype Call = Call(name: string, args: Args)

  /** One part of a reply; it may carry both text and a call. */
  datatype ReplyPart = ReplyPart(text: string, call: Option<Call>, signature: string)

  function ReplyBlocks(json: Json, p: ReplyPart): seq<Block> {
    (if p.text == "" then [] else [Text(p.text)]) +
    if p.call.None? then []
    else [ToolUse(Some(Use(GeneratedID(p.call.value.name), p.call.value.name, json.marshal(p.call.value.args), p.signature)))]
  }

  /** What a reply part says, one thing at a time. */
  function ReplyParts(p: ReplyPart): seq<Part> {
    (if p.text == "" then [] else [TextPart(p.text)]) +
    if p.call.None? then [] else [FunctionCall(p.call.value.name, p.call.value.args, p.signature)]
  }

  /** The content `parseChatResponse` builds. */
  method ParseReply(json: Json, reply: seq<ReplyPart>) returns (content: seq<Block>)
    ensures content == FlatMap((p: ReplyPart) => ReplyBlocks(json, p), reply)
  {
    ghost var blocks := (p: ReplyPart) => ReplyBlocks(json, p);
    content := [];
    for i := 0 to |reply|
      invariant content == FlatMap(blocks, reply[..i])
    {
      FlatMapNext(blocks, reply, i);
      var p := reply[i];
      ghost var was := content;
      if p.text != "" {
        content := content + [Text(p.text)];
      }
      if p.call.Some? {
        var call := p.call.value;
        content := content + [ToolUse(Some(Use(GeneratedID(call.name), call.name, json.marshal(call.args), p.signature)))];
      }
      assert content == was + ReplyBlocks(json, p);
    }
    assert reply[..|reply|] == reply;
  }

  /** What `encoding/json` guarantees: an encoded object decodes to itself. */
  ghost predicate Lawful(json: Json) {
    forall a :: json.marshal(a) != "" && json.unmarshal(json.marshal(a)) == Some(a)
  }

  lemma ReplyPartComesBack(json: Json, before: seq<Block>, bs: seq<Block>, p: ReplyPart)
    requires Lawful(json)
    ensures PartsAfter(json, before, bs + ReplyBlocks(json, p)) == PartsAfter(json, before, bs) + ReplyParts(p)
  {
    var parts := PartsAfter(json, before, bs);
    var text := if p.text == "" then [] else [Text(p.text)];
    if p.text != "" {
    } else {
      assert bs + text == bs;
    }
    assert PartsAfter(json, before, bs + text) == parts + if p.text == "" then [] else [TextPart(p.text)];
    if p.call.Some? {
      var use := ReplyBlocks(json, p)[|text|];
      assert bs + text + [use] == bs + ReplyBlocks(json, p);
    } else {
      assert text + [] == text;
      assert ReplyParts(p) == if p.text == "" then [] else [TextPart(p.text)];
    }
  }

  /**
   A reply replayed as history says what it said: wherever in a conversation its parsed
   content stands, encoding it gives back its texts and its calls in order, with their
   names, arguments and thought signatures.
   */
  lemma {:induction false} RepliesComeBack(json: Json, before: seq<Block>, reply: seq<ReplyPart>)
    requires Lawful(json)
    ensures PartsAfter(json, before, FlatMap((p: ReplyPart) => ReplyBlocks(json, p), reply)) == FlatMap(ReplyParts, reply)
    decreases |reply|
  {
    if reply != [] {
      var n := |reply| - 1;
      var blocks := (p: ReplyPart) => ReplyBlocks(json, p);
      RepliesComeBack(json, before, reply[..n]);
      ReplyPartComesBack(json, before, FlatMap(blocks, reply[..n]), reply[n]);
    }
  }
}
