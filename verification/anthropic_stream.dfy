/**
 The Anthropic stream goroutine (`ChatStream`) and the non-streaming parser
 (`parseChatResponse`), and exactly when collecting the one agrees with the other.

 A stream is a sequence of decoded server events. A response block is delivered
 as a start event followed by any fragmentation of its text, arguments, thinking
 or signature into delta events.
 */
module AnthropicStream {
  import opened Common
  import opened Blocks
  import opened StreamRace

  // ---------- Wire types ----------

  datatype WireUsage = WireUsage(input: int, output: int, cacheCreation: int, cacheRead: int)

  /** A block of a complete response; `WireOther` is a type the client does not know. */
  datatype WireBlock =
    | WireText(text: string)
    | WireToolUse(id: string, name: string, input: string)
    | WireThinking(thinking: Option<string>, signature: string)
    | WireRedacted(data: string)
    | WireOther(partialJson: string)

  datatype BlockStart =
    | StartText
    | StartToolUse(id: string, name: string)
    | StartThinking(thinking: string, signature: string, data: string)
    | StartOther

  datatype Delta =
    | TextDelta(text: string)
    | InputJsonDelta(partialJson: string)
    | ThinkingDelta(thinking: string)
    | SignatureDelta(signature: string)
    | OtherDelta

  datatype Event =
    | MessageStart(usage: Option<WireUsage>)
    | ContentBlockStart(block: Option<BlockStart>)
    | ContentBlockDelta(delta: Option<Delta>)
    | MessageDelta(outputTokens: Option<int>)
    | MessageStop
    | OtherEvent
    | DoneMarker
    | Undecodable

  // ---------- parseChatResponse ----------

  function UsageOf(u: WireUsage): TokenUsage {
    TokenUsage(u.input, u.output, u.input + u.output, u.cacheCreation, u.cacheRead)
  }

  function ParseBlock(b: WireBlock): seq<ContentBlock> {
    match b
    case WireText(t) => [BlockText(t)]
    case WireToolUse(id, name, input) => [BlockToolUse(ToolUse(id, name, input, ""))]
    case WireThinking(t, s) => [BlockThinking(Thinking(if t.Some? then t.value else "", s, ""))]
    case WireRedacted(d) => [BlockRedactedThinking(Thinking("", "", d))]
    case WireOther(_) => []
  }

  function ParseBlocks(bs: seq<WireBlock>): seq<ContentBlock> {
    if bs == [] then [] else ParseBlock(bs[0]) + ParseBlocks(bs[1..])
  }

  lemma {:induction false} ParseBlocksSnoc(bs: seq<WireBlock>, b: WireBlock)
    ensures ParseBlocks(bs + [b]) == ParseBlocks(bs) + ParseBlock(b)
    decreases |bs|
  {
    if bs == [] {
      assert [b][1..] == [];
    } else {
      assert (bs + [b])[1..] == bs[1..] + [b];
      ParseBlocksSnoc(bs[1..], b);
    }
  }

  /** `parseChatResponse`, apart from the stop reason, which a stream does not carry. */
  method ParseChatResponse(bs: seq<WireBlock>, usage: WireUsage) returns (r: ChatResponse)
    ensures r == ChatResponse(ParseBlocks(bs), UsageOf(usage))
    ensures r.usage == TokenUsage(usage.input, usage.output, usage.input + usage.output, usage.cacheCreation, usage.cacheRead)
  {
    var content: seq<ContentBlock> := [];
    for i := 0 to |bs|
      invariant content == ParseBlocks(bs[..i])
    {
      ghost var before := content;
      match bs[i] {
        case WireText(t) =>
          content := content + [BlockText(t)];
        case WireToolUse(id, name, input) =>
          content := content + [BlockToolUse(ToolUse(id, name, input, ""))];
        case WireThinking(thinking, signature) =>
          var text := "";
          if thinking.Some? {
            text := thinking.value;
          }
          content := content + [BlockThinking(Thinking(text, signature, ""))];
        case WireRedacted(data) =>
          content := content + [BlockRedactedThinking(Thinking("", "", data))];
        case WireOther(_) =>
      }
      assert content == before + ParseBlock(bs[i]);
      ParseBlocksSnoc(bs[..i], bs[i]);
      assert bs[..i] + [bs[i]] == bs[..i + 1];
    }
    assert bs[..|bs|] == bs;
    r := ChatResponse(content, TokenUsage(usage.input, usage.output, usage.input + usage.output,
                                          usage.cacheCreation, usage.cacheRead));
  }

  // ---------- The stream goroutine ----------

  const NO_TOKENS := WireUsage(0, 0, 0, 0)

  function TokensAfter(tok: WireUsage, e: Event): WireUsage {
    match e
    case MessageStart(Some(u)) => u.(output := tok.output)
    case MessageDelta(Some(n)) => tok.(output := n)
    case _ => tok
  }

  function Emit(tok: WireUsage, e: Event): seq<StreamChunk> {
    match e
    case ContentBlockStart(Some(StartToolUse(id, name))) => [ChunkToolUseStart(Some(ToolUse(id, name, "", "")))]
    case ContentBlockStart(Some(StartThinking(t, s, d))) => [ChunkThinkingStart(Some(Thinking(t, s, d)))]
    case ContentBlockDelta(Some(TextDelta(t))) => if t == "" then [] else [ChunkText(t)]
    case ContentBlockDelta(Some(InputJsonDelta(p))) => if p == "" then [] else [ChunkToolUseDelta(p)]
    case ContentBlockDelta(Some(ThinkingDelta(t))) =>
      if t == "" then [] else [ChunkThinkingDelta(Some(Thinking(t, "", "")))]
    case ContentBlockDelta(Some(SignatureDelta(s))) =>
      if s == "" then [] else [ChunkThinkingDelta(Some(Thinking("", s, "")))]
    case MessageStop => [ChunkDone(Some(UsageOf(tok)))]
    case _ => []
  }

  /** The chunks sent for a run of events that neither ends nor breaks the stream. */
  function Chunks(tok: WireUsage, es: seq<Event>): seq<StreamChunk>
    decreases |es|
  {
    if es == [] then [] else Emit(tok, es[0]) + Chunks(TokensAfter(tok, es[0]), es[1..])
  }

  predicate Stops(e: Event) { e.DoneMarker? || e.Undecodable? }

  /** Where the loop stops: at a `[DONE]` marker, an event it cannot decode, or the end. */
  function StopAt(es: seq<Event>): (n: nat)
    ensures n <= |es| && (n < |es| ==> Stops(es[n]))
    ensures forall i :: 0 <= i < n ==> !Stops(es[i])
  {
    if es == [] || Stops(es[0]) then 0 else 1 + StopAt(es[1..])
  }

  lemma {:induction false} StopsHere(es: seq<Event>, n: nat)
    requires n <= |es| && (n < |es| ==> Stops(es[n])) && forall i :: 0 <= i < n ==> !Stops(es[i])
    ensures StopAt(es) == n
    decreases |es|
  {
    if n > 0 {
      StopsHere(es[1..], n - 1);
    }
  }

  datatype ProducerError = DecodeError | ReadError

  /**
   The goroutine: the chunks of the events up to where it stops, whatever the events,
   then one error if an event could not be decoded or the scanner failed.
   */
  method Produce(es: seq<Event>, readFails: bool) returns (chunks: seq<StreamChunk>, err: Option<ProducerError>)
    ensures chunks == Chunks(NO_TOKENS, es[..StopAt(es)])
    ensures err == if StopAt(es) < |es| && es[StopAt(es)].Undecodable? then Some(DecodeError)
                   else if readFails then Some(ReadError) else None
  {
    var inputTokens, outputTokens, cacheCreation, cacheRead := 0, 0, 0, 0;
    chunks := [];
    var i := 0;
    while i < |es| && !es[i].DoneMarker?
      invariant 0 <= i <= |es| && (forall j :: 0 <= j < i ==> !Stops(es[j]))
      invariant chunks == Chunks(NO_TOKENS, es[..i])
      invariant WireUsage(inputTokens, outputTokens, cacheCreation, cacheRead) == TokensRun(NO_TOKENS, es[..i])
    {
      if es[i].Undecodable? {
        StopsHere(es, i);
        return chunks, Some(DecodeError);
      }
      ghost var before := WireUsage(inputTokens, outputTokens, cacheCreation, cacheRead);
      ghost var sent := chunks;
      match es[i] {
        case MessageStart(usage) =>
          if usage.Some? {
            inputTokens := usage.value.input;
            cacheCreation := usage.value.cacheCreation;
            cacheRead := usage.value.cacheRead;
          }
        case ContentBlockStart(block) =>
          if block.Some? {
            match block.value {
              case StartToolUse(id, name) =>
                chunks := chunks + [ChunkToolUseStart(Some(ToolUse(id, name, "", "")))];
              case StartThinking(t, s, d) =>
                chunks := chunks + [ChunkThinkingStart(Some(Thinking(t, s, d)))];
              case _ =>
            }
          }
        case ContentBlockDelta(delta) =>
          if delta.Some? {
            match delta.value {
              case TextDelta(t) =>
                if t != "" {
                  chunks := chunks + [ChunkText(t)];
                }
              case InputJsonDelta(p) =>
                if p != "" {
                  chunks := chunks + [ChunkToolUseDelta(p)];
                }
              case ThinkingDelta(t) =>
                if t != "" {
                  chunks := chunks + [ChunkThinkingDelta(Some(Thinking(t, "", "")))];
                }
              case SignatureDelta(s) =>
                if s != "" {
                  chunks := chunks + [ChunkThinkingDelta(Some(Thinking("", s, "")))];
                }
              case OtherDelta =>
            }
          }
        case MessageDelta(n) =>
          if n.Some? {
            outputTokens := n.value;
          }
        case MessageStop =>
          var usage := TokenUsage(inputTokens, outputTokens, inputTokens + outputTokens, cacheCreation, cacheRead);
          chunks := chunks + [ChunkDone(Some(usage))];
        case OtherEvent =>
      }
      ChunksSnoc(NO_TOKENS, es[..i], es[i]);
      assert es[..i] + [es[i]] == es[..i + 1];
      assert chunks == sent + Emit(before, es[i]);
      i := i + 1;
    }
    StopsHere(es, i);
    err := if readFails then Some(ReadError) else None;
  }

  function TokensRun(tok: WireUsage, es: seq<Event>): WireUsage
    decreases |es|
  {
    if es == [] then tok else TokensRun(TokensAfter(tok, es[0]), es[1..])
  }

  lemma {:induction false} ChunksConcat(tok: WireUsage, xs: seq<Event>, ys: seq<Event>)
    ensures TokensRun(tok, xs + ys) == TokensRun(TokensRun(tok, xs), ys)
    ensures Chunks(tok, xs + ys) == Chunks(tok, xs) + Chunks(TokensRun(tok, xs), ys)
    decreases |xs|
  {
    if xs == [] {
      assert xs + ys == ys;
    } else {
      assert (xs + ys)[1..] == xs[1..] + ys;
      ChunksConcat(TokensAfter(tok, xs[0]), xs[1..], ys);
    }
  }

  lemma ChunksSnoc(tok: WireUsage, xs: seq<Event>, e: Event)
    ensures Chunks(tok, xs + [e]) == Chunks(tok, xs) + Emit(TokensRun(tok, xs), e)
    ensures TokensRun(tok, xs + [e]) == TokensAfter(TokensRun(tok, xs), e)
  {
    ChunksConcat(tok, xs, [e]);
    assert [e][1..] == [];
    assert Emit(TokensRun(tok, xs), e) + [] == Emit(TokensRun(tok, xs), e);
  }

  // ---------- Fragmentations ----------

  /** Delta events of the block `b`, and events that carry nothing, in any number and order. */
  predicate DeltasOf(b: WireBlock, es: seq<Event>) {
    forall i :: 0 <= i < |es| ==>
      || es[i].OtherEvent?
      || (es[i].ContentBlockDelta? && es[i].delta.Some? &&
          match es[i].delta.value
          case TextDelta(_) => b.WireText?
          case InputJsonDelta(_) => b.WireToolUse? || b.WireOther?
          case ThinkingDelta(_) => b.WireThinking?
          case SignatureDelta(_) => b.WireThinking?
          case OtherDelta => true)
  }

  function DeltaBytes(e: Event): Bytes {
    match e
    case ContentBlockDelta(Some(TextDelta(t))) => NO_BYTES.(text := t)
    case ContentBlockDelta(Some(InputJsonDelta(p))) => NO_BYTES.(tool := p)
    case ContentBlockDelta(Some(ThinkingDelta(t))) => NO_BYTES.(thought := t)
    case ContentBlockDelta(Some(SignatureDelta(s))) => NO_BYTES.(signature := s)
    case _ => NO_BYTES
  }

  /** The text, arguments, thinking text and signature the delta events add up to. */
  function Joined(es: seq<Event>): Bytes
    decreases |es|
  {
    if es == [] then NO_BYTES else DeltaBytes(es[0]).Plus(Joined(es[1..]))
  }

  /** `es` streams the block `b`: its start event, then deltas that add up to its content. */
  predicate Streams(b: WireBlock, es: seq<Event>) {
    && es != [] && es[0].ContentBlockStart? && es[0].block.Some? && DeltasOf(b, es[1..])
    && var start, sum := es[0].block.value, Joined(es[1..]);
       match b
       case WireText(t) => start == StartText && sum.text == t
       case WireToolUse(id, name, input) => start == StartToolUse(id, name) && sum.tool == input
       case WireThinking(t, s) =>
         && start.StartThinking? && start.data == ""
         && start.thinking + sum.thought == (if t.Some? then t.value else "")
         && start.signature + sum.signature == s
       case WireRedacted(d) => start == StartThinking("", "", d)
       case WireOther(p) => start == StartOther && sum.tool == p
  }

  /** What streaming a block does to the fold, however it was fragmented. */
  function BlockEffect(a: Acc, b: WireBlock): Acc {
    match b
    case WireText(t) => if t == "" then a else Accumulate(a, ChunkText(t))
    case WireToolUse(id, name, input) =>
      Accumulate(Accumulate(a, ChunkToolUseStart(Some(ToolUse(id, name, "", "")))), ChunkToolUseDelta(input))
    case WireThinking(t, s) =>
      Accumulate(a, ChunkThinkingStart(Some(Thinking(if t.Some? then t.value else "", s, ""))))
    case WireRedacted(d) => Accumulate(a, ChunkThinkingStart(Some(Thinking("", "", d))))
    case WireOther(p) => Accumulate(a, ChunkToolUseDelta(p))
  }

  /** What the deltas of a block add to an accumulator that is ready for them. */
  function DeltaEffect(a: Acc, sum: Bytes): Acc {
    var b := if sum.text == "" then a else Accumulate(a, ChunkText(sum.text));
    var c := b.(toolBuf := b.toolBuf + sum.tool);
    c.(think := c.think.(text := c.think.text + sum.thought, signature := c.think.signature + sum.signature))
  }

  predicate Ready(a: Acc, b: WireBlock) {
    && (b.WireThinking? ==> a.think.current.Some?)
  }

  lemma EmptyBytesAddNothing(s: string)
    ensures s + "" == s == "" + s
  {
  }

  lemma OneDelta(tok: WireUsage, a: Acc, b: WireBlock, e: Event)
    requires DeltasOf(b, [e]) && Ready(a, b)
    ensures TokensAfter(tok, e) == tok
    ensures Ready(Fold(a, Emit(tok, e)), b)
    ensures Fold(a, Emit(tok, e)) == DeltaEffect(a, DeltaBytes(e))
  {
    assert [e][0] == e;
    EmptyBytesAddNothing(a.toolBuf);
    EmptyBytesAddNothing(a.think.text);
    EmptyBytesAddNothing(a.think.signature);
    if e.ContentBlockDelta? {
      if Emit(tok, e) != [] {
        FoldSnoc(a, [], Emit(tok, e)[0]);
        assert [] + [Emit(tok, e)[0]] == Emit(tok, e);
      }
    }
  }

  lemma DeltaEffectComposes(a: Acc, x: Bytes, y: Bytes)
    requires x.text != "" || y.text != "" ==> x.tool == y.tool == ""
    requires x.text != "" || y.text != "" ==> x.thought == y.thought == x.signature == y.signature == ""
    ensures DeltaEffect(DeltaEffect(a, x), y) == DeltaEffect(a, x.Plus(y))
  {
    if x.text == "" && y.text == "" {
      assert (a.toolBuf + x.tool) + y.tool == a.toolBuf + (x.tool + y.tool);
      assert (a.think.text + x.thought) + y.thought == a.think.text + (x.thought + y.thought);
      assert (a.think.signature + x.signature) + y.signature == a.think.signature + (x.signature + y.signature);
    } else {
      TextEffect(a, x);
      TextEffect(DeltaEffect(a, x), y);
      TextEffect(a, x.Plus(y));
      EmptyBytesAddNothing(x.text);
      EmptyBytesAddNothing(y.text);
      if x.text != "" && y.text != "" {
        MergeKeepsAccumulate(a, ChunkText(x.text), ChunkText(y.text));
      }
    }
  }

  lemma TextEffect(a: Acc, x: Bytes)
    requires x.tool == x.thought == x.signature == ""
    ensures DeltaEffect(a, x) == if x.text == "" then a else Accumulate(a, ChunkText(x.text))
  {
    var b := DeltaEffect(a, x);
    var c := if x.text == "" then a else Accumulate(a, ChunkText(x.text));
    EmptyBytesAddNothing(c.toolBuf);
    EmptyBytesAddNothing(c.think.text);
    EmptyBytesAddNothing(c.think.signature);
  }

  /** Only a text block's deltas carry text, and they carry nothing else; and so on. */
  predicate Kinds(b: WireBlock, s: Bytes) {
    && (b.WireText? ==> s.tool == s.thought == s.signature == "")
    && (!b.WireText? ==> s.text == "")
    && (!b.WireThinking? ==> s.thought == s.signature == "")
    && (!b.WireToolUse? && !b.WireOther? ==> s.tool == "")
  }

  lemma DeltaKinds(b: WireBlock, e: Event)
    requires DeltasOf(b, [e])
    ensures Kinds(b, DeltaBytes(e))
  {
    assert [e][0] == e;
  }

  lemma {:induction false} JoinedKinds(b: WireBlock, es: seq<Event>)
    requires DeltasOf(b, es)
    ensures Kinds(b, Joined(es))
    decreases |es|
  {
    if es != [] {
      DeltaKinds(b, es[0]);
      JoinedKinds(b, es[1..]);
    }
  }

  lemma {:induction false} DeltasFold(tok: WireUsage, a: Acc, b: WireBlock, es: seq<Event>)
    requires DeltasOf(b, es) && Ready(a, b)
    ensures TokensRun(tok, es) == tok
    ensures Fold(a, Chunks(tok, es)) == DeltaEffect(a, Joined(es))
    decreases |es|
  {
    if es == [] {
      TextEffect(a, NO_BYTES);
    } else {
      var e, rest := es[0], es[1..];
      OneDelta(tok, a, b, e);
      var m := Fold(a, Emit(tok, e));
      DeltasFold(tok, m, b, rest);
      FoldConcat(a, Emit(tok, e), Chunks(tok, rest));
      DeltaKinds(b, e);
      JoinedKinds(b, rest);
      DeltaEffectComposes(a, DeltaBytes(e), Joined(rest));
    }
  }

  /** A start event's chunk, if it has one, folded in. */
  function Started(tok: WireUsage, a: Acc, e: Event): Acc {
    if Emit(tok, e) == [] then a else Accumulate(a, Emit(tok, e)[0])
  }

  lemma StartedThenDeltas(tok: WireUsage, a: Acc, b: WireBlock, es: seq<Event>)
    requires Streams(b, es)
    ensures var m := Started(tok, a, es[0]);
      Ready(m, b) && DeltaEffect(m, Joined(es[1..])) == BlockEffect(a, b)
  {
    var m := Started(tok, a, es[0]);
    JoinedKinds(b, es[1..]);
    EmptyBytesAddNothing(m.toolBuf);
    EmptyBytesAddNothing(m.think.text);
    EmptyBytesAddNothing(m.think.signature);
  }

  /** Every fragmentation of a block has the same effect. */
  lemma FragmentEffect(tok: WireUsage, a: Acc, b: WireBlock, es: seq<Event>)
    requires Streams(b, es)
    ensures TokensRun(tok, es) == tok
    ensures Fold(a, Chunks(tok, es)) == BlockEffect(a, b)
  {
    var m := Started(tok, a, es[0]);
    FoldConcat(a, Emit(tok, es[0]), Chunks(tok, es[1..]));
    StartedThenDeltas(tok, a, b, es);
    DeltasFold(tok, m, b, es[1..]);
  }
}
