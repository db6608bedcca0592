/**
 The stream vocabulary of `llm/stream.go` and the fold that `Stream.Collect`
 performs over it: text, tool-argument and thinking deltas are buffered and
 flushed into content blocks when a boundary chunk arrives.

 `Accumulate` is the specification of one chunk; the classes
 `ThinkingAccumulator` and `Assembler` hold the builders the way the source
 does and are proved to implement it.
 */
module Blocks {
  import opened Common

  datatype Thinking = Thinking(text: string, signature: string, data: string)

  datatype ToolUse = ToolUse(id: string, name: string, input: string, signature: string)

  datatype TokenUsage =
    TokenUsage(prompt: int, completion: int, total: int, cacheCreation: int, cacheRead: int)

  const NO_USAGE := TokenUsage(0, 0, 0, 0, 0)

  datatype StreamChunk =
    | ChunkText(text: string)
    | ChunkToolUseStart(toolUse: Option<ToolUse>)
    | ChunkToolUseDelta(partial: string)
    | ChunkThinkingStart(thinking: Option<Thinking>)
    | ChunkThinkingDelta(thinking: Option<Thinking>)
    | ChunkDone(usage: Option<TokenUsage>)

  datatype ContentBlock =
    | BlockText(text: string)
    | BlockToolUse(toolUse: ToolUse)
    | BlockThinking(thinking: Thinking)
    | BlockRedactedThinking(thinking: Thinking)

  datatype ChatResponse = ChatResponse(content: seq<ContentBlock>, usage: TokenUsage)

  // ---------- The fold ----------

  /** The thinking block in progress; `current` holds its Data. */
  datatype ThinkState = ThinkState(current: Option<string>, text: string, signature: string)

  datatype Acc = Acc(
    content: seq<ContentBlock>, usage: TokenUsage,
    textBuf: string, toolBuf: string, tool: Option<ToolUse>, think: ThinkState)

  const NO_THINKING := ThinkState(None, "", "")
  const EMPTY := Acc([], NO_USAGE, "", "", None, NO_THINKING)

  /** The block a thinking flush emits: redacted exactly when Data is set. */
  function ThinkingBlockOf(data: string, text: string, signature: string): ContentBlock {
    var t := Thinking(text, signature, data);
    if data != "" then BlockRedactedThinking(t) else BlockThinking(t)
  }

  function FlushText(a: Acc): Acc {
    if a.textBuf == "" then a
    else a.(content := a.content + [BlockText(a.textBuf)], textBuf := "")
  }

  function FlushTool(a: Acc): Acc {
    match a.tool
    case None => a
    case Some(t) =>
      a.(content := a.content + [BlockToolUse(t.(input := a.toolBuf))], tool := None, toolBuf := "")
  }

  function FlushThinking(a: Acc): Acc {
    match a.think.current
    case None => a
    case Some(data) =>
      a.(content := a.content + [ThinkingBlockOf(data, a.think.text, a.think.signature)],
         think := NO_THINKING)
  }

  function FlushAll(a: Acc): Acc { FlushThinking(FlushTool(FlushText(a))) }

  function Accumulate(a: Acc, c: StreamChunk): Acc {
    match c
    case ChunkText(text) =>
      var b := FlushThinking(FlushTool(a));
      b.(textBuf := b.textBuf + text)
    case ChunkToolUseStart(toolUse) =>
      var b := FlushAll(a);
      if toolUse.None? then b
      else b.(tool := toolUse, toolBuf := b.toolBuf + toolUse.value.input)
    case ChunkToolUseDelta(partial) => a.(toolBuf := a.toolBuf + partial)
    case ChunkThinkingStart(thinking) =>
      var b := FlushAll(a);
      b.(think := if thinking.None? then ThinkState(Some(""), "", "")
                  else ThinkState(Some(thinking.value.data), thinking.value.text, thinking.value.signature))
    case ChunkThinkingDelta(thinking) =>
      if a.think.current.None? || thinking.None? then a
      else a.(think := a.think.(text := a.think.text + thinking.value.text,
                                signature := a.think.signature + thinking.value.signature))
    case ChunkDone(usage) =>
      if usage.None? then a else a.(usage := usage.value)
  }

  function Fold(a: Acc, cs: seq<StreamChunk>): Acc
    decreases |cs|
  {
    if cs == [] then a else Fold(Accumulate(a, cs[0]), cs[1..])
  }

  function Assembled(a: Acc): ChatResponse {
    var b := FlushAll(a);
    ChatResponse(b.content, b.usage)
  }

  /** The response `Collect` assembles from the chunks `cs`. */
  function Collected(cs: seq<StreamChunk>): ChatResponse { Assembled(Fold(EMPTY, cs)) }

  lemma {:induction false} FoldConcat(a: Acc, xs: seq<StreamChunk>, ys: seq<StreamChunk>)
    ensures Fold(a, xs + ys) == Fold(Fold(a, xs), ys)
    decreases |xs|
  {
    if xs == [] {
      assert xs + ys == ys;
    } else {
      assert (xs + ys)[1..] == xs[1..] + ys;
      FoldConcat(Accumulate(a, xs[0]), xs[1..], ys);
    }
  }

  lemma FoldSnoc(a: Acc, xs: seq<StreamChunk>, c: StreamChunk)
    ensures Fold(a, xs + [c]) == Accumulate(Fold(a, xs), c)
  {
    FoldConcat(a, xs, [c]);
    assert [c][1..] == [];
  }

  // ---------- At most one block is open ----------

  ghost predicate AtMostOneOpen(a: Acc) {
    && !(a.textBuf != "" && a.tool.Some?)
    && !(a.textBuf != "" && a.think.current.Some?)
    && !(a.tool.Some? && a.think.current.Some?)
    && (a.think.current.None? ==> a.think == NO_THINKING)
  }

  /** Whatever chunks arrive, in whatever order, no two block kinds are ever open at once. */
  lemma {:induction false} FoldKeepsAtMostOneOpen(a: Acc, cs: seq<StreamChunk>)
    requires AtMostOneOpen(a)
    ensures AtMostOneOpen(Fold(a, cs))
    decreases |cs|
  {
    if cs != [] {
      FoldKeepsAtMostOneOpen(Accumulate(a, cs[0]), cs[1..]);
    }
  }

  // ---------- Fragmentation invariance ----------

  /** The single delta two adjacent deltas of the same kind amount to. */
  function Merge(c: StreamChunk, d: StreamChunk): Option<StreamChunk> {
    match (c, d)
    case (ChunkText(x), ChunkText(y)) => Some(ChunkText(x + y))
    case (ChunkToolUseDelta(x), ChunkToolUseDelta(y)) => Some(ChunkToolUseDelta(x + y))
    case (ChunkThinkingDelta(Some(x)), ChunkThinkingDelta(Some(y))) =>
      Some(ChunkThinkingDelta(Some(Thinking(x.text + y.text, x.signature + y.signature, ""))))
    case _ => None
  }

  lemma MergeKeepsAccumulate(a: Acc, c: StreamChunk, d: StreamChunk)
    requires Merge(c, d).Some?
    ensures Accumulate(a, Merge(c, d).value) == Accumulate(Accumulate(a, c), d)
  {
    match (c, d)
    case (ChunkText(x), ChunkText(y)) =>
      var b := FlushThinking(FlushTool(a));
      assert (b.textBuf + x) + y == b.textBuf + (x + y);
    case (ChunkToolUseDelta(x), ChunkToolUseDelta(y)) =>
      assert (a.toolBuf + x) + y == a.toolBuf + (x + y);
    case (ChunkThinkingDelta(Some(x)), ChunkThinkingDelta(Some(y))) =>
      assert (a.think.text + x.text) + y.text == a.think.text + (x.text + y.text);
      assert (a.think.signature + x.signature) + y.signature == a.think.signature + (x.signature + y.signature);
  }

  /** Splitting any delta chunk of any stream in two never changes the response. */
  lemma SplitDeltaKeepsResponse(pre: seq<StreamChunk>, c: StreamChunk, d: StreamChunk, post: seq<StreamChunk>)
    requires Merge(c, d).Some?
    ensures Collected(pre + [Merge(c, d).value] + post) == Collected(pre + [c, d] + post)
  {
    var m := Merge(c, d).value;
    FoldConcat(EMPTY, pre + [m], post);
    FoldSnoc(EMPTY, pre, m);
    FoldConcat(EMPTY, pre + [c, d], post);
    assert pre + [c, d] == (pre + [c]) + [d];
    FoldSnoc(EMPTY, pre + [c], d);
    FoldSnoc(EMPTY, pre, c);
    MergeKeepsAccumulate(Fold(EMPTY, pre), c, d);
  }

  /** The coarsest form of a stream: every run of mergeable deltas joined. */
  function Coalesce(cs: seq<StreamChunk>): (r: seq<StreamChunk>)
    ensures |r| <= |cs|
    decreases |cs|
  {
    if |cs| < 2 then cs
    else if Merge(cs[0], cs[1]).Some? then Coalesce([Merge(cs[0], cs[1]).value] + cs[2..])
    else [cs[0]] + Coalesce(cs[1..])
  }

  lemma {:induction false} CoalesceKeepsFold(a: Acc, cs: seq<StreamChunk>)
    ensures Fold(a, Coalesce(cs)) == Fold(a, cs)
    decreases |cs|
  {
    if |cs| >= 2 {
      if Merge(cs[0], cs[1]).Some? {
        var m := Merge(cs[0], cs[1]).value;
        MergeKeepsAccumulate(a, cs[0], cs[1]);
        CoalesceKeepsFold(a, [m] + cs[2..]);
        assert ([m] + cs[2..])[1..] == cs[2..];
        assert cs[1..][1..] == cs[2..];
      } else {
        CoalesceKeepsFold(Accumulate(a, cs[0]), cs[1..]);
        assert ([cs[0]] + Coalesce(cs[1..]))[1..] == Coalesce(cs[1..]);
      }
    }
  }

  /** Two streams that differ only in how their deltas are cut collect to the same response. */
  lemma FragmentationInvariance(xs: seq<StreamChunk>, ys: seq<StreamChunk>)
    requires Coalesce(xs) == Coalesce(ys)
    ensures Collected(xs) == Collected(ys)
  {
    CoalesceKeepsFold(EMPTY, xs);
    CoalesceKeepsFold(EMPTY, ys);
  }

  // ---------- Conservation ----------

  /** The bytes of each kind a chunk, a block or a buffer carries. */
  datatype Bytes = Bytes(text: string, tool: string, thought: string, signature: string) {
    function Plus(b: Bytes): Bytes {
      Bytes(text + b.text, tool + b.tool, thought + b.thought, signature + b.signature)
    }
  }

  const NO_BYTES := Bytes("", "", "", "")

  function ChunkBytes(c: StreamChunk): Bytes {
    match c
    case ChunkText(t) => NO_BYTES.(text := t)
    case ChunkToolUseStart(Some(t)) => NO_BYTES.(tool := t.input)
    case ChunkToolUseDelta(p) => NO_BYTES.(tool := p)
    case ChunkThinkingStart(Some(x)) => NO_BYTES.(thought := x.text, signature := x.signature)
    case ChunkThinkingDelta(Some(x)) => NO_BYTES.(thought := x.text, signature := x.signature)
    case _ => NO_BYTES
  }

  function BlockBytes(b: ContentBlock): Bytes {
    match b
    case BlockText(t) => NO_BYTES.(text := t)
    case BlockToolUse(t) => NO_BYTES.(tool := t.input)
    case BlockThinking(x) => NO_BYTES.(thought := x.text, signature := x.signature)
    case BlockRedactedThinking(x) => NO_BYTES.(thought := x.text, signature := x.signature)
  }

  /** All bytes of a stream, in order. */
  function BytesIn(cs: seq<StreamChunk>): Bytes {
    if cs == [] then NO_BYTES else BytesIn(cs[..|cs| - 1]).Plus(ChunkBytes(cs[|cs| - 1]))
  }

  /** All bytes of a response, in order. */
  function BytesOut(bs: seq<ContentBlock>): Bytes {
    if bs == [] then NO_BYTES else BytesOut(bs[..|bs| - 1]).Plus(BlockBytes(bs[|bs| - 1]))
  }

  function Held(a: Acc): Bytes { Bytes(a.textBuf, a.toolBuf, a.think.text, a.think.signature) }

  /** Blocks emitted so far plus what is still buffered. */
  function Carried(a: Acc): Bytes { BytesOut(a.content).Plus(Held(a)) }

  lemma PlusLaws(x: Bytes, y: Bytes, z: Bytes)
    ensures x.Plus(y).Plus(z) == x.Plus(y.Plus(z))
    ensures x.Plus(NO_BYTES) == x == NO_BYTES.Plus(x)
  {
    assert (x.text + y.text) + z.text == x.text + (y.text + z.text);
    assert (x.tool + y.tool) + z.tool == x.tool + (y.tool + z.tool);
    assert (x.thought + y.thought) + z.thought == x.thought + (y.thought + z.thought);
    assert (x.signature + y.signature) + z.signature == x.signature + (y.signature + z.signature);
  }

  /** Emitting a block moves its bytes from the buffers to the content. */
  lemma EmitKeepsCarried(content: seq<ContentBlock>, b: ContentBlock, held: Bytes, rest: Bytes)
    requires held == BlockBytes(b).Plus(rest)
    ensures BytesOut(content + [b]).Plus(rest) == BytesOut(content).Plus(held)
  {
    assert (content + [b])[..|content + [b]| - 1] == content;
    PlusLaws(BytesOut(content), BlockBytes(b), rest);
  }

  lemma FlushTextKeepsCarried(a: Acc)
    ensures Carried(FlushText(a)) == Carried(a)
  {
    if a.textBuf != "" {
      EmitKeepsCarried(a.content, BlockText(a.textBuf), Held(a), Held(FlushText(a)));
    }
  }

  lemma FlushToolKeepsCarried(a: Acc)
    ensures Carried(FlushTool(a)) == Carried(a)
  {
    if a.tool.Some? {
      EmitKeepsCarried(a.content, BlockToolUse(a.tool.value.(input := a.toolBuf)), Held(a), Held(FlushTool(a)));
    }
  }

  lemma FlushThinkingKeepsCarried(a: Acc)
    ensures Carried(FlushThinking(a)) == Carried(a)
  {
    if a.think.current.Some? {
      EmitKeepsCarried(a.content, ThinkingBlockOf(a.think.current.value, a.think.text, a.think.signature),
                       Held(a), Held(FlushThinking(a)));
    }
  }

  lemma FlushAllKeepsCarried(a: Acc)
    ensures Carried(FlushAll(a)) == Carried(a)
    ensures Carried(FlushThinking(FlushTool(a))) == Carried(a)
  {
    FlushTextKeepsCarried(a);
    FlushToolKeepsCarried(FlushText(a));
    FlushThinkingKeepsCarried(FlushTool(FlushText(a)));
    FlushToolKeepsCarried(a);
    FlushThinkingKeepsCarried(FlushTool(a));
  }

  /** The accumulator a chunk is written into, once the boundary flushes are done. */
  function FlushedFor(a: Acc, c: StreamChunk): Acc {
    match c
    case ChunkText(_) => FlushThinking(FlushTool(a))
    case ChunkToolUseStart(_) => FlushAll(a)
    case ChunkThinkingStart(_) => FlushAll(a)
    case _ => a
  }

  /** What a chunk adds: a thinking delta counts only while a thinking block is open. */
  function Accepted(a: Acc, c: StreamChunk): Bytes {
    if c.ChunkThinkingDelta? && a.think.current.None? then NO_BYTES else ChunkBytes(c)
  }

  lemma StepAppends(a: Acc, c: StreamChunk)
    requires AtMostOneOpen(a)
    ensures Accumulate(a, c).content == FlushedFor(a, c).content
    ensures Held(Accumulate(a, c)) == Held(FlushedFor(a, c)).Plus(Accepted(a, c))
  {
    var h := Held(FlushedFor(a, c));
    PlusLaws(h, NO_BYTES, NO_BYTES);
    match c {
      case ChunkText(t) => assert h.Plus(Accepted(a, c)) == h.(text := h.text + t);
      case ChunkToolUseStart(t) =>
        assert h == NO_BYTES.(tool := h.tool);
      case ChunkToolUseDelta(p) => assert h.Plus(Accepted(a, c)) == h.(tool := h.tool + p);
      case ChunkThinkingStart(t) =>
        assert h == NO_BYTES.(tool := h.tool);
      case ChunkThinkingDelta(t) =>
      case ChunkDone(u) =>
    }
  }

  lemma FlushedForKeepsCarried(a: Acc, c: StreamChunk)
    ensures Carried(FlushedFor(a, c)) == Carried(a)
  {
    FlushAllKeepsCarried(a);
  }

  lemma StepKeepsCarried(a: Acc, c: StreamChunk)
    requires AtMostOneOpen(a)
    ensures Carried(Accumulate(a, c)) == Carried(a).Plus(Accepted(a, c))
  {
    FlushedForKeepsCarried(a, c);
    StepAppends(a, c);
    var b := FlushedFor(a, c);
    PlusLaws(BytesOut(b.content), Held(b), Accepted(a, c));
  }

  lemma BytesInSnoc(pre: seq<StreamChunk>, c: StreamChunk)
    ensures BytesIn(pre + [c]) == BytesIn(pre).Plus(ChunkBytes(c))
  {
    assert (pre + [c])[..|pre|] == pre;
  }

  /** Which kind of delta the stream may carry next. */
  datatype Open = OpenNothing | OpenTool | OpenThinking

  function OpenAfter(o: Open, c: StreamChunk): Open {
    match c
    case ChunkToolUseStart(t) => if t.Some? then OpenTool else OpenNothing
    case ChunkThinkingStart(_) => OpenThinking
    case ChunkText(_) => OpenNothing
    case _ => o
  }

  predicate Allowed(o: Open, c: StreamChunk) {
    (c.ChunkToolUseDelta? ==> o == OpenTool) && (c.ChunkThinkingDelta? ==> o == OpenThinking)
  }

  /** A stream whose deltas always follow the start chunk of their own kind. */
  predicate WellFormed(o: Open, cs: seq<StreamChunk>)
    decreases |cs|
  {
    cs == [] || (Allowed(o, cs[0]) && WellFormed(OpenAfter(o, cs[0]), cs[1..]))
  }

  ghost predicate Tracks(a: Acc, o: Open) {
    && AtMostOneOpen(a)
    && (a.tool.Some? <==> o == OpenTool)
    && (a.think.current.Some? <==> o == OpenThinking)
    && (a.tool.None? ==> a.toolBuf == "")
  }

  lemma StepTracks(a: Acc, o: Open, c: StreamChunk)
    requires Tracks(a, o) && (c.ChunkToolUseDelta? ==> o == OpenTool)
    ensures Tracks(Accumulate(a, c), OpenAfter(o, c))
  {
  }

  /** All bytes of `pre` are in the accumulator, which tracks what is open. */
  ghost predicate Conserved(pre: seq<StreamChunk>, a: Acc, o: Open) { Tracks(a, o) && Carried(a) == BytesIn(pre) }

  lemma StepConserves(pre: seq<StreamChunk>, a: Acc, o: Open, c: StreamChunk)
    requires Conserved(pre, a, o)
    requires Allowed(o, c)
    ensures Conserved(pre + [c], Accumulate(a, c), OpenAfter(o, c))
  {
    StepKeepsCarried(a, c);
    StepTracks(a, o, c);
    BytesInSnoc(pre, c);
    assert Accepted(a, c) == ChunkBytes(c);
  }

  /** Whatever every allowed step keeps, a well-formed stream keeps. */
  lemma {:induction false} FoldInduction(
    inv: (seq<StreamChunk>, Acc, Open) -> bool, o: Open, pre: seq<StreamChunk>, cs: seq<StreamChunk>, a: Acc)
    returns (p: Open)
    requires inv(pre, a, o) && WellFormed(o, cs)
    requires forall q, b, r, c :: inv(q, b, r) && Allowed(r, c) ==> inv(q + [c], Accumulate(b, c), OpenAfter(r, c))
    ensures inv(pre + cs, Fold(a, cs), p)
    decreases |cs|
  {
    if cs == [] {
      assert pre + cs == pre;
      p := o;
    } else {
      p := FoldInduction(inv, OpenAfter(o, cs[0]), pre + [cs[0]], cs[1..], Accumulate(a, cs[0]));
      assert (pre + [cs[0]]) + cs[1..] == pre + cs;
    }
  }

  lemma FoldKeepsCarried(cs: seq<StreamChunk>) returns (p: Open)
    requires WellFormed(OpenNothing, cs)
    ensures Conserved(cs, Fold(EMPTY, cs), p)
  {
    PlusLaws(NO_BYTES, NO_BYTES, NO_BYTES);
    forall q, b, r, c | Conserved(q, b, r) && Allowed(r, c)
      ensures Conserved(q + [c], Accumulate(b, c), OpenAfter(r, c))
    {
      StepConserves(q, b, r, c);
    }
    p := FoldInduction((q, b, r) => Conserved(q, b, r), OpenNothing, [], cs, EMPTY);
    assert [] + cs == cs;
  }

  /**
   Conservation: for a well-formed stream the response holds, in order and with
   nothing added or lost, exactly the text, tool-argument, thinking-text and
   signature bytes the chunks carried.
   */
  lemma ResponseConservesBytes(cs: seq<StreamChunk>)
    requires WellFormed(OpenNothing, cs)
    ensures BytesOut(Collected(cs).content) == BytesIn(cs)
  {
    var p := FoldKeepsCarried(cs);
    FlushConserves(cs, Fold(EMPTY, cs), p);
  }

  lemma FlushConserves(pre: seq<StreamChunk>, a: Acc, o: Open)
    requires Conserved(pre, a, o)
    ensures BytesOut(FlushAll(a).content) == BytesIn(pre)
  {
    FlushAllKeepsCarried(a);
    assert Held(FlushAll(a)) == NO_BYTES;
    PlusLaws(BytesOut(FlushAll(a).content), NO_BYTES, NO_BYTES);
  }

  /** Nothing of the text or tool bytes of `pre` is lost, though a stray delta may be held. */
  ghost predicate TextAndToolKept(pre: seq<StreamChunk>, a: Acc) {
    AtMostOneOpen(a) && Carried(a).text == BytesIn(pre).text && Carried(a).tool == BytesIn(pre).tool
  }

  lemma StepKeepsTextAndTool(pre: seq<StreamChunk>, c: StreamChunk, a: Acc)
    requires TextAndToolKept(pre, a)
    ensures TextAndToolKept(pre + [c], Accumulate(a, c))
  {
    StepKeepsOneOpen(a, c);
    StepKeepsCarried(a, c);
    BytesInSnoc(pre, c);
    AcceptedTextAndTool(a, c);
    PlusAgrees(Carried(a), BytesIn(pre), Accepted(a, c), ChunkBytes(c));
  }

  lemma StepKeepsOneOpen(a: Acc, c: StreamChunk)
    requires AtMostOneOpen(a)
    ensures AtMostOneOpen(Accumulate(a, c))
  {
  }

  lemma AcceptedTextAndTool(a: Acc, c: StreamChunk)
    ensures Accepted(a, c).text == ChunkBytes(c).text && Accepted(a, c).tool == ChunkBytes(c).tool
  {
  }

  lemma PlusAgrees(x: Bytes, y: Bytes, p: Bytes, q: Bytes)
    requires x.text == y.text && x.tool == y.tool && p.text == q.text && p.tool == q.tool
    ensures x.Plus(p).text == y.Plus(q).text && x.Plus(p).tool == y.Plus(q).tool
  {
  }

  lemma {:induction false} FoldKeepsTextAndTool(cs: seq<StreamChunk>)
    ensures TextAndToolKept(cs, Fold(EMPTY, cs))
    decreases |cs|
  {
    if cs == [] {
      PlusLaws(NO_BYTES, NO_BYTES, NO_BYTES);
    } else {
      var pre, c := cs[..|cs| - 1], cs[|cs| - 1];
      FoldKeepsTextAndTool(pre);
      FoldSnoc(EMPTY, pre, c);
      StepKeepsTextAndTool(pre, c, Fold(EMPTY, pre));
      assert pre + [c] == cs;
    }
  }

  /**
   For every stream, well-formed or not, text is conserved exactly, and tool
   bytes are conserved up to a tail: `flushTool` clears its buffer only when a
   tool is open, so a stray delta is carried into the next tool, and what
   follows the last tool is what the response lacks.
   */
  lemma ToolBytesConservedUpToTail(cs: seq<StreamChunk>)
    ensures var out := BytesOut(Collected(cs).content);
      && out.text == BytesIn(cs).text
      && out.tool + FlushAll(Fold(EMPTY, cs)).toolBuf == BytesIn(cs).tool
  {
    FoldKeepsTextAndTool(cs);
    var a := Fold(EMPTY, cs);
    FlushAllKeepsCarried(a);
    var b := FlushAll(a);
    assert BytesOut(b.content).text + "" == BytesOut(b.content).text;
  }

  /** A stray delta ahead of a tool start ends up in front of that tool's own arguments. */
  lemma StrayDeltaPrefixesNextTool(stray: string, t: ToolUse)
    ensures Collected([ChunkToolUseDelta(stray), ChunkToolUseStart(Some(t))]).content
         == [BlockToolUse(t.(input := stray + t.input))]
  {
    var cs := [ChunkToolUseDelta(stray), ChunkToolUseStart(Some(t))];
    assert cs == [cs[0]] + [cs[1]];
    FoldSnoc(EMPTY, [cs[0]], cs[1]);
    FoldSnoc(EMPTY, [], cs[0]);
    assert [] + [cs[0]] == [cs[0]];
    assert "" + stray == stray;
  }

  // ---------- The builders, as the source holds them ----------

  /** `llm.ThinkingAccumulator`: the block in progress and its two builders. */
  class ThinkingAccumulator {
    var current: Option<Thinking>
    var text: string
    var signature: string

    ghost function State(): ThinkState
      reads this
    {
      ThinkState(if current.None? then None else Some(current.value.data), text, signature)
    }

    ghost predicate Valid()
      reads this
    {
      current.None? ==> text == "" && signature == ""
    }

    constructor ()
      ensures Valid() && State() == NO_THINKING
    {
      current, text, signature := None, "", "";
    }

    /** Returns the block in progress, if any, and resets the accumulator. */
    method Flush() returns (block: Option<ContentBlock>)
      requires Valid()
      modifies this
      ensures Valid() && State() == NO_THINKING
      ensures block == if old(current).None? then None
                       else Some(ThinkingBlockOf(old(current).value.data, old(text), old(signature)))
    {
      if current.None? {
        return None;
      }
      var t := current.value.(text := text, signature := signature);
      current := None;
      text, signature := "", "";
      if t.data != "" {
        return Some(BlockRedactedThinking(t));
      }
      return Some(BlockThinking(t));
    }

    /** Applies a thinking chunk; a start returns the block it ends. */
    method Add(c: StreamChunk) returns (block: Option<ContentBlock>)
      requires Valid()
      modifies this
      ensures Valid()
      ensures forall a: Acc :: a.think == old(State()) ==>
        && State() == (if c.ChunkThinkingStart? || c.ChunkThinkingDelta? then Accumulate(a, c).think else a.think)
      ensures block == if c.ChunkThinkingStart? && old(current).Some?
                       then Some(ThinkingBlockOf(old(current).value.data, old(text), old(signature)))
                       else None
    {
      block := None;
      match c {
        case ChunkThinkingStart(thinking) =>
          block := Flush();
          current := Some(Thinking("", "", ""));
          if thinking.Some? {
            current := Some(current.value.(data := thinking.value.data));
            text := text + thinking.value.text;
            signature := signature + thinking.value.signature;
          }
        case ChunkThinkingDelta(thinking) =>
          if current.Some? && thinking.Some? {
            text := text + thinking.value.text;
            signature := signature + thinking.value.signature;
          }
        case _ =>
      }
    }
  }

  /** The local state of `Collect` (and of `writeSSE`, which mirrors it). */
  class Assembler {
    var content: seq<ContentBlock>
    var usage: TokenUsage
    var textBuf: string
    var toolBuf: string
    var currentTool: Option<ToolUse>
    const thinking: ThinkingAccumulator

    ghost function State(): Acc
      reads this, thinking
    {
      Acc(content, usage, textBuf, toolBuf, currentTool, thinking.State())
    }

    ghost predicate Valid()
      reads this, thinking
    {
      thinking.Valid()
    }

    constructor ()
      ensures Valid() && fresh(thinking) && State() == EMPTY
    {
      content, usage, textBuf, toolBuf, currentTool := [], NO_USAGE, "", "", None;
      thinking := new ThinkingAccumulator();
    }

    method FlushTextBuf()
      requires Valid()
      modifies this
      ensures Valid() && State() == FlushText(old(State()))
    {
      if |textBuf| > 0 {
        content := content + [BlockText(textBuf)];
        textBuf := "";
      }
    }

    method FlushCurrentTool()
      requires Valid()
      modifies this
      ensures Valid() && State() == FlushTool(old(State()))
    {
      if currentTool.Some? {
        var t := currentTool.value.(input := toolBuf);
        content := content + [BlockToolUse(t)];
        currentTool := None;
        toolBuf := "";
      }
    }

    method FlushThinkingBlock()
      requires Valid()
      modifies this, thinking
      ensures Valid() && State() == FlushThinking(old(State()))
    {
      var b := thinking.Flush();
      if b.Some? {
        content := content + [b.value];
      }
    }

    method FlushEverything()
      requires Valid()
      modifies this, thinking
      ensures Valid() && State() == FlushAll(old(State()))
    {
      FlushTextBuf();
      FlushCurrentTool();
      FlushThinkingBlock();
    }

    method AccumulateChunk(c: StreamChunk)
      requires Valid()
      modifies this, thinking
      ensures Valid() && State() == Accumulate(old(State()), c)
    {
      match c {
        case ChunkText(text) =>
          FlushCurrentTool();
          FlushThinkingBlock();
          textBuf := textBuf + text;
        case ChunkToolUseStart(toolUse) =>
          FlushEverything();
          if toolUse.Some? {
            currentTool := toolUse;
            if |toolUse.value.input| > 0 {
              toolBuf := toolBuf + toolUse.value.input;
            }
          }
        case ChunkToolUseDelta(partial) =>
          toolBuf := toolBuf + partial;
        case ChunkThinkingStart(_) =>
          FlushEverything();
          ghost var flushed := State();
          var ended := thinking.Add(c);
          assert Accumulate(flushed, c).think == thinking.State();
        case ChunkThinkingDelta(_) =>
          ghost var before := State();
          var ended := thinking.Add(c);
          assert Accumulate(before, c).think == thinking.State();
        case ChunkDone(u) =>
          if u.Some? {
            usage := u.value;
          }
      }
    }
  }
}
