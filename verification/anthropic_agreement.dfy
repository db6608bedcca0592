/**
 Agreement between the two ways of reading one Anthropic response: streaming it,
 in any fragmentation and under any schedule, and collecting the stream; or
 parsing the whole body. They agree exactly on the responses called `Clean`.
 */
module AnthropicAgreement {
  import opened Common
  import opened Blocks
  import opened StreamRace
  import opened AnthropicStream

  // ---------- The fold, seen as the blocks it would return now ----------

  datatype Last = LastNone | LastText | LastTool | LastThinking

  /** The blocks a flush would give, what kind is open, and stray tool bytes. */
  datatype View = View(blocks: seq<ContentBlock>, last: Last, stray: string)

  function ViewOf(a: Acc): View {
    View(FlushAll(a).content,
         if a.textBuf != "" then LastText else if a.tool.Some? then LastTool
         else if a.think.current.Some? then LastThinking else LastNone,
         if a.tool.Some? then "" else a.toolBuf)
  }

  predicate ValidView(v: View) {
    && (v.last == LastText ==> v.blocks != [] && v.blocks[|v.blocks| - 1].BlockText?)
    && (v.last == LastTool ==> v.blocks != [] && v.blocks[|v.blocks| - 1].BlockToolUse? && v.stray == "")
  }

  /** The last block, grown by more text or more tool arguments. */
  function Grow(bs: seq<ContentBlock>, more: string): (r: seq<ContentBlock>)
    requires bs != [] && (bs[|bs| - 1].BlockText? || bs[|bs| - 1].BlockToolUse?)
    ensures |r| == |bs| && r[..|bs| - 1] == bs[..|bs| - 1]
  {
    var b := bs[|bs| - 1];
    bs[..|bs| - 1] + [if b.BlockText? then BlockText(b.text + more)
                      else BlockToolUse(b.toolUse.(input := b.toolUse.input + more))]
  }

  function ViewStep(v: View, b: WireBlock): View
    requires ValidView(v)
  {
    match b
    case WireText(t) =>
      if t == "" then v
      else if v.last == LastText then v.(blocks := Grow(v.blocks, t))
      else v.(blocks := v.blocks + [BlockText(t)], last := LastText)
    case WireToolUse(id, name, input) =>
      View(v.blocks + [BlockToolUse(ToolUse(id, name, v.stray + input, ""))], LastTool, "")
    case WireThinking(t, s) =>
      v.(blocks := v.blocks + [ThinkingBlockOf("", if t.Some? then t.value else "", s)], last := LastThinking)
    case WireRedacted(d) => v.(blocks := v.blocks + [ThinkingBlockOf(d, "", "")], last := LastThinking)
    case WireOther(p) =>
      if v.last == LastTool then v.(blocks := Grow(v.blocks, p)) else v.(stray := v.stray + p)
  }

  lemma ViewIsValid(a: Acc)
    requires AtMostOneOpen(a)
    ensures ValidView(ViewOf(a))
  {
  }

  lemma StepSimulates(a: Acc, b: WireBlock)
    requires AtMostOneOpen(a)
    ensures ValidView(ViewOf(a)) && AtMostOneOpen(BlockEffect(a, b))
    ensures ViewOf(BlockEffect(a, b)) == ViewStep(ViewOf(a), b)
  {
    ViewIsValid(a);
    EmptyBytesAddNothing(a.toolBuf);
    match b {
      case WireText(t) =>
        EmptyBytesAddNothing(t);
        var n := |ViewOf(a).blocks|;
        if t != "" && a.textBuf != "" {
          assert ViewOf(a).blocks == a.content + [BlockText(a.textBuf)];
          assert ViewOf(a).blocks[..n - 1] == a.content;
        }
      case WireToolUse(id, name, input) =>
        var s := Accumulate(a, ChunkToolUseStart(Some(ToolUse(id, name, "", ""))));
        assert s.content == ViewOf(a).blocks && s.toolBuf == ViewOf(a).stray;
      case WireThinking(_, _) =>
      case WireRedacted(_) =>
      case WireOther(p) =>
        var n := |ViewOf(a).blocks|;
        if a.tool.Some? {
          assert ViewOf(a).blocks == a.content + [BlockToolUse(a.tool.value.(input := a.toolBuf))];
          assert ViewOf(a).blocks[..n - 1] == a.content;
        }
    }
  }

  function ViewRun(v: View, bs: seq<WireBlock>): View
    requires ValidView(v)
    decreases |bs|
  {
    if bs == [] then v else ViewRun(StepView(v, bs[0]), bs[1..])
  }

  function StepView(v: View, b: WireBlock): (r: View)
    requires ValidView(v)
    ensures r == ViewStep(v, b) && ValidView(r)
  {
    ViewStep(v, b)
  }

  // ---------- Clean responses ----------

  function LastAfter(last: Last, b: WireBlock): Last {
    match b
    case WireText(t) => if t == "" then last else LastText
    case WireToolUse(_, _, _) => LastTool
    case WireOther(_) => last
    case _ => LastThinking
  }

  predicate StrayAfter(last: Last, stray: bool, b: WireBlock) {
    if b.WireToolUse? then false
    else stray || (b.WireOther? && b.partialJson != "" && last != LastTool)
  }

  predicate CleanBlock(last: Last, stray: bool, b: WireBlock) {
    match b
    case WireText(t) => t != "" && last != LastText
    case WireToolUse(_, _, _) => !stray
    case WireThinking(_, _) => true
    case WireRedacted(d) => d != ""
    case WireOther(p) => p == "" || last != LastTool
  }

  /**
   No empty text block, no two text blocks with only unknown blocks between them,
   no redacted block without data, and no unknown block that streams arguments
   while a tool use is open or before a later one.
   */
  predicate Clean(last: Last, stray: bool, bs: seq<WireBlock>)
    decreases |bs|
  {
    bs == [] ||
    (CleanBlock(last, stray, bs[0]) && Clean(LastAfter(last, bs[0]), StrayAfter(last, stray, bs[0]), bs[1..]))
  }

  lemma ViewTracksClean(v: View, b: WireBlock)
    requires ValidView(v)
    ensures StepView(v, b).last == LastAfter(v.last, b)
    ensures (StepView(v, b).stray != "") == StrayAfter(v.last, v.stray != "", b)
  {
    EmptyBytesAddNothing(v.stray);
  }

  lemma CleanStep(v: View, b: WireBlock)
    requires ValidView(v) && CleanBlock(v.last, v.stray != "", b)
    ensures StepView(v, b).blocks == v.blocks + ParseBlock(b)
  {
    match b {
      case WireToolUse(_, _, input) => assert "" + input == input;
      case WireOther(p) =>
        if v.last == LastTool {
          var last := v.blocks[|v.blocks| - 1];
          assert last.toolUse.input + "" == last.toolUse.input;
          assert Grow(v.blocks, p) == v.blocks;
        }
        assert v.blocks + [] == v.blocks;
      case _ =>
    }
  }

  lemma ParseHead(want: seq<ContentBlock>, bs: seq<WireBlock>)
    requires bs != []
    ensures (want + ParseBlock(bs[0])) + ParseBlocks(bs[1..]) == want + ParseBlocks(bs)
  {
  }

  lemma {:induction false} CleanAgrees(v: View, bs: seq<WireBlock>)
    requires ValidView(v) && Clean(v.last, v.stray != "", bs)
    ensures ViewRun(v, bs).blocks == v.blocks + ParseBlocks(bs)
    decreases |bs|
  {
    if bs == [] {
      assert v.blocks + [] == v.blocks;
    } else {
      CleanStep(v, bs[0]);
      ViewTracksClean(v, bs[0]);
      CleanAgrees(StepView(v, bs[0]), bs[1..]);
      ParseHead(v.blocks, bs);
    }
  }

  /** A difference no later block can undo. */
  predicate Worse(got: ContentBlock, want: ContentBlock) {
    || (got.BlockToolUse? && want.BlockToolUse? && |got.toolUse.input| > |want.toolUse.input|)
    || (want.BlockRedactedThinking? && !got.BlockRedactedThinking?)
  }

  predicate Spoilt(got: seq<ContentBlock>, want: seq<ContentBlock>) {
    || |got| < |want|
    || exists i :: 0 <= i < |got| && i < |want| && Worse(got[i], want[i])
  }

  /** What holds of the streamed blocks and the parsed blocks after any common prefix. */
  predicate Aligned(v: View, want: seq<ContentBlock>) {
    && ValidView(v) && |v.blocks| <= |want|
    && (v.last == LastTool && |v.blocks| == |want| ==>
          && want[|want| - 1].BlockToolUse?
          && |v.blocks[|want| - 1].toolUse.input| >= |want[|want| - 1].toolUse.input|)
  }

  lemma AlignedStep(v: View, want: seq<ContentBlock>, b: WireBlock)
    requires Aligned(v, want)
    ensures Aligned(StepView(v, b), want + ParseBlock(b))
  {
    assert want + [] == want;
  }

  lemma SpoiltStaysSpoilt(v: View, want: seq<ContentBlock>, b: WireBlock)
    requires Aligned(v, want) && Spoilt(v.blocks, want)
    ensures Spoilt(StepView(v, b).blocks, want + ParseBlock(b))
  {
    var got, next := ViewStep(v, b).blocks, want + ParseBlock(b);
    if |v.blocks| >= |want| {
      var i :| 0 <= i < |v.blocks| && i < |want| && Worse(v.blocks[i], want[i]);
      assert next[i] == want[i];
      assert i < |v.blocks| - 1 ==> got[i] == v.blocks[..|v.blocks| - 1][i];
      assert Worse(got[i], next[i]);
    }
  }

  /** The first way in which a response fails to be clean spoils the result at once. */
  lemma UncleanStepSpoils(v: View, want: seq<ContentBlock>, b: WireBlock)
    requires Aligned(v, want) && !CleanBlock(v.last, v.stray != "", b)
    ensures Spoilt(StepView(v, b).blocks, want + ParseBlock(b))
  {
    var got, next := ViewStep(v, b).blocks, want + ParseBlock(b);
    if |got| >= |next| {
      assert want + [] == want;
      var i := |next| - 1;
      assert Worse(got[i], next[i]);
    }
  }

  lemma {:induction false} UncleanSpoils(v: View, want: seq<ContentBlock>, bs: seq<WireBlock>)
    requires Aligned(v, want)
    requires Spoilt(v.blocks, want) || !Clean(v.last, v.stray != "", bs)
    ensures Spoilt(ViewRun(v, bs).blocks, want + ParseBlocks(bs))
    decreases |bs|
  {
    if bs == [] {
      assert want + [] == want;
    } else {
      var b := bs[0];
      AlignedStep(v, want, b);
      ViewTracksClean(v, b);
      if Spoilt(v.blocks, want) {
        SpoiltStaysSpoilt(v, want, b);
      } else if !CleanBlock(v.last, v.stray != "", b) {
        UncleanStepSpoils(v, want, b);
      }
      UncleanSpoils(StepView(v, b), want + ParseBlock(b), bs[1..]);
      ParseHead(want, bs);
    }
  }

  lemma SpoiltDiffers(got: seq<ContentBlock>, want: seq<ContentBlock>)
    requires Spoilt(got, want)
    ensures got != want
  {
  }

  // ---------- Whole streams ----------

  function Flatten(frags: seq<seq<Event>>): seq<Event>
    decreases |frags|
  {
    if frags == [] then [] else frags[0] + Flatten(frags[1..])
  }

  /** The events of a response: start, one fragmented run per block, final usage, stop. */
  function StreamOf(usage: WireUsage, startOutput: int, frags: seq<seq<Event>>): seq<Event> {
    [MessageStart(Some(usage.(output := startOutput)))] + Flatten(frags)
    + [MessageDelta(Some(usage.output)), MessageStop]
  }

  predicate Fragments(bs: seq<WireBlock>, frags: seq<seq<Event>>) {
    |frags| == |bs| && forall i :: 0 <= i < |bs| ==> Streams(bs[i], frags[i])
  }

  lemma {:induction false} BlocksFold(tok: WireUsage, a: Acc, bs: seq<WireBlock>, frags: seq<seq<Event>>)
    requires AtMostOneOpen(a) && Fragments(bs, frags)
    ensures TokensRun(tok, Flatten(frags)) == tok
    ensures ValidView(ViewOf(a))
    ensures ViewOf(Fold(a, Chunks(tok, Flatten(frags)))) == ViewRun(ViewOf(a), bs)
    decreases |bs|
  {
    ViewIsValid(a);
    if bs != [] {
      var b, f := bs[0], frags[0];
      FragmentEffect(tok, a, b, f);
      StepSimulates(a, b);
      BlocksFold(tok, BlockEffect(a, b), bs[1..], frags[1..]);
      ChunksConcat(tok, f, Flatten(frags[1..]));
      FoldConcat(a, Chunks(tok, f), Chunks(tok, Flatten(frags[1..])));
    }
  }

  lemma WholeStream(bs: seq<WireBlock>, usage: WireUsage, startOutput: int, frags: seq<seq<Event>>)
    requires Fragments(bs, frags)
    ensures Chunks(NO_TOKENS, StreamOf(usage, startOutput, frags))
         == Chunks(usage.(output := 0), Flatten(frags)) + [ChunkDone(Some(UsageOf(usage)))]
  {
    var start := MessageStart(Some(usage.(output := startOutput)));
    var body := Flatten(frags);
    var tok := usage.(output := 0);
    ChunksSnoc(NO_TOKENS, [], start);
    assert [] + [start] == [start];
    ChunksConcat(NO_TOKENS, [start], body);
    BlocksFold(tok, EMPTY, bs, frags);
    ChunksSnoc(NO_TOKENS, [start] + body, MessageDelta(Some(usage.output)));
    ChunksSnoc(NO_TOKENS, [start] + body + [MessageDelta(Some(usage.output))], MessageStop);
    assert StreamOf(usage, startOutput, frags)
        == [start] + body + [MessageDelta(Some(usage.output))] + [MessageStop];
  }

  lemma StreamedContent(bs: seq<WireBlock>, usage: WireUsage, startOutput: int, frags: seq<seq<Event>>)
    requires Fragments(bs, frags)
    ensures Collected(Chunks(NO_TOKENS, StreamOf(usage, startOutput, frags)))
         == ChatResponse(ViewRun(View([], LastNone, ""), bs).blocks, UsageOf(usage))
  {
    var tok := usage.(output := 0);
    WholeStream(bs, usage, startOutput, frags);
    BlocksFold(tok, EMPTY, bs, frags);
    FoldSnoc(EMPTY, Chunks(tok, Flatten(frags)), ChunkDone(Some(UsageOf(usage))));
    assert ViewOf(EMPTY) == View([], LastNone, "");
  }

  /**
   Streaming a response in any fragmentation and collecting it yields the parsed
   Content if and only if the response is clean; the Usage always agrees.
   */
  lemma StreamingAgreesIffClean(bs: seq<WireBlock>, usage: WireUsage, startOutput: int, frags: seq<seq<Event>>)
    requires Fragments(bs, frags)
    ensures var r := Collected(Chunks(NO_TOKENS, StreamOf(usage, startOutput, frags)));
      && r.usage == UsageOf(usage)
      && (r.content == ParseBlocks(bs) <==> Clean(LastNone, false, bs))
  {
    StreamedContent(bs, usage, startOutput, frags);
    var v := View([], LastNone, "");
    if Clean(LastNone, false, bs) {
      CleanAgrees(v, bs);
      assert [] + ParseBlocks(bs) == ParseBlocks(bs);
    } else {
      UncleanSpoils(v, [], bs);
      assert [] + ParseBlocks(bs) == ParseBlocks(bs);
      SpoiltDiffers(ViewRun(v, bs).blocks, ParseBlocks(bs));
    }
  }

  lemma {:induction false} BlocksSendNoDone(tok: WireUsage, bs: seq<WireBlock>, frags: seq<seq<Event>>)
    requires Fragments(bs, frags)
    ensures NoDone(Chunks(tok, Flatten(frags)))
    decreases |bs|
  {
    if bs != [] {
      ChunksConcat(tok, frags[0], Flatten(frags[1..]));
      EventsSendNoDone(tok, frags[0]);
      FragmentEffect(tok, EMPTY, bs[0], frags[0]);
      BlocksSendNoDone(tok, bs[1..], frags[1..]);
    }
  }

  lemma {:induction false} EventsSendNoDone(tok: WireUsage, es: seq<Event>)
    requires forall i :: 0 <= i < |es| ==> es[i].ContentBlockStart? || es[i].ContentBlockDelta? || es[i].OtherEvent?
    ensures NoDone(Chunks(tok, es))
    decreases |es|
  {
    if es != [] {
      EventsSendNoDone(TokensAfter(tok, es[0]), es[1..]);
    }
  }

  /**
   End to end: for every clean response, every fragmentation, every channel
   capacity and every schedule that is not cancelled, `Collect` returns without
   error what `parseChatResponse` returns for the whole body.
   */
  lemma CollectedStreamEqualsParsedBody(
    bs: seq<WireBlock>, usage: WireUsage, startOutput: int, frags: seq<seq<Event>>,
    sc: Script, steps: seq<Step>)
    requires Fragments(bs, frags) && Clean(LastNone, false, bs)
    requires sc.chunks == Chunks(NO_TOKENS, StreamOf(usage, startOutput, frags)) && sc.err.None?
    requires Completes(sc, steps) && Cancel !in steps
    ensures var s := After(sc, START, steps);
      s.pc == Returned(Finished) && Response(s) == ChatResponse(ParseBlocks(bs), UsageOf(usage))
  {
    ScheduleIndependence(sc, steps);
    StreamingAgreesIffClean(bs, usage, startOutput, frags);
    DoneIsLast(bs, usage, startOutput, frags);
  }

  lemma DoneIsLast(bs: seq<WireBlock>, usage: WireUsage, startOutput: int, frags: seq<seq<Event>>)
    requires Fragments(bs, frags)
    ensures var cs := Chunks(NO_TOKENS, StreamOf(usage, startOutput, frags)); UpToDone(cs) == cs
  {
    var tok := usage.(output := 0);
    WholeStream(bs, usage, startOutput, frags);
    BlocksSendNoDone(tok, bs, frags);
    var cs := Chunks(tok, Flatten(frags)) + [ChunkDone(Some(UsageOf(usage)))];
    assert cs[..|cs| - 1] == Chunks(tok, Flatten(frags));
    assert cs[..|cs|] == cs;
    FirstDoneIsUnique(cs, |cs|);
  }

  lemma UnknownBlockInView(p: string, id: string, name: string, input: string)
    requires p != ""
    ensures var bs := [WireOther(p), WireToolUse(id, name, input)];
      && ParseBlocks(bs) == [BlockToolUse(ToolUse(id, name, input, ""))]
      && ViewRun(View([], LastNone, ""), bs).blocks == [BlockToolUse(ToolUse(id, name, p + input, ""))]
  {
    var bs := [WireOther(p), WireToolUse(id, name, input)];
    assert bs == [bs[0]] + [bs[1]];
    ParseBlocksSnoc([bs[0]], bs[1]);
    ParseBlocksSnoc([], bs[0]);
    assert [] + [bs[0]] == [bs[0]];
    var v := View([], LastNone, "");
    assert "" + p == p;
    var w := StepView(v, bs[0]);
    assert w == View([], LastNone, p);
    assert bs[1..] == [bs[1]] && bs[1..][1..] == [];
    assert StepView(w, bs[1]).blocks == [BlockToolUse(ToolUse(id, name, p + input, ""))];
    assert ViewRun(w, [bs[1]]) == ViewRun(StepView(w, bs[1]), [bs[1]][1..]);
    assert ViewRun(v, bs) == ViewRun(w, bs[1..]);
  }

  /** A start event and one delta with all the arguments stream an unknown block, or a tool use. */
  lemma OneDeltaStreams(p: string, id: string, name: string)
    ensures Streams(WireOther(p), [ContentBlockStart(Some(StartOther)), ContentBlockDelta(Some(InputJsonDelta(p)))])
    ensures Streams(WireToolUse(id, name, p),
                    [ContentBlockStart(Some(StartToolUse(id, name))), ContentBlockDelta(Some(InputJsonDelta(p)))])
  {
    var delta := ContentBlockDelta(Some(InputJsonDelta(p)));
    assert [delta][1..] == [];
    assert Joined([delta]).tool == p;
    forall start: Event
      ensures [start, delta][1..] == [delta]
    {
    }
  }

  /**
   A concrete unclean stream: an unknown block that streams arguments (as a
   server-side tool does) ahead of a tool use. What `Collect` assembles from it has
   those arguments in front of the tool's own; the parsed response does not.
   */
  lemma UnknownBlockCorruptsNextTool(usage: WireUsage, startOutput: int, p: string, id: string, name: string, input: string)
    requires p != ""
    ensures var es := StreamOf(usage, startOutput, [
        [ContentBlockStart(Some(StartOther)), ContentBlockDelta(Some(InputJsonDelta(p)))],
        [ContentBlockStart(Some(StartToolUse(id, name))), ContentBlockDelta(Some(InputJsonDelta(input)))]]);
      && Collected(Chunks(NO_TOKENS, es)).content == [BlockToolUse(ToolUse(id, name, p + input, ""))]
      && ParseBlocks([WireOther(p), WireToolUse(id, name, input)]) == [BlockToolUse(ToolUse(id, name, input, ""))]
  {
    var bs := [WireOther(p), WireToolUse(id, name, input)];
    var frags := [
      [ContentBlockStart(Some(StartOther)), ContentBlockDelta(Some(InputJsonDelta(p)))],
      [ContentBlockStart(Some(StartToolUse(id, name))), ContentBlockDelta(Some(InputJsonDelta(input)))]];
    OneDeltaStreams(p, id, name);
    OneDeltaStreams(input, id, name);
    assert Fragments(bs, frags);
    StreamedContent(bs, usage, startOutput, frags);
    UnknownBlockInView(p, id, name, input);
  }
}
