/**
 The self-adapting requests of the Anthropic provider
 (`llm/provider/anthropic/adapt.go`, with `buildChatRequest` and the resend loops
 of `anthropic.go`): what a request carries, what a rejection teaches, and the
 builder and adaptation as the source writes them, over a request it mutates.

 The error message enters only through the phrases the client looks for, each an
 arbitrary boolean.
 */
module AnthropicAdapt {
  import opened Common

  // ---------- Requests ----------

  /** A message block: whether it is a (redacted) thinking block, and carries a cache marker. */
  datatype MsgBlock = MsgBlock(thinking: bool, marked: bool, body: string)

  datatype Message = Message(role: string, content: seq<MsgBlock>)

  /** Only whether a temperature is 1 matters here. */
  datatype Temperature = TempOne | TempOther(value: int)

  datatype ThinkingType = Enabled | Adaptive | Disabled

  datatype Level = LevelLow | LevelMedium | LevelHigh | LevelXHigh | LevelMax

  datatype Effort = EffortDefault | EffortNone | Minimal | Low | Medium | High | XHigh | Max

  /** What a call asks for, client defaults applied; block markers are the caller's. */
  datatype Call = Call(
    messages: seq<Message>, temperature: Option<Temperature>, extendedThinking: bool,
    effort: Effort, autoCaching: bool, toolMarks: nat, systemMarks: nat)

  /** The adjustable fields of `anthropicChatRequest`. */
  datatype Request = Request(
    messages: seq<Message>, temperature: Option<Temperature>, thinking: Option<ThinkingType>,
    outputEffort: Option<Level>, cacheControl: bool, toolMarks: nat, systemMarks: nat)

  datatype Learned = Learned(
    dropTemperature: bool, dropAutoCaching: bool, rejectedThinking: set<ThinkingType>, rejectedEffort: set<Level>)

  const NOTHING := Learned(false, false, {}, {})

  predicate Grows(l: Learned, m: Learned) {
    && (l.dropTemperature ==> m.dropTemperature)
    && (l.dropAutoCaching ==> m.dropAutoCaching)
    && l.rejectedThinking <= m.rejectedThinking
    && l.rejectedEffort <= m.rejectedEffort
  }

  // ---------- Counting markers, stripping thinking ----------

  function MarksIn(bs: seq<MsgBlock>): nat {
    if bs == [] then 0 else MarksIn(bs[..|bs| - 1]) + if bs[|bs| - 1].marked then 1 else 0
  }

  function MessageMarks(ms: seq<Message>): nat {
    if ms == [] then 0 else MessageMarks(ms[..|ms| - 1]) + MarksIn(ms[|ms| - 1].content)
  }

  /** `blockMarkers`. */
  function BlockMarkers(r: Request): nat { r.toolMarks + r.systemMarks + MessageMarks(r.messages) }

  function Kept(bs: seq<MsgBlock>): seq<MsgBlock> {
    if bs == [] then []
    else Kept(bs[..|bs| - 1]) + if bs[|bs| - 1].thinking then [] else [bs[|bs| - 1]]
  }

  /** `stripThinkingBlocks`: a message of thinking alone is dropped, an empty one is not. */
  function Stripped(ms: seq<Message>): seq<Message> {
    if ms == [] then []
    else Stripped(ms[..|ms| - 1]) + Remains(ms[|ms| - 1])
  }

  predicate HasThinking(ms: seq<Message>) {
    exists i, j :: 0 <= i < |ms| && 0 <= j < |ms[i].content| && ms[i].content[j].thinking
  }

  function Tagged(role: string, bs: seq<MsgBlock>): seq<(string, MsgBlock)> {
    seq(|bs|, i requires 0 <= i < |bs| => (role, bs[i]))
  }

  /** Every block of every message in order, with the role it is sent under. */
  function Blocks(ms: seq<Message>): seq<(string, MsgBlock)> {
    if ms == [] then []
    else
      Blocks(ms[..|ms| - 1]) + Tagged(ms[|ms| - 1].role, ms[|ms| - 1].content)
  }

  function WithoutThinking(bs: seq<(string, MsgBlock)>): seq<(string, MsgBlock)> {
    if bs == [] then []
    else WithoutThinking(bs[..|bs| - 1]) + if bs[|bs| - 1].1.thinking then [] else [bs[|bs| - 1]]
  }

  lemma {:induction false} WithoutThinkingConcat(xs: seq<(string, MsgBlock)>, ys: seq<(string, MsgBlock)>)
    ensures WithoutThinking(xs + ys) == WithoutThinking(xs) + WithoutThinking(ys)
    decreases |ys|
  {
    if ys == [] {
      assert xs + ys == xs;
      assert WithoutThinking(xs) + [] == WithoutThinking(xs);
    } else {
      var n := |ys| - 1;
      assert (xs + ys)[..|xs + ys| - 1] == xs + ys[..n];
      WithoutThinkingConcat(xs, ys[..n]);
      var last := if ys[n].1.thinking then [] else [ys[n]];
      assert (WithoutThinking(xs) + WithoutThinking(ys[..n])) + last
          == WithoutThinking(xs) + (WithoutThinking(ys[..n]) + last);
    }
  }

  lemma {:induction false} KeptIsWithoutThinking(role: string, bs: seq<MsgBlock>)
    ensures Tagged(role, Kept(bs)) == WithoutThinking(Tagged(role, bs))
    ensures forall b :: b in Kept(bs) ==> !b.thinking
    decreases |bs|
  {
    if bs != [] {
      var n := |bs| - 1;
      assert Tagged(role, bs)[..n] == Tagged(role, bs[..n]);
      KeptIsWithoutThinking(role, bs[..n]);
    }
  }

  /** What is left of one message. */
  function Remains(m: Message): seq<Message> {
    if Kept(m.content) == [] && m.content != [] then [] else [m.(content := Kept(m.content))]
  }

  lemma BlocksOfRemains(done: seq<Message>, m: Message)
    ensures Blocks(done + Remains(m)) == Blocks(done) + Tagged(m.role, Kept(m.content))
  {
    if Remains(m) == [] {
      assert done + [] == done;
      assert Blocks(done) + [] == Blocks(done);
    } else {
      assert (done + Remains(m))[..|done|] == done;
    }
  }

  lemma {:induction false} StripKeepsBlocks(ms: seq<Message>)
    ensures Blocks(Stripped(ms)) == WithoutThinking(Blocks(ms))
    decreases |ms|
  {
    if ms != [] {
      var n := |ms| - 1;
      var m := ms[n];
      StripKeepsBlocks(ms[..n]);
      BlocksOfRemains(Stripped(ms[..n]), m);
      KeptIsWithoutThinking(m.role, m.content);
      WithoutThinkingConcat(Blocks(ms[..n]), Tagged(m.role, m.content));
    }
  }

  lemma {:induction false} StripLeavesNoThinking(ms: seq<Message>)
    ensures forall m :: m in Stripped(ms) ==> forall b :: b in m.content ==> !b.thinking
    ensures forall m :: m in Stripped(ms) && m.content == [] ==> m in ms
    decreases |ms|
  {
    if ms != [] {
      var n := |ms| - 1;
      StripLeavesNoThinking(ms[..n]);
      KeptIsWithoutThinking(ms[n].role, ms[n].content);
    }
  }

  /**
   Stripping keeps every non-thinking block, in order and under its own role, drops
   every thinking block, and leaves no message empty that was not empty before.
   */
  lemma StripKeepsTheRest(ms: seq<Message>)
    ensures Blocks(Stripped(ms)) == WithoutThinking(Blocks(ms))
    ensures !HasThinking(Stripped(ms))
    ensures forall m :: m in Stripped(ms) && m.content == [] ==> m in ms
  {
    StripKeepsBlocks(ms);
    StripLeavesNoThinking(ms);
  }

  // ---------- Building a request ----------

  function LevelOf(e: Effort): Option<Level> {
    match e
    case Minimal => Some(LevelLow)
    case Low => Some(LevelLow)
    case Medium => Some(LevelMedium)
    case High => Some(LevelHigh)
    case XHigh => Some(LevelXHigh)
    case Max => Some(LevelMax)
    case _ => None
  }

  function ThinkingOf(e: Effort): ThinkingType { if e == EffortNone then Disabled else Adaptive }

  function BuiltTemperature(l: Learned, call: Call): Option<Temperature> {
    if l.dropTemperature then None else call.temperature
  }

  function BuiltThinking(l: Learned, call: Call): Option<ThinkingType> {
    if call.extendedThinking then Some(Enabled)
    else if call.effort != EffortDefault && ThinkingOf(call.effort) !in l.rejectedThinking
    then Some(ThinkingOf(call.effort)) else None
  }

  function BuiltEffort(l: Learned, call: Call): Option<Level> {
    var level := LevelOf(call.effort);
    if level.Some? && level.value in l.rejectedEffort then None else level
  }

  /** Adaptive thinking leaves out any temperature other than 1. */
  function CompatibleTemperature(t: Option<Temperature>, thinking: Option<ThinkingType>): Option<Temperature> {
    if thinking == Some(Adaptive) && t.Some? && t.value != TempOne then None else t
  }

  const MAX_CACHE_BREAKPOINTS := 4

  function CallMarkers(call: Call): nat { call.toolMarks + call.systemMarks + MessageMarks(call.messages) }

  function BuiltCacheControl(l: Learned, call: Call): bool {
    call.autoCaching && !l.dropAutoCaching && CallMarkers(call) < MAX_CACHE_BREAKPOINTS
  }

  // ---------- Adjustments ----------

  datatype Adjustment =
    | AdjTemperature | AdjThinking | AdjEffort | AdjCaching | AdjCachingThisCall | AdjThinkingBlocks

  /** `buildChatRequest` then `omitForCall`, from knowledge read at three moments. */
  function Build(temp: Learned, effort: Learned, cache: Learned, call: Call, applied: set<Adjustment>): Request {
    var thinking := BuiltThinking(effort, call);
    Request(
      if AdjThinkingBlocks in applied then Stripped(call.messages) else call.messages,
      if AdjTemperature in applied then None else CompatibleTemperature(BuiltTemperature(temp, call), thinking),
      thinking,
      BuiltEffort(effort, call),
      BuiltCacheControl(cache, call) && AdjCachingThisCall !in applied,
      call.toolMarks, call.systemMarks)
  }

  /** A failed response: its status, its error type, and the phrases its message contains. */
  datatype Rejection = Rejection(
    status: int, invalidRequest: bool,
    invalidSignature: bool, refusesTemperature: bool, namesEffort: bool, namesThinkingType: bool,
    namesCacheControl: bool, namesThinking: bool, namesTemperature: bool, namesBlock: bool)

  predicate TemperatureRejectedForThinking(sent: Request, rej: Rejection) {
    sent.thinking.Some? && (sent.thinking.value == Enabled || rej.namesThinking)
  }

  /** `adaptToRejection`: the adjustment, if any. */
  function Adapt(sent: Request, rej: Rejection): Option<Adjustment> {
    if rej.status != 400 || !rej.invalidRequest then None
    else if rej.invalidSignature && HasThinking(sent.messages) then Some(AdjThinkingBlocks)
    else if sent.temperature.Some? && rej.refusesTemperature then Some(AdjTemperature)
    else if sent.outputEffort.Some? && rej.namesEffort && !rej.namesThinkingType then Some(AdjEffort)
    else if sent.cacheControl && rej.namesCacheControl then
      Some(if BlockMarkers(sent) > 0 then AdjCachingThisCall else AdjCaching)
    else if sent.thinking.Some? && sent.thinking.value != Enabled
            && rej.namesThinking && !rej.namesTemperature && !rej.namesBlock then Some(AdjThinking)
    else None
  }

  /** What the client knows after `adaptToRejection`. */
  function LearnFrom(l: Learned, sent: Request, rej: Rejection): Learned {
    match Adapt(sent, rej)
    case Some(AdjTemperature) =>
      if TemperatureRejectedForThinking(sent, rej) then l else l.(dropTemperature := true)
    case Some(AdjEffort) => l.(rejectedEffort := l.rejectedEffort + {sent.outputEffort.value})
    case Some(AdjCaching) => l.(dropAutoCaching := true)
    case Some(AdjThinking) => l.(rejectedThinking := l.rejectedThinking + {sent.thinking.value})
    case _ => l
  }

  // ---------- Why no adjustment recurs ----------

  const MAX_SENDS := 6

  /** The two cache adjustments exclude each other. */
  predicate OneCacheAdjustment(applied: set<Adjustment>) {
    !(AdjCaching in applied && AdjCachingThisCall in applied)
  }

  /** What an applied adjustment taught is still known. */
  predicate Remembered(l: Learned, call: Call, applied: set<Adjustment>) {
    && (AdjThinking in applied ==> call.effort != EffortDefault && ThinkingOf(call.effort) in l.rejectedThinking)
    && (AdjEffort in applied ==> LevelOf(call.effort).Some? && LevelOf(call.effort).value in l.rejectedEffort)
    && (AdjCaching in applied ==> l.dropAutoCaching)
  }

  /** Five adjustments at most, so the send after the last of them is still allowed. */
  lemma AtMostFiveAdjustments(applied: set<Adjustment>)
    requires OneCacheAdjustment(applied)
    ensures |applied| <= 5
  {
    var all := {AdjTemperature, AdjThinking, AdjEffort, AdjCaching, AdjCachingThisCall, AdjThinkingBlocks};
    var missing := if AdjCaching in applied then AdjCachingThisCall else AdjCaching;
    forall a | a in applied
      ensures a in all - {missing}
    {
      match a case AdjTemperature => case _ =>
    }
    assert |all - {missing}| == 5;
    SubsetSize(applied, all - {missing});
  }

  /** The request does not carry what an applied adjustment removed. */
  predicate Avoids(sent: Request, call: Call, applied: set<Adjustment>) {
    && (AdjThinkingBlocks in applied ==> !HasThinking(sent.messages))
    && (AdjTemperature in applied ==> sent.temperature.None?)
    && (AdjEffort in applied ==> sent.outputEffort.None?)
    && (AdjCaching in applied || AdjCachingThisCall in applied ==> !sent.cacheControl)
    && (AdjThinking in applied ==> sent.thinking.None? || sent.thinking.value == Enabled)
    && (sent.outputEffort.Some? ==> sent.outputEffort == LevelOf(call.effort))
    && (sent.thinking.Some? && sent.thinking.value != Enabled ==>
          call.effort != EffortDefault && sent.thinking.value == ThinkingOf(call.effort))
  }

  lemma BuildAvoids(temp: Learned, effort: Learned, cache: Learned, call: Call, applied: set<Adjustment>)
    requires Remembered(effort, call, applied) && Remembered(cache, call, applied)
    ensures Avoids(Build(temp, effort, cache, call, applied), call, applied)
  {
    StripKeepsTheRest(call.messages);
  }

  /**
   A rejection of a request built after an adjustment never calls for that
   adjustment again, nor for the other cache adjustment, whatever other calls have
   learned since; and what it does teach is remembered.
   */
  lemma AdjustmentIsFresh(sent: Request, call: Call, applied: set<Adjustment>, now: Learned, rej: Rejection)
    requires Avoids(sent, call, applied) && Remembered(now, call, applied) && OneCacheAdjustment(applied)
    ensures var a, l := Adapt(sent, rej), LearnFrom(now, sent, rej);
      && Grows(now, l)
      && (a.Some? ==>
            && a.value !in applied && OneCacheAdjustment(applied + {a.value})
            && Remembered(l, call, applied + {a.value}))
  {
  }

  /**
   What a request carries does not simply shrink: a rejection of adaptive thinking
   brings back the temperature that thinking had displaced.
   */
  lemma TemperatureCanReappear(call: Call, rej: Rejection)
    requires call.effort == High && !call.extendedThinking && call.temperature == Some(TempOther(0))
    requires rej == Rejection(400, true, false, false, false, true, false, true, false, false)
    ensures var first := Build(NOTHING, NOTHING, NOTHING, call, {});
      var l := LearnFrom(NOTHING, first, rej);
      && first.temperature == None && Adapt(first, rej) == Some(AdjThinking)
      && Build(l, l, l, call, {AdjThinking}).temperature == call.temperature
  {
  }

  // ---------- What a rejection makes of the next request ----------

  /** Thinking that may be what a temperature rejection is about. */
  predicate ThinkingToBlame(sent: Request, rej: Rejection) {
    sent.thinking == Some(Enabled) || (sent.thinking.Some? && rej.namesThinking)
  }

  /**
   What is made of a rejection, told by the request that follows it and what the client
   knows before and after: exactly the parameter refused goes, and nothing else but a
   temperature that adaptive thinking had displaced comes back.
   */
  predicate Answers(call: Call, sent: Request, rej: Rejection, before: Learned, after: Learned, next: Request) {
    if rej.invalidSignature && HasThinking(sent.messages) then
      && next == sent.(messages := next.messages) && after == before
      && Blocks(next.messages) == WithoutThinking(Blocks(sent.messages)) && !HasThinking(next.messages)
    else if sent.temperature.Some? && rej.refusesTemperature then
      && next == sent.(temperature := None)
      && after == (if ThinkingToBlame(sent, rej) then before else before.(dropTemperature := true))
    else if sent.outputEffort.Some? && rej.namesEffort && !rej.namesThinkingType then
      && next == sent.(outputEffort := None)
      && after == before.(rejectedEffort := before.rejectedEffort + {sent.outputEffort.value})
    else if sent.cacheControl && rej.namesCacheControl then
      && next == sent.(cacheControl := false)
      && after == (if BlockMarkers(sent) > 0 then before else before.(dropAutoCaching := true))
    else
      && sent.thinking.Some? && next == sent.(thinking := None, temperature := next.temperature)
      && (next.temperature == sent.temperature || next.temperature == call.temperature)
      && after == before.(rejectedThinking := before.rejectedThinking + {sent.thinking.value})
  }

  /** The rejections a resend can answer: they name something the request carried. */
  predicate Answerable(sent: Request, rej: Rejection) {
    && rej.status == 400 && rej.invalidRequest
    && (|| (rej.invalidSignature && HasThinking(sent.messages))
        || (sent.temperature.Some? && rej.refusesTemperature)
        || (sent.outputEffort.Some? && rej.namesEffort && !rej.namesThinkingType)
        || (sent.cacheControl && rej.namesCacheControl)
        || (sent.thinking.Some? && sent.thinking.value != Enabled
            && rej.namesThinking && !rej.namesTemperature && !rej.namesBlock))
  }

  /** Any other rejection teaches the client nothing and calls for nothing. */
  lemma UnanswerableTeachesNothing(sent: Request, rej: Rejection, before: Learned)
    ensures Adapt(sent, rej).None? <==> !Answerable(sent, rej)
    ensures !Answerable(sent, rej) ==> LearnFrom(before, sent, rej) == before
  {
  }

  /** What a call sends after some adjustments, nothing else running. */
  function RequestAfter(l: Learned, call: Call, applied: set<Adjustment>): Request { Build(l, l, l, call, applied) }

  lemma NextMessages(l: Learned, call: Call, applied: set<Adjustment>)
    requires AdjThinkingBlocks !in applied
    ensures var sent, next := RequestAfter(l, call, applied), RequestAfter(l, call, applied + {AdjThinkingBlocks});
      && next == sent.(messages := next.messages)
      && Blocks(next.messages) == WithoutThinking(Blocks(sent.messages)) && !HasThinking(next.messages)
  {
    StripKeepsTheRest(call.messages);
  }

  /** The rejection an adjustment is made for is answered by the request built next. */
  lemma RejectionIsAnswered(l: Learned, call: Call, applied: set<Adjustment>, rej: Rejection)
    requires Remembered(l, call, applied) && OneCacheAdjustment(applied)
    requires Answerable(RequestAfter(l, call, applied), rej)
    ensures var sent := RequestAfter(l, call, applied);
      var a, after := Adapt(sent, rej), LearnFrom(l, sent, rej);
      a.Some? && Answers(call, sent, rej, l, after, RequestAfter(after, call, applied + {a.value}))
  {
    var sent := RequestAfter(l, call, applied);
    BuildAvoids(l, l, l, call, applied);
    AdjustmentIsFresh(sent, call, applied, l, rej);
    match Adapt(sent, rej).value
    case AdjThinkingBlocks => NextMessages(l, call, applied);
    case _ =>
  }

  /** What was learned for good holds for every later request of every call. */
  lemma LearnedForGood(l: Learned, m: Learned, call: Call, applied: set<Adjustment>)
    requires Grows(l, m)
    ensures var r := RequestAfter(m, call, applied);
      && (l.dropTemperature ==> r.temperature.None?)
      && (l.dropAutoCaching ==> !r.cacheControl)
      && (r.outputEffort.Some? ==> r.outputEffort.value !in l.rejectedEffort)
      && (r.thinking.Some? && r.thinking.value in l.rejectedThinking ==> r.thinking == Some(Enabled) && call.extendedThinking)
  {
  }

  /** A client that has learned nothing sends everything a call asks for, but for a temperature thinking excludes. */
  lemma NothingIsDroppedAtFirst(call: Call)
    ensures var r := RequestAfter(NOTHING, call, {});
      && r.messages == call.messages && r.toolMarks == call.toolMarks && r.systemMarks == call.systemMarks
      && r.thinking == (if call.extendedThinking then Some(Enabled) else if call.effort == EffortDefault then None
                        else if call.effort == EffortNone then Some(Disabled) else Some(Adaptive))
      && r.outputEffort == (if call.effort == Minimal || call.effort == Low then Some(LevelLow)
                            else if call.effort == Medium then Some(LevelMedium)
                            else if call.effort == High then Some(LevelHigh)
                            else if call.effort == XHigh then Some(LevelXHigh)
                            else if call.effort == Max then Some(LevelMax) else None)
      && r.temperature == (if r.thinking == Some(Adaptive) && call.temperature != Some(TempOne) then None else call.temperature)
      && (r.cacheControl <==> call.autoCaching && BlockMarkers(r) < 4)
  {
  }

  // ---------- The request, as the source mutates it ----------

  class WireRequest {
    var messages: seq<Message>
    var temperature: Option<Temperature>
    var thinking: Option<ThinkingType>
    var outputEffort: Option<Level>
    var cacheControl: bool
    var toolMarks: nat
    var systemMarks: nat

    function Value(): Request
      reads this
    {
      Request(messages, temperature, thinking, outputEffort, cacheControl, toolMarks, systemMarks)
    }

    constructor (messages: seq<Message>, toolMarks: nat, systemMarks: nat)
      ensures Value() == Request(messages, None, None, None, false, toolMarks, systemMarks)
    {
      this.messages, this.toolMarks, this.systemMarks := messages, toolMarks, systemMarks;
      temperature, thinking, outputEffort, cacheControl := None, None, None, false;
    }
  }

  method HasThinkingBlocks(aReq: WireRequest) returns (found: bool)
    ensures found <==> HasThinking(aReq.messages)
  {
    for i := 0 to |aReq.messages|
      invariant forall k, j :: 0 <= k < i && 0 <= j < |aReq.messages[k].content| ==>
                  !aReq.messages[k].content[j].thinking
    {
      var m := aReq.messages[i];
      for j := 0 to |m.content|
        invariant forall k :: 0 <= k < j ==> !m.content[k].thinking
      {
        if m.content[j].thinking {
          return true;
        }
      }
    }
    return false;
  }

  method CountBlockMarkers(aReq: WireRequest) returns (n: nat)
    ensures n == BlockMarkers(aReq.Value())
  {
    var ms := aReq.messages;
    n := aReq.toolMarks + aReq.systemMarks;
    for i := 0 to |ms|
      invariant n == aReq.toolMarks + aReq.systemMarks + MessageMarks(ms[..i])
    {
      assert ms[..i + 1][..i] == ms[..i];
      var bs := ms[i].content;
      for j := 0 to |bs|
        invariant n == aReq.toolMarks + aReq.systemMarks + MessageMarks(ms[..i]) + MarksIn(bs[..j])
      {
        assert bs[..j + 1][..j] == bs[..j];
        if bs[j].marked {
          n := n + 1;
        }
      }
      assert bs[..|bs|] == bs;
    }
    assert ms[..|ms|] == ms;
  }

  method NonThinking(bs: seq<MsgBlock>) returns (kept: seq<MsgBlock>)
    ensures kept == Kept(bs)
  {
    kept := [];
    for j := 0 to |bs|
      invariant kept == Kept(bs[..j])
    {
      assert bs[..j + 1][..j] == bs[..j];
      if !bs[j].thinking {
        kept := kept + [bs[j]];
      }
    }
    assert bs[..|bs|] == bs;
  }

  method StripThinkingBlocks(aReq: WireRequest)
    modifies aReq
    ensures aReq.Value() == old(aReq.Value()).(messages := Stripped(old(aReq.messages)))
  {
    var ms := aReq.messages;
    var msgs: seq<Message> := [];
    for i := 0 to |ms|
      invariant msgs == Stripped(ms[..i]) && aReq.Value() == old(aReq.Value())
    {
      assert ms[..i + 1][..i] == ms[..i];
      var m := ms[i];
      assert Stripped(ms[..i + 1]) == Stripped(ms[..i]) + Remains(m);
      var kept := NonThinking(m.content);
      if |kept| == 0 && |m.content| > 0 {
        continue;
      }
      msgs := msgs + [m.(content := kept)];
    }
    assert ms[..|ms|] == ms;
    aReq.messages := msgs;
  }

  // ---------- The client ----------

  datatype Reply = Accepted | OtherFailure | Rejected(rej: Rejection)

  datatype Outcome = Succeeded | FailedOutright | NoAdjustment | RepeatedAdjustment | OutOfSends

  class Client {
    var dropTemperature: bool
    var dropAutoCaching: bool
    var rejectedThinking: set<ThinkingType>
    var rejectedEffort: set<Level>

    function State(): Learned
      reads this
    {
      Learned(dropTemperature, dropAutoCaching, rejectedThinking, rejectedEffort)
    }

    constructor ()
      ensures State() == NOTHING
    {
      dropTemperature, dropAutoCaching, rejectedThinking, rejectedEffort := false, false, {}, {};
    }

    /** `setReasoningEffort`. */
    method SetReasoningEffort(aReq: WireRequest, call: Call)
      requires aReq.thinking == (if call.extendedThinking then Some(Enabled) else None) && aReq.outputEffort == None
      modifies aReq
      ensures aReq.Value() == old(aReq.Value()).(
        thinking := BuiltThinking(State(), call), outputEffort := BuiltEffort(State(), call))
    {
      if call.effort == EffortDefault {
        return;
      }
      var thinking := Adaptive;
      if call.effort == EffortNone {
        thinking := Disabled;
      }
      if aReq.thinking.None? && thinking !in rejectedThinking {
        aReq.thinking := Some(thinking);
      }
      var level := LevelOf(call.effort);
      if level.Some? && level.value !in rejectedEffort {
        aReq.outputEffort := level;
      }
    }

    /** The adjustable part of `buildChatRequest`. */
    method BuildChatRequest(call: Call) returns (aReq: WireRequest)
      ensures fresh(aReq) && aReq.Value() == Build(State(), State(), State(), call, {})
    {
      aReq := new WireRequest(call.messages, call.toolMarks, call.systemMarks);
      if dropTemperature {
        aReq.temperature := None;
      } else {
        aReq.temperature := call.temperature;
      }
      if call.extendedThinking {
        aReq.thinking := Some(Enabled);
      }
      SetReasoningEffort(aReq, call);
      if aReq.thinking == Some(Adaptive) && aReq.temperature.Some? && aReq.temperature.value != TempOne {
        aReq.temperature := None;
      }
      if call.autoCaching && !dropAutoCaching {
        var n := CountBlockMarkers(aReq);
        if n < MAX_CACHE_BREAKPOINTS {
          aReq.cacheControl := true;
        }
      }
    }

    /** `omitForCall`. */
    method OmitForCall(aReq: WireRequest, applied: set<Adjustment>, ghost call: Call)
      requires aReq.Value() == Build(State(), State(), State(), call, {})
      modifies aReq
      ensures aReq.Value() == Build(State(), State(), State(), call, applied)
    {
      if AdjTemperature in applied {
        aReq.temperature := None;
      }
      if AdjCachingThisCall in applied {
        aReq.cacheControl := false;
      }
      if AdjThinkingBlocks in applied {
        StripThinkingBlocks(aReq);
      }
    }

    /** `adaptToRejection`. */
    method AdaptToRejection(sent: WireRequest, rej: Rejection) returns (adj: Option<Adjustment>)
      modifies this
      ensures adj == Adapt(sent.Value(), rej)
      ensures State() == LearnFrom(old(State()), sent.Value(), rej)
    {
      if rej.status != 400 || !rej.invalidRequest {
        return None;
      }
      var hasThinking := HasThinkingBlocks(sent);
      if rej.invalidSignature && hasThinking {
        return Some(AdjThinkingBlocks);
      }
      if sent.temperature.Some? && rej.refusesTemperature {
        if !TemperatureRejectedForThinking(sent.Value(), rej) {
          dropTemperature := true;
        }
        return Some(AdjTemperature);
      }
      if sent.outputEffort.Some? && rej.namesEffort && !rej.namesThinkingType {
        rejectedEffort := rejectedEffort + {sent.outputEffort.value};
        return Some(AdjEffort);
      }
      if sent.cacheControl && rej.namesCacheControl {
        var n := CountBlockMarkers(sent);
        if n > 0 {
          return Some(AdjCachingThisCall);
        }
        dropAutoCaching := true;
        return Some(AdjCaching);
      }
      if sent.thinking.Some? && sent.thinking.value != Enabled
         && rej.namesThinking && !rej.namesTemperature && !rej.namesBlock {
        rejectedThinking := rejectedThinking + {sent.thinking.value};
        return Some(AdjThinking);
      }
      return None;
    }

    /**
     The resend loop of `Chat` and `ChatStream`, with nothing else running. The trace
     says what was sent and answered: the outcome is that of the last reply, every
     reply before it is a rejection which the next request answers, there are at most
     six, and neither the `applied` check nor the send limit ever ends the loop.
     */
    method Chat(call: Call, server: nat -> Reply) returns (outcome: Outcome, sends: nat, trace: seq<Exchange>)
      modifies this
      ensures 1 <= sends <= 6 && |trace| == sends && Grows(old(State()), State())
      ensures outcome != RepeatedAdjustment && outcome != OutOfSends
      ensures Conversation(call, old(State()), trace) && forall i :: 0 <= i < sends ==> trace[i].reply == server(i)
      ensures Ending(trace, outcome, State())
    {
      var applied: set<Adjustment> := {};
      var done: Option<Outcome> := None;
      sends, trace := 0, [];
      while done.None?
        invariant |trace| == sends <= MAX_SENDS && forall i :: 0 <= i < sends ==> trace[i].reply == server(i)
        invariant Running(call, old(State()), trace, State(), applied, done)
        decreases done.None?, MAX_SENDS - sends
      {
        done, applied, trace := Turn(call, applied, trace, server(sends), old(State()));
        sends := sends + 1;
      }
      outcome := done.value;
    }

    /** One turn of the loop: build, send, and return or adapt to the rejection. */
    method Turn(call: Call, applied: set<Adjustment>, trace: seq<Exchange>, reply: Reply, ghost start: Learned)
      returns (done: Option<Outcome>, applied': set<Adjustment>, trace': seq<Exchange>)
      requires Running(call, start, trace, State(), applied, None)
      modifies this
      ensures trace' == trace + [Exchange(old(State()), RequestAfter(old(State()), call, applied), reply)]
      ensures |trace| < MAX_SENDS && Running(call, start, trace', State(), applied', done)
    {
      var aReq := BuildChatRequest(call);
      OmitForCall(aReq, applied, call);
      applied', trace' := applied, trace + [Exchange(State(), aReq.Value(), reply)];
      SentNext(call, start, trace, State(), applied, reply);
      assert trace'[..|trace|] == trace;
      if reply.OtherFailure? {
        return Some(FailedOutright), applied', trace';
      }
      if reply.Accepted? {
        ConfirmAdjustments(applied);
        return Some(Succeeded), applied', trace';
      }
      UnanswerableTeachesNothing(aReq.Value(), reply.rej, State());
      if Answerable(aReq.Value(), reply.rej) {
        ResentOnce(call, start, trace, State(), applied, reply.rej);
      }
      var adj := AdaptToRejection(aReq, reply.rej);
      if adj.None? {
        return Some(NoAdjustment), applied', trace';
      }
      if adj.value in applied {
        return Some(RepeatedAdjustment), applied', trace';
      }
      applied' := applied + {adj.value};
      AtMostFiveAdjustments(applied');
      done := if |trace'| < MAX_SENDS then None else Some(OutOfSends);
    }

    method ConfirmAdjustments(applied: set<Adjustment>)
      modifies this
      ensures State() == if AdjCachingThisCall in applied then old(State()).(dropAutoCaching := true) else old(State())
    {
      if AdjCachingThisCall in applied {
        dropAutoCaching := true;
      }
    }
  }

  // ---------- The trace of a call ----------

  /** A request, what the client knew when it built it, and the reply to it. */
  datatype Exchange = Exchange(knew: Learned, sent: Request, reply: Reply)

  /** The first request is the one the call asks for, and each later one answers the rejection before it. */
  predicate Conversation(call: Call, start: Learned, trace: seq<Exchange>) {
    && (trace != [] ==> trace[0].knew == start && trace[0].sent == RequestAfter(start, call, {}))
    && forall i :: 0 <= i < |trace| - 1 ==>
         && trace[i].reply.Rejected? && Answerable(trace[i].sent, trace[i].reply.rej)
         && Answers(call, trace[i].sent, trace[i].reply.rej, trace[i].knew, trace[i + 1].knew, trace[i + 1].sent)
  }

  /** Some rejection was answered by leaving out the top-level marker for the call alone. */
  predicate MarkerDropped(trace: seq<Exchange>) {
    exists i :: 0 <= i < |trace| && trace[i].reply.Rejected?
      && Adapt(trace[i].sent, trace[i].reply.rej) == Some(AdjCachingThisCall)
  }

  /** The outcome is that of the last reply, and only a success after a dropped marker teaches anything more. */
  predicate Ending(trace: seq<Exchange>, outcome: Outcome, now: Learned) {
    && trace != [] && outcome != RepeatedAdjustment && outcome != OutOfSends
    && var last := trace[|trace| - 1];
       && (outcome == Succeeded <==> last.reply.Accepted?)
       && (outcome == FailedOutright <==> last.reply.OtherFailure?)
       && (outcome == NoAdjustment <==> last.reply.Rejected? && !Answerable(last.sent, last.reply.rej))
       && now == (if outcome == Succeeded && MarkerDropped(trace[..|trace| - 1])
                  then last.knew.(dropAutoCaching := true) else last.knew)
  }

  /** Before a send: everything sent so far was rejected, and the request to be built answers the last rejection. */
  predicate Resent(call: Call, start: Learned, trace: seq<Exchange>, now: Learned, applied: set<Adjustment>) {
    && |applied| == |trace| && OneCacheAdjustment(applied) && Remembered(now, call, applied)
    && Conversation(call, start, trace)
    && (trace == [] ==> now == start && applied == {})
    && (trace != [] ==>
          var last := trace[|trace| - 1];
          && last.reply.Rejected? && Answerable(last.sent, last.reply.rej)
          && Answers(call, last.sent, last.reply.rej, last.knew, now, RequestAfter(now, call, applied)))
    && (AdjCachingThisCall in applied <==> MarkerDropped(trace))
  }

  /** The loop of a call: still going, or ended by its last reply. */
  predicate Running(
    call: Call, start: Learned, trace: seq<Exchange>, now: Learned, applied: set<Adjustment>, done: Option<Outcome>)
  {
    && Grows(start, now)
    && if done.None? then |trace| < MAX_SENDS && Resent(call, start, trace, now, applied)
       else Conversation(call, start, trace) && Ending(trace, done.value, now)
  }

  lemma SentNext(call: Call, start: Learned, trace: seq<Exchange>, now: Learned, applied: set<Adjustment>, reply: Reply)
    requires Resent(call, start, trace, now, applied)
    ensures Conversation(call, start, trace + [Exchange(now, RequestAfter(now, call, applied), reply)])
  {
  }

  lemma ResentOnce(call: Call, start: Learned, trace: seq<Exchange>, now: Learned, applied: set<Adjustment>, rej: Rejection)
    requires Resent(call, start, trace, now, applied) && Answerable(RequestAfter(now, call, applied), rej)
    ensures var sent := RequestAfter(now, call, applied);
      var a, after := Adapt(sent, rej), LearnFrom(now, sent, rej);
      && a.Some? && a.value !in applied && Grows(now, after)
      && Resent(call, start, trace + [Exchange(now, sent, Rejected(rej))], after, applied + {a.value})
  {
    var sent := RequestAfter(now, call, applied);
    BuildAvoids(now, now, now, call, applied);
    AdjustmentIsFresh(sent, call, applied, now, rej);
    RejectionIsAnswered(now, call, applied, rej);
    SentNext(call, start, trace, now, applied, Rejected(rej));
    MarkerStep(trace, Exchange(now, sent, Rejected(rej)));
  }

  lemma MarkerStep(trace: seq<Exchange>, x: Exchange)
    requires x.reply.Rejected?
    ensures MarkerDropped(trace + [x]) <==> MarkerDropped(trace) || Adapt(x.sent, x.reply.rej) == Some(AdjCachingThisCall)
  {
    var t := trace + [x];
    assert t[|trace|] == x && forall i :: 0 <= i < |trace| ==> t[i] == trace[i];
  }
}
