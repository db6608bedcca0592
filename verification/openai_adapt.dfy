/**
 The self-adapting request loop of the OpenAI provider
 (`llm/provider/openai/adapt.go`) and the parts of its request builders that
 depend on what has been learned.

 The server is an adversary: any status, parameter, code and message may come
 back for any request. Message texts enter only through the two phrases the
 client looks for and through the caller's extra fields, all arbitrary booleans.
 */
module OpenAIAdapt {
  import opened Common

  // ---------- Reasoning effort ----------

  datatype Effort = EffortDefault | EffortNone | Minimal | Low | Medium | High | XHigh | Max

  const EFFORT_ORDER := [EffortNone, Minimal, Low, Medium, High, XHigh, Max]
  const MEDIUM := 3

  function Rank(e: Effort): nat
    requires e != EffortDefault
    ensures Rank(e) < 7 && EFFORT_ORDER[Rank(e)] == e
  {
    match e
    case EffortNone => 0
    case Minimal => 1
    case Low => 2
    case Medium => 3
    case High => 4
    case XHigh => 5
    case Max => 6
  }

  /** How many steps a level is from medium. */
  function Distance(e: Effort): nat
    requires e != EffortDefault
  {
    if Rank(e) <= MEDIUM then MEDIUM - Rank(e) else Rank(e) - MEDIUM
  }

  function Towards(e: Effort): Effort {
    match e
    case EffortNone => Minimal
    case Minimal => Low
    case Low => Medium
    case High => Medium
    case XHigh => High
    case Max => XHigh
    case _ => EffortDefault
  }

  lemma TowardsApproaches(e: Effort)
    requires e != EffortDefault
    ensures e == Medium <==> Towards(e) == EffortDefault
    ensures e != Medium ==> Distance(Towards(e)) == Distance(e) - 1 && SameSide(e, Towards(e))
  {
  }

  /** `towardsMedium`: a search of the level order. */
  method TowardsMedium(effort: Effort) returns (r: Effort)
    ensures r == Towards(effort)
  {
    for i := 0 to |EFFORT_ORDER|
      invariant forall j :: 0 <= j < i ==> EFFORT_ORDER[j] != effort || effort == Medium
    {
      if EFFORT_ORDER[i] != effort {
        continue;
      }
      if i < MEDIUM {
        return EFFORT_ORDER[i + 1];
      }
      if i > MEDIUM {
        return EFFORT_ORDER[i - 1];
      }
    }
    assert effort == Medium || effort == EffortDefault by {
      if effort != EffortDefault {
        assert EFFORT_ORDER[Rank(effort)] == effort;
      }
    }
    return EffortDefault;
  }

  // ---------- What a client learns ----------

  datatype Learned = Learned(
    maxCompletionTokens: bool, responsesAPI: bool,
    dropTemperature: bool, dropTemperatureNone: bool, dropTemperatureReasoning: bool,
    rejectedEffort: set<Effort>, effortUnsupported: bool)

  const LEVELS: set<Effort> := {EffortNone, Minimal, Low, Medium, High, XHigh, Max}
  const NOTHING := Learned(false, false, false, false, false, {}, false)

  function One(b: bool): nat { if b then 1 else 0 }

  function Flags(l: Learned): nat {
    One(l.maxCompletionTokens) + One(l.responsesAPI) + One(l.effortUnsupported)
    + One(l.dropTemperature) + One(l.dropTemperatureNone) + One(l.dropTemperatureReasoning)
  }

  /** How many of the thirteen facts are known: six flags and seven levels. */
  function Facts(l: Learned): nat { Flags(l) + |l.rejectedEffort * LEVELS| }

  lemma AtMostThirteenFacts(l: Learned)
    ensures Facts(l) <= 13
  {
    SubsetSize(l.rejectedEffort * LEVELS, LEVELS);
    assert |LEVELS| == 7;
  }

  /** Knowledge only grows: `m` knows everything `l` does. */
  predicate Grows(l: Learned, m: Learned) {
    && (l.maxCompletionTokens ==> m.maxCompletionTokens)
    && (l.responsesAPI ==> m.responsesAPI)
    && (l.dropTemperature ==> m.dropTemperature)
    && (l.dropTemperatureNone ==> m.dropTemperatureNone)
    && (l.dropTemperatureReasoning ==> m.dropTemperatureReasoning)
    && l.rejectedEffort <= m.rejectedEffort
    && (l.effortUnsupported ==> m.effortUnsupported)
  }

  datatype TempKind = TempDefault | TempNone | TempReasoning

  function KindOf(e: Effort): TempKind {
    match e
    case EffortDefault => TempDefault
    case EffortNone => TempNone
    case _ => TempReasoning
  }

  /** `learned.temperatureFlag`. */
  function TemperatureFlag(l: Learned, k: TempKind): bool {
    match k
    case TempDefault => l.dropTemperature
    case TempNone => l.dropTemperatureNone
    case TempReasoning => l.dropTemperatureReasoning
  }

  // ---------- The effort that is sent ----------

  function Walk(l: Learned, e: Effort): Effort
    decreases if e == EffortDefault then 0 else 1 + Distance(e)
  {
    if e != EffortDefault && e in l.rejectedEffort then
      TowardsApproaches(e);
      Walk(l, Towards(e))
    else e
  }

  /** What `reasoningEffort` returns. */
  function EffortToSend(l: Learned, requested: Effort, omit: bool): Effort {
    if omit || requested == EffortDefault || l.effortUnsupported then EffortDefault else Walk(l, requested)
  }

  predicate SameSide(e: Effort, f: Effort) {
    e != EffortDefault && f != EffortDefault &&
    ((Rank(e) <= Rank(f) <= MEDIUM) || (MEDIUM <= Rank(f) <= Rank(e)))
  }

  /** The levels from `e` towards medium, medium included. */
  predicate OnWalk(e: Effort, f: Effort) { SameSide(e, f) }

  lemma {:induction false} WalkIsFirstAccepted(l: Learned, e: Effort)
    requires e != EffortDefault
    ensures var r := Walk(l, e);
      if r == EffortDefault then (forall f :: OnWalk(e, f) ==> f in l.rejectedEffort)
      else (&& OnWalk(e, r) && r !in l.rejectedEffort
            && forall f :: OnWalk(e, f) && Distance(f) > Distance(r) ==> f in l.rejectedEffort)
    decreases Distance(e)
  {
    TowardsApproaches(e);
    if e in l.rejectedEffort && e != Medium {
      WalkIsFirstAccepted(l, Towards(e));
      assert forall f :: OnWalk(e, f) ==> f == e || OnWalk(Towards(e), f);
    } else {
      assert forall f :: OnWalk(e, f) && Distance(f) > Distance(e) ==> f == e;
      assert e == Medium ==> forall f :: OnWalk(e, f) ==> f == e;
    }
  }

  /**
   The effort sent is the first level not rejected on the walk from the requested
   one to medium, never past medium, and it is empty exactly when the effort is
   unset, omitted for the call, unsupported, or rejected all the way.
   */
  lemma EffortSentIsFirstAccepted(l: Learned, requested: Effort, omit: bool)
    ensures var r := EffortToSend(l, requested, omit);
      && (r == EffortDefault <==>
            omit || requested == EffortDefault || l.effortUnsupported
            || forall f :: OnWalk(requested, f) ==> f in l.rejectedEffort)
      && (r != EffortDefault ==>
            && OnWalk(requested, r) && r !in l.rejectedEffort
            && forall f :: OnWalk(requested, f) && Distance(f) > Distance(r) ==> f in l.rejectedEffort)
  {
    if requested != EffortDefault {
      WalkIsFirstAccepted(l, requested);
    }
  }

  // ---------- Requests and rejections ----------

  /** What one Chat call asks for; `effort` already falls back to the client default. */
  datatype Call = Call(effort: Effort, maxTokens: bool, temperature: bool, tools: bool)

  /** What a request carried, as its `rejection` records it. */
  datatype Sent = Sent(responses: bool, maxTokens: bool, temperature: bool, tools: bool, effort: Effort)

  datatype ErrorBody = ErrorBody(
    status: int, param: string, code: string,
    namesEffort: bool, namesResponsesAPI: bool, namesExtraField: bool)

  datatype Reply = Accepted | OtherFailure | Rejected(body: ErrorBody)

  /** The knowledge read while one request is built: each read takes the lock anew. */
  datatype Views = Views(route: Learned, flags: Learned, effort: Learned, temperature: Learned)

  function Build(forced: Option<bool>, v: Views, call: Call, omitEffort: bool): Sent {
    var responses := if forced.Some? then forced.value else v.route.responsesAPI;
    var effort := EffortToSend(v.effort, call.effort, omitEffort);
    Sent(responses,
         !responses && call.maxTokens && !v.flags.maxCompletionTokens,
         call.temperature && !TemperatureFlag(v.temperature, KindOf(effort)),
         call.tools, effort)
  }

  /** What is done about a rejection: the (param, action) pair `classify` returns. */
  datatype Adjustment =
    | AdjustMaxTokens
    | AdjustTemperature(kind: TempKind)
    | AdjustEffortLevel(level: Effort)
    | AdjustEffortAll
    | AdjustEffortThisCall
    | AdjustEndpoint

  predicate RejectsReasoningEffort(sent: Sent, e: ErrorBody) {
    && e.status == 400 && sent.effort != EffortDefault
    && (e.param in {"reasoning_effort", "reasoning.effort", "reasoning"} || (e.param == "" && e.namesEffort))
  }

  function Classify(forced: Option<bool>, sent: Sent, e: ErrorBody): Option<Adjustment> {
    if e.status == 400 && sent.maxTokens && e.param == "max_tokens" && e.code == "unsupported_parameter" then
      Some(AdjustMaxTokens)
    else if e.status == 400 && sent.temperature && e.param == "temperature"
            && (e.code == "unsupported_value" || e.code == "unsupported_parameter") then
      Some(AdjustTemperature(KindOf(sent.effort)))
    else if RejectsReasoningEffort(sent, e) then
      if e.param == "" && sent.tools then Some(AdjustEffortThisCall)
      else if e.code == "unsupported_value" then Some(AdjustEffortLevel(sent.effort))
      else if e.code == "unsupported_parameter" || e.code == "unknown_parameter" then Some(AdjustEffortAll)
      else None
    else if !sent.responses && e.param == "" && (e.status == 400 || e.status == 404)
            && forced.None? && e.namesResponsesAPI then
      Some(AdjustEndpoint)
    else None
  }

  /** What `learn` and `learnEffort` record. */
  function Learn(l: Learned, a: Adjustment): Learned {
    match a
    case AdjustMaxTokens => l.(maxCompletionTokens := true)
    case AdjustTemperature(TempDefault) => l.(dropTemperature := true)
    case AdjustTemperature(TempNone) => l.(dropTemperatureNone := true)
    case AdjustTemperature(TempReasoning) => l.(dropTemperatureReasoning := true)
    case AdjustEffortLevel(e) => l.(rejectedEffort := l.rejectedEffort + {e})
    case AdjustEffortAll => l.(effortUnsupported := true)
    case AdjustEffortThisCall => l
    case AdjustEndpoint => l.(responsesAPI := true)
  }

  /** The adjustment is in force: it is remembered, or applies to the call at hand. */
  predicate InForce(l: Learned, omitEffort: bool, a: Adjustment) {
    match a
    case AdjustMaxTokens => l.maxCompletionTokens
    case AdjustTemperature(k) => TemperatureFlag(l, k)
    case AdjustEffortLevel(e) => e in l.rejectedEffort
    case AdjustEffortAll => l.effortUnsupported
    case AdjustEffortThisCall => omitEffort
    case AdjustEndpoint => l.responsesAPI
  }

  lemma {:induction false} WalkAvoidsRejected(l: Learned, e: Effort)
    ensures Walk(l, e) !in l.rejectedEffort || Walk(l, e) == EffortDefault
    decreases if e == EffortDefault then 0 else 1 + Distance(e)
  {
    if e != EffortDefault && e in l.rejectedEffort {
      TowardsApproaches(e);
      WalkAvoidsRejected(l, Towards(e));
    }
  }

  predicate Ordered(l: Learned, v: Views, now: Learned) {
    Grows(l, v.route) && Grows(v.route, v.flags) && Grows(v.flags, v.effort)
    && Grows(v.effort, v.temperature) && Grows(v.temperature, now)
  }

  /**
   A rejection never calls for an adjustment that was already in force when the
   call began to build the request, whatever other calls learn in the meantime.
   */
  lemma AdjustmentIsFresh(forced: Option<bool>, l: Learned, v: Views, now: Learned, call: Call, omit: bool,
                          e: ErrorBody, a: Adjustment)
    requires Ordered(l, v, now) && InForce(l, omit, a)
    ensures Classify(forced, Build(forced, v, call, omit), e) != Some(a)
  {
    WalkAvoidsRejected(v.effort, call.effort);
  }

  // ---------- One call ----------

  const MAX_SENDS := 4

  datatype Status = Sending | Succeeded | Returned(adjusted: Option<Adjustment>)

  /** The state of one call between sends; `sends` counts the requests made. */
  datatype CallState = CallState(
    learned: Learned, applied: set<Adjustment>, omitEffort: bool, stepped: bool, sends: nat, status: Status)

  function StartCall(l: Learned): CallState { CallState(l, {}, false, false, 0, Sending) }

  /** What a reply means for a call: success, an error to return, or an adjustment to make. */
  datatype Verdict = Success | GiveUp | Adjust(adjustment: Adjustment)

  function Judge(forced: Option<bool>, call: Call, omitEffort: bool, v: Views, reply: Reply): Verdict {
    match reply
    case Accepted => Success
    case OtherFailure => GiveUp
    case Rejected(body) =>
      if body.namesExtraField then GiveUp
      else
        var a := Classify(forced, Build(forced, v, call, omitEffort), body);
        if a.None? then GiveUp else Adjust(a.value)
  }

  /** The bookkeeping that follows; `now` is the knowledge when the reply is handled. */
  function Handle(s: CallState, now: Learned, verdict: Verdict): CallState
    requires s.status == Sending
  {
    var t := s.(sends := s.sends + 1, learned := now);
    match verdict
    case Success => t.(status := Succeeded)
    case GiveUp => t.(status := Returned(None))
    case Adjust(a) =>
      if a in s.applied then t.(status := Returned(None))
      else
        var level := a.AdjustEffortLevel?;
        t.(applied := s.applied + {a},
           omitEffort := s.omitEffort || (level && s.stepped) || a.AdjustEffortThisCall?,
           stepped := s.stepped || level,
           learned := Learn(now, a),
           status := if t.sends == MAX_SENDS then Returned(Some(a)) else Sending)
  }

  /** One pass of the loop in `sendWithAdjustments`. */
  function Attempt(forced: Option<bool>, call: Call, s: CallState, v: Views, now: Learned, reply: Reply): CallState
    requires s.status == Sending
  {
    Handle(s, now, Judge(forced, call, s.omitEffort, v, reply))
  }

  ghost predicate CallInv(s: CallState) {
    && s.sends <= MAX_SENDS
    && (s.status == Sending ==> s.sends < MAX_SENDS)
    && (forall a :: a in s.applied ==> InForce(s.learned, s.omitEffort, a))
  }

  lemma LearnPutsInForce(l: Learned, omit: bool, a: Adjustment)
    ensures Grows(l, Learn(l, a))
    ensures InForce(Learn(l, a), omit || a.AdjustEffortThisCall?, a)
  {
  }

  lemma InForceGrows(l: Learned, m: Learned, omit: bool, omit': bool, a: Adjustment)
    requires Grows(l, m) && (omit ==> omit') && InForce(l, omit, a)
    ensures InForce(m, omit', a)
  {
  }

  lemma HandleKeepsInv(s: CallState, now: Learned, verdict: Verdict)
    requires CallInv(s) && s.status == Sending && Grows(s.learned, now)
    ensures var t := Handle(s, now, verdict); CallInv(t) && Grows(now, t.learned)
  {
    var t := Handle(s, now, verdict);
    if verdict.Adjust? {
      LearnPutsInForce(now, s.omitEffort, verdict.adjustment);
    }
    forall a | a in s.applied
      ensures InForce(t.learned, t.omitEffort, a)
    {
      InForceGrows(s.learned, t.learned, s.omitEffort, t.omitEffort, a);
    }
  }

  lemma VerdictIsFresh(forced: Option<bool>, call: Call, s: CallState, v: Views, now: Learned, reply: Reply)
    requires CallInv(s) && Ordered(s.learned, v, now)
    ensures var d := Judge(forced, call, s.omitEffort, v, reply); d.Adjust? ==> d.adjustment !in s.applied
  {
    var d := Judge(forced, call, s.omitEffort, v, reply);
    if d.Adjust? && d.adjustment in s.applied {
      AdjustmentIsFresh(forced, s.learned, v, now, call, s.omitEffort, reply.body, d.adjustment);
    }
  }

  /**
   In every call, under any interference, no applied adjustment ever recurs, so the
   `applied` check never ends a call; no call exceeds `maxSends`; and the rejection
   that uses up the last send is learned all the same.
   */
  lemma AttemptKeepsInv(forced: Option<bool>, call: Call, s: CallState, v: Views, now: Learned, reply: Reply)
    requires CallInv(s) && s.status == Sending && Ordered(s.learned, v, now)
    ensures var t, d := Attempt(forced, call, s, v, now, reply), Judge(forced, call, s.omitEffort, v, reply);
      && CallInv(t) && Grows(now, t.learned) && t.sends == s.sends + 1
      && (d.Adjust? ==>
            && d.adjustment !in s.applied && t.applied == s.applied + {d.adjustment}
            && InForce(t.learned, t.omitEffort, d.adjustment))
      && (t.status == Returned(None) <==> d.GiveUp?)
  {
    GrowsThrough(s.learned, v, now);
    HandleKeepsInv(s, now, Judge(forced, call, s.omitEffort, v, reply));
    VerdictIsFresh(forced, call, s, v, now, reply);
  }

  lemma GrowsThrough(l: Learned, v: Views, now: Learned)
    requires Ordered(l, v, now)
    ensures Grows(l, now)
  {
  }

  /** One pass of a call while other calls run: what was read, and the reply. */
  datatype Round = Round(views: Views, now: Learned, reply: Reply)

  ghost predicate PossibleRounds(forced: Option<bool>, call: Call, s: CallState, rounds: seq<Round>)
    decreases |rounds|
  {
    rounds == [] ||
    (&& s.status == Sending && Ordered(s.learned, rounds[0].views, rounds[0].now)
     && PossibleRounds(forced, call, Attempt(forced, call, s, rounds[0].views, rounds[0].now, rounds[0].reply), rounds[1..]))
  }

  function AfterRounds(forced: Option<bool>, call: Call, s: CallState, rounds: seq<Round>): CallState
    requires PossibleRounds(forced, call, s, rounds)
    decreases |rounds|
  {
    if rounds == [] then s
    else AfterRounds(forced, call,
                     Attempt(forced, call, s, rounds[0].views, rounds[0].now, rounds[0].reply), rounds[1..])
  }

  /**
   Over every run of a call, with any number of other calls teaching the client in
   between, at most `maxSends` requests are made, each but the last applied a new
   adjustment, and every adjustment applied is in force at the end.
   */
  lemma {:induction false} EveryCallIsBounded(forced: Option<bool>, call: Call, s: CallState, rounds: seq<Round>)
    requires CallInv(s) && PossibleRounds(forced, call, s, rounds)
    requires |s.applied| >= s.sends - 1 && (s.status == Sending ==> |s.applied| == s.sends)
    ensures var t := AfterRounds(forced, call, s, rounds);
      && t.sends == s.sends + |rounds| && t.sends <= MAX_SENDS
      && (t.status == Sending ==> |t.applied| == t.sends) && |t.applied| >= t.sends - 1
      && forall a :: a in t.applied ==> InForce(t.learned, t.omitEffort, a)
    decreases |rounds|
  {
    if rounds != [] {
      var r := rounds[0];
      AttemptKeepsInv(forced, call, s, r.views, r.now, r.reply);
      var t := Attempt(forced, call, s, r.views, r.now, r.reply);
      if t.status != Sending {
        assert rounds[1..] == [];
      } else {
        EveryCallIsBounded(forced, call, t, rounds[1..]);
      }
    }
  }

  // ---------- Calls one at a time ----------

  function Same(l: Learned): Views { Views(l, l, l, l) }

  /** A whole call against the replies of an adversary, with no other call running. */
  function RunCall(forced: Option<bool>, call: Call, s: CallState, server: nat -> Reply): CallState
    requires s.sends <= MAX_SENDS
    decreases MAX_SENDS - s.sends
  {
    if s.status != Sending || s.sends == MAX_SENDS then s
    else RunCall(forced, call, Attempt(forced, call, s, Same(s.learned), s.learned, server(s.sends)), server)
  }

  lemma RejectingAddsALevel(l: Learned, e: Effort)
    requires e != EffortDefault && e !in l.rejectedEffort
    ensures |(l.rejectedEffort + {e}) * LEVELS| == |l.rejectedEffort * LEVELS| + 1
  {
    assert e in LEVELS by {
      match e case Low => case _ =>
    }
    assert (l.rejectedEffort + {e}) * LEVELS == l.rejectedEffort * LEVELS + {e};
  }

  lemma RaisingAddsAFlag(l: Learned, a: Adjustment)
    requires !a.AdjustEffortThisCall? && !a.AdjustEffortLevel? && !InForce(l, false, a)
    ensures Flags(Learn(l, a)) == Flags(l) + 1 && Learn(l, a).rejectedEffort == l.rejectedEffort
  {
  }

  lemma LearningAddsAFact(l: Learned, a: Adjustment)
    requires !a.AdjustEffortThisCall? && !InForce(l, false, a)
    requires a.AdjustEffortLevel? ==> a.level != EffortDefault
    ensures Facts(Learn(l, a)) == Facts(l) + 1
  {
    if a.AdjustEffortLevel? {
      RejectingAddsALevel(l, a.level);
    } else {
      RaisingAddsAFlag(l, a);
    }
  }

  /** An adjustment a sequential call makes is news to the client, or is the effort omission. */
  lemma LearnsSomethingNew(forced: Option<bool>, l: Learned, call: Call, omit: bool, e: ErrorBody, a: Adjustment)
    requires Classify(forced, Build(forced, Same(l), call, omit), e) == Some(a)
    ensures if a.AdjustEffortThisCall? then !omit && Learn(l, a) == l else Facts(Learn(l, a)) == Facts(l) + 1
  {
    if InForce(l, omit, a) {
      AdjustmentIsFresh(forced, l, Same(l), l, call, omit, e, a);
    }
    if !a.AdjustEffortThisCall? {
      LearningAddsAFact(l, a);
    }
  }

  /** Sends made so far are paid for by facts learned, plus one, plus one effort omission. */
  ghost predicate Paid(facts: nat, s: CallState) {
    && facts <= Facts(s.learned)
    && (s.status == Sending ==>
          s.sends <= Facts(s.learned) - facts + One(AdjustEffortThisCall in s.applied))
    && s.sends <= 1 + (Facts(s.learned) - facts) + One(AdjustEffortThisCall in s.applied)
    && (AdjustEffortThisCall in s.applied ==> s.omitEffort)
  }

  lemma AttemptIsPaid(forced: Option<bool>, call: Call, s: CallState, facts: nat, reply: Reply)
    requires CallInv(s) && s.status == Sending && Paid(facts, s)
    ensures Paid(facts, Attempt(forced, call, s, Same(s.learned), s.learned, reply))
  {
    var d := Judge(forced, call, s.omitEffort, Same(s.learned), reply);
    VerdictIsFresh(forced, call, s, Same(s.learned), s.learned, reply);
    if d.Adjust? {
      LearnsSomethingNew(forced, s.learned, call, s.omitEffort, reply.body, d.adjustment);
    }
  }

  lemma {:induction false} RunCallIsPaid(forced: Option<bool>, call: Call, s: CallState, server: nat -> Reply, facts: nat)
    requires CallInv(s) && Paid(facts, s)
    ensures var t := RunCall(forced, call, s, server);
      CallInv(t) && Paid(facts, t) && t.status != Sending && Grows(s.learned, t.learned)
    decreases MAX_SENDS - s.sends
  {
    if s.status == Sending {
      var t := Attempt(forced, call, s, Same(s.learned), s.learned, server(s.sends));
      AttemptKeepsInv(forced, call, s, Same(s.learned), s.learned, server(s.sends));
      AttemptIsPaid(forced, call, s, facts, server(s.sends));
      RunCallIsPaid(forced, call, t, server, facts);
    }
  }

  /** The total number of requests a sequence of calls makes, the server answering each in any way. */
  function TotalSends(forced: Option<bool>, l: Learned, calls: seq<Call>, server: (nat, nat) -> Reply): nat
    decreases |calls|
  {
    if calls == [] then 0
    else
      var t := RunCall(forced, calls[0], StartCall(l), (i: nat) => server(|calls|, i));
      t.sends + TotalSends(forced, t.learned, calls[1..], server)
  }

  lemma {:induction false} SendsArePaid(forced: Option<bool>, l: Learned, calls: seq<Call>, server: (nat, nat) -> Reply)
    ensures TotalSends(forced, l, calls, server) + Facts(l) <= 2 * |calls| + 13
    decreases |calls|
  {
    AtMostThirteenFacts(l);
    if calls != [] {
      var replies := (i: nat) => server(|calls|, i);
      RunCallIsPaid(forced, calls[0], StartCall(l), replies, Facts(l));
      var t := RunCall(forced, calls[0], StartCall(l), replies);
      SendsArePaid(forced, t.learned, calls[1..], server);
    }
  }

  /**
   Whatever the server answers, n calls made one after another send at most
   2n + 13 requests in all: each resend learns one of thirteen facts for good, or
   is the one effort omission a call may make.
   */
  lemma LifetimeSendBound(forced: Option<bool>, calls: seq<Call>, server: (nat, nat) -> Reply)
    ensures TotalSends(forced, NOTHING, calls, server) <= 2 * |calls| + 13
  {
    SendsArePaid(forced, NOTHING, calls, server);
  }

  // ---------- What a rejection makes of the next request ----------

  predicate RefusesMaxTokens(sent: Sent, e: ErrorBody) {
    e.status == 400 && sent.maxTokens && e.param == "max_tokens" && e.code == "unsupported_parameter"
  }

  predicate RefusesTemperature(sent: Sent, e: ErrorBody) {
    && e.status == 400 && sent.temperature && e.param == "temperature"
    && (e.code == "unsupported_value" || e.code == "unsupported_parameter")
  }

  /** A 400 that names the effort the request carried, in its parameter or else in its message. */
  predicate NamesTheEffort(sent: Sent, e: ErrorBody) {
    && e.status == 400 && sent.effort != EffortDefault
    && (e.param == "reasoning_effort" || e.param == "reasoning.effort" || e.param == "reasoning"
        || (e.param == "" && e.namesEffort))
  }

  /** The message alone names it and the request carried tools, so the level may not be to blame. */
  predicate MayBeTheTools(sent: Sent, e: ErrorBody) { NamesTheEffort(sent, e) && e.param == "" && sent.tools }

  predicate RefusesLevel(sent: Sent, e: ErrorBody) {
    NamesTheEffort(sent, e) && !MayBeTheTools(sent, e) && e.code == "unsupported_value"
  }

  predicate RefusesEffort(sent: Sent, e: ErrorBody) {
    && NamesTheEffort(sent, e) && !MayBeTheTools(sent, e)
    && (e.code == "unsupported_parameter" || e.code == "unknown_parameter")
  }

  predicate RefusesEndpoint(forced: Option<bool>, sent: Sent, e: ErrorBody) {
    && !sent.responses && forced == None && e.param == "" && (e.status == 400 || e.status == 404)
    && e.namesResponsesAPI && !NamesTheEffort(sent, e)
  }

  /** The rejections a resend can answer; one that names the caller's own extra field is not. */
  predicate Answerable(forced: Option<bool>, sent: Sent, e: ErrorBody) {
    && !e.namesExtraField
    && (RefusesMaxTokens(sent, e) || RefusesTemperature(sent, e) || MayBeTheTools(sent, e)
        || RefusesLevel(sent, e) || RefusesEffort(sent, e) || RefusesEndpoint(forced, sent, e))
  }

  predicate SameButEffort(sent: Sent, next: Sent) {
    next.responses == sent.responses && next.maxTokens == sent.maxTokens && next.tools == sent.tools
  }

  /** The level to send in place of a refused one: the first strictly nearer medium that is not rejected, or none. */
  predicate NextLevel(rejected: set<Effort>, refused: Effort, next: Effort) {
    && (next == EffortDefault <==> forall f :: OnWalk(refused, f) && f != refused ==> f in rejected)
    && (next != EffortDefault ==>
          && OnWalk(refused, next) && next != refused && next !in rejected
          && forall f :: OnWalk(refused, f) && f != refused && Distance(f) > Distance(next) ==> f in rejected)
  }

  /** One flag more is known: temperature is refused beside the kind of effort the request carried. */
  predicate LearnsTemperature(before: Learned, after: Learned, effort: Effort) {
    if effort == EffortDefault then after == before.(dropTemperature := true)
    else if effort == EffortNone then after == before.(dropTemperatureNone := true)
    else after == before.(dropTemperatureReasoning := true)
  }

  /**
   What is made of a rejection, told by the request that follows it and what the client
   knows before and after; `stepped` is whether the call has replaced a level before.
   */
  predicate Answers(sent: Sent, e: ErrorBody, stepped: bool, before: Learned, after: Learned, next: Sent) {
    if RefusesMaxTokens(sent, e) then
      after == before.(maxCompletionTokens := true) && next == sent.(maxTokens := false)
    else if RefusesTemperature(sent, e) then
      LearnsTemperature(before, after, sent.effort) && next == sent.(temperature := false)
    else if MayBeTheTools(sent, e) then
      after == before && SameButEffort(sent, next) && next.effort == EffortDefault
    else if RefusesLevel(sent, e) then
      && after == before.(rejectedEffort := before.rejectedEffort + {sent.effort})
      && SameButEffort(sent, next)
      && (if stepped then next.effort == EffortDefault else NextLevel(after.rejectedEffort, sent.effort, next.effort))
    else if RefusesEffort(sent, e) then
      after == before.(effortUnsupported := true) && SameButEffort(sent, next) && next.effort == EffortDefault
    else
      after == before.(responsesAPI := true) && next == sent.(responses := true, maxTokens := false)
  }

  /** What a call sends next, nothing else running. */
  function RequestOf(forced: Option<bool>, call: Call, s: CallState): Sent {
    Build(forced, Same(s.learned), call, s.omitEffort)
  }

  /** The request carries a level only if the call has one and has not omitted it, and then the first one left. */
  lemma SentLevel(l: Learned, requested: Effort, omit: bool)
    requires EffortToSend(l, requested, omit) != EffortDefault
    ensures !omit && !l.effortUnsupported && requested != EffortDefault
    ensures Walk(l, requested) == EffortToSend(l, requested, omit) && Walk(l, requested) !in l.rejectedEffort
  {
    WalkAvoidsRejected(l, requested);
  }

  /** Rejecting the level a walk arrives at makes the walk go on from there. */
  lemma {:induction false} WalkGoesOn(l: Learned, m: Learned, e: Effort)
    requires e != EffortDefault && Walk(l, e) != EffortDefault
    requires m.rejectedEffort == l.rejectedEffort + {Walk(l, e)}
    ensures Walk(m, e) == Walk(m, Walk(l, e)) == Walk(m, Towards(Walk(l, e)))
    decreases Distance(e)
  {
    if e in l.rejectedEffort {
      TowardsApproaches(e);
      WalkGoesOn(l, m, Towards(e));
    }
  }

  lemma SteppedLevel(l: Learned, m: Learned, requested: Effort)
    requires requested != EffortDefault && Walk(l, requested) != EffortDefault
    requires m.rejectedEffort == l.rejectedEffort + {Walk(l, requested)}
    ensures NextLevel(m.rejectedEffort, Walk(l, requested), Walk(m, requested))
  {
    var refused := Walk(l, requested);
    WalkGoesOn(l, m, requested);
    WalkIsFirstAccepted(m, refused);
  }

  /** A rejection none of the six kinds describes ends the call and teaches nothing. */
  lemma UnanswerableEndsTheCall(forced: Option<bool>, call: Call, s: CallState, e: ErrorBody)
    requires s.status == Sending && !Answerable(forced, RequestOf(forced, call, s), e)
    ensures var t := Attempt(forced, call, s, Same(s.learned), s.learned, Rejected(e));
      t.status == Returned(None) && t.learned == s.learned
  {
  }

  /** What the bookkeeping after an answerable rejection comes to. */
  lemma AnswerableIsAdjusted(forced: Option<bool>, call: Call, s: CallState, e: ErrorBody)
    requires CallInv(s) && s.status == Sending && Answerable(forced, RequestOf(forced, call, s), e)
    ensures var sent := RequestOf(forced, call, s);
      var a := Classify(forced, sent, e);
      && a.Some?
      && a.value == (if RefusesMaxTokens(sent, e) then AdjustMaxTokens
                     else if RefusesTemperature(sent, e) then AdjustTemperature(KindOf(sent.effort))
                     else if MayBeTheTools(sent, e) then AdjustEffortThisCall
                     else if RefusesLevel(sent, e) then AdjustEffortLevel(sent.effort)
                     else if RefusesEffort(sent, e) then AdjustEffortAll else AdjustEndpoint)
      && Attempt(forced, call, s, Same(s.learned), s.learned, Rejected(e)) == Handle(s, s.learned, Adjust(a.value))
      && a.value !in s.applied
  {
    VerdictIsFresh(forced, call, s, Same(s.learned), s.learned, Rejected(e));
  }

  /** The state a call is in after an adjustment that is new to it. */
  function Adjusted(s: CallState, a: Adjustment): CallState
    requires s.status == Sending
  {
    Handle(s, s.learned, Adjust(a))
  }

  lemma FlagAnswers(forced: Option<bool>, call: Call, s: CallState, a: Adjustment)
    requires s.status == Sending && a !in s.applied && (a == AdjustMaxTokens || (a == AdjustEndpoint && forced.None?))
    ensures var sent, next := RequestOf(forced, call, s), RequestOf(forced, call, Adjusted(s, a));
      next == if a == AdjustMaxTokens then sent.(maxTokens := false) else sent.(responses := true, maxTokens := false)
  {
    SameRejections(s.learned, Adjusted(s, a).learned, call.effort, s.omitEffort);
  }

  lemma TemperatureAnswers(forced: Option<bool>, call: Call, s: CallState, kind: TempKind)
    requires s.status == Sending && AdjustTemperature(kind) !in s.applied && kind == KindOf(RequestOf(forced, call, s).effort)
    ensures var sent, t := RequestOf(forced, call, s), Adjusted(s, AdjustTemperature(kind));
      RequestOf(forced, call, t) == sent.(temperature := false) && LearnsTemperature(s.learned, t.learned, sent.effort)
  {
    SameRejections(s.learned, Adjusted(s, AdjustTemperature(kind)).learned, call.effort, s.omitEffort);
  }

  lemma SameRejections(l: Learned, m: Learned, requested: Effort, omit: bool)
    requires l.rejectedEffort == m.rejectedEffort && l.effortUnsupported == m.effortUnsupported
    ensures EffortToSend(l, requested, omit) == EffortToSend(m, requested, omit)
  {
    WalkIgnoresOtherFacts(l, m, requested);
  }

  lemma EffortAnswers(forced: Option<bool>, call: Call, s: CallState, a: Adjustment)
    requires s.status == Sending && a !in s.applied && RequestOf(forced, call, s).effort != EffortDefault
    requires a == AdjustEffortThisCall || a == AdjustEffortAll || a == AdjustEffortLevel(RequestOf(forced, call, s).effort)
    ensures var sent, t := RequestOf(forced, call, s), Adjusted(s, a);
      var next := RequestOf(forced, call, t);
      && SameButEffort(sent, next)
      && (a.AdjustEffortLevel? && !s.stepped ==> NextLevel(t.learned.rejectedEffort, sent.effort, next.effort))
      && (!a.AdjustEffortLevel? || s.stepped ==> next.effort == EffortDefault)
  {
    var sent, t := RequestOf(forced, call, s), Adjusted(s, a);
    if a.AdjustEffortLevel? && !s.stepped {
      SentLevel(s.learned, call.effort, s.omitEffort);
      SteppedLevel(s.learned, t.learned, call.effort);
    }
  }

  /** Every answerable rejection is answered by the request built next, of this call or, the sends used up, a later one. */
  lemma RejectionIsAnswered(forced: Option<bool>, call: Call, s: CallState, e: ErrorBody)
    requires CallInv(s) && s.status == Sending && Answerable(forced, RequestOf(forced, call, s), e)
    ensures var sent, t := RequestOf(forced, call, s), Attempt(forced, call, s, Same(s.learned), s.learned, Rejected(e));
      && Answers(sent, e, s.stepped, s.learned, t.learned, RequestOf(forced, call, t))
      && (t.status == Sending || (t.status.Returned? && t.status.adjusted.Some? && t.sends == MAX_SENDS))
      && (t.stepped <==> s.stepped || RefusesLevel(sent, e))
  {
    var sent := RequestOf(forced, call, s);
    AnswerableIsAdjusted(forced, call, s, e);
    var a := Classify(forced, sent, e).value;
    if NamesTheEffort(sent, e) && !RefusesMaxTokens(sent, e) && !RefusesTemperature(sent, e) {
      EffortAnswers(forced, call, s, a);
    } else if a.AdjustTemperature? {
      TemperatureAnswers(forced, call, s, a.kind);
    } else {
      FlagAnswers(forced, call, s, a);
    }
  }

  /** What was learned for good holds for every later request of every call. */
  lemma LearnedForGood(forced: Option<bool>, l: Learned, m: Learned, call: Call, omit: bool)
    requires Grows(l, m)
    ensures var r := Build(forced, Same(m), call, omit);
      && (l.maxCompletionTokens ==> !r.maxTokens)
      && (l.responsesAPI && forced.None? ==> r.responses)
      && (l.effortUnsupported ==> r.effort == EffortDefault)
      && (r.effort != EffortDefault ==> r.effort !in l.rejectedEffort)
      && (r.effort == EffortDefault && l.dropTemperature ==> !r.temperature)
      && (r.effort == EffortNone && l.dropTemperatureNone ==> !r.temperature)
      && (r.effort != EffortDefault && r.effort != EffortNone && l.dropTemperatureReasoning ==> !r.temperature)
  {
    WalkAvoidsRejected(m, call.effort);
  }

  /** And nothing else is dropped: what has not been refused is sent as asked for. */
  lemma OtherParametersStay(forced: Option<bool>, l: Learned, call: Call)
    ensures var r := Build(forced, Same(l), call, false);
      && r.tools == call.tools && (r.responses <==> forced == Some(true) || (forced.None? && l.responsesAPI))
      && (!l.maxCompletionTokens && !r.responses ==> r.maxTokens == call.maxTokens)
      && (!l.effortUnsupported && call.effort !in l.rejectedEffort ==> r.effort == call.effort)
      && (!l.dropTemperature && !l.dropTemperatureNone && !l.dropTemperatureReasoning ==> r.temperature == call.temperature)
  {
  }

  // ---------- The trace of a call ----------

  /** A request, what the client knew when it built it, whether a level had been replaced, and the reply. */
  datatype Exchange = Exchange(knew: Learned, stepped: bool, sent: Sent, reply: Reply)

  /** A rejection answered by what is known and sent next. */
  predicate AnsweredBy(forced: Option<bool>, x: Exchange, after: Learned, stepped: bool, next: Sent) {
    && x.reply.Rejected? && Answerable(forced, x.sent, x.reply.body)
    && Answers(x.sent, x.reply.body, x.stepped, x.knew, after, next)
    && (stepped <==> x.stepped || RefusesLevel(x.sent, x.reply.body))
  }

  /** The first request is the one the call asks for, and each later one answers the rejection before it. */
  predicate Conversation(forced: Option<bool>, call: Call, start: Learned, trace: seq<Exchange>) {
    && (trace != [] ==>
          trace[0].knew == start && !trace[0].stepped && trace[0].sent == Build(forced, Same(start), call, false))
    && forall i :: 0 <= i < |trace| - 1 ==>
         AnsweredBy(forced, trace[i], trace[i + 1].knew, trace[i + 1].stepped, trace[i + 1].sent)
  }

  /** The status is that of the last reply; a rejection that could be answered ends the call only with the sends used up, and is learned. */
  predicate Ending(forced: Option<bool>, call: Call, trace: seq<Exchange>, t: CallState) {
    && trace != []
    && var x := trace[|trace| - 1];
       && (t.status == Succeeded <==> x.reply.Accepted?)
       && (t.status == Returned(None) <==>
             x.reply.OtherFailure? || (x.reply.Rejected? && !Answerable(forced, x.sent, x.reply.body)))
       && (t.status == Succeeded || t.status == Returned(None) ==> t.learned == x.knew)
       && (t.status.Returned? && t.status.adjusted.Some? ==>
             |trace| == 4 && AnsweredBy(forced, x, t.learned, t.stepped, RequestOf(forced, call, t)))
  }

  /** A call so far: still sending, its last rejection answered, or ended by its last reply. */
  ghost predicate Talk(forced: Option<bool>, call: Call, start: Learned, trace: seq<Exchange>, t: CallState) {
    && CallInv(t) && |trace| == t.sends && Conversation(forced, call, start, trace)
    && if t.status != Sending then Ending(forced, call, trace, t)
       else if trace == [] then t == StartCall(start)
       else AnsweredBy(forced, trace[|trace| - 1], t.learned, t.stepped, RequestOf(forced, call, t))
  }

  lemma ConversationGoesOn(forced: Option<bool>, call: Call, start: Learned, trace: seq<Exchange>, t: CallState, reply: Reply)
    requires Talk(forced, call, start, trace, t) && t.status == Sending
    ensures Conversation(forced, call, start, trace + [Exchange(t.learned, t.stepped, RequestOf(forced, call, t), reply)])
  {
  }

  lemma TalkGoesOn(forced: Option<bool>, call: Call, start: Learned, trace: seq<Exchange>, t: CallState, reply: Reply)
    requires Talk(forced, call, start, trace, t) && t.status == Sending
    ensures Talk(forced, call, start, trace + [Exchange(t.learned, t.stepped, RequestOf(forced, call, t), reply)],
                 Attempt(forced, call, t, Same(t.learned), t.learned, reply))
  {
    ConversationGoesOn(forced, call, start, trace, t, reply);
    AttemptKeepsInv(forced, call, t, Same(t.learned), t.learned, reply);
    if reply.Rejected? {
      if Answerable(forced, RequestOf(forced, call, t), reply.body) {
        RejectionIsAnswered(forced, call, t, reply.body);
      } else {
        UnanswerableEndsTheCall(forced, call, t, reply.body);
      }
    }
  }

  // ---------- Levels one call sends ----------

  /** The non-default effort levels a call sends from state `s` on. */
  function LevelsSent(forced: Option<bool>, call: Call, s: CallState, server: nat -> Reply): set<Effort>
    requires s.sends <= MAX_SENDS
    decreases MAX_SENDS - s.sends
  {
    if s.status != Sending || s.sends == MAX_SENDS then {}
    else
      var e := EffortToSend(s.learned, call.effort, s.omitEffort);
      (if e == EffortDefault then {} else {e})
      + LevelsSent(forced, call, Attempt(forced, call, s, Same(s.learned), s.learned, server(s.sends)), server)
  }

  lemma WalkIgnoresOtherFacts(l: Learned, m: Learned, e: Effort)
    requires l.rejectedEffort == m.rejectedEffort
    ensures Walk(l, e) == Walk(m, e)
    decreases if e == EffortDefault then 0 else 1 + Distance(e)
  {
    if e != EffortDefault && e in l.rejectedEffort {
      TowardsApproaches(e);
      WalkIgnoresOtherFacts(l, m, Towards(e));
    }
  }

  lemma HandleEffort(call: Call, s: CallState, verdict: Verdict)
    requires s.status == Sending
    ensures var t := Handle(s, s.learned, verdict);
      var e, f := EffortToSend(s.learned, call.effort, s.omitEffort), EffortToSend(t.learned, call.effort, t.omitEffort);
      || ((f == e || f == EffortDefault) && t.stepped == s.stepped)
      || (t.stepped && (s.stepped ==> f == EffortDefault))
  {
    var t := Handle(s, s.learned, verdict);
    if t.learned.rejectedEffort == s.learned.rejectedEffort {
      WalkIgnoresOtherFacts(s.learned, t.learned, call.effort);
    }
  }

  /** A reply changes the effort sent only by learning a level, and the second such step omits it. */
  lemma EffortAfter(forced: Option<bool>, call: Call, s: CallState, reply: Reply)
    requires s.status == Sending
    ensures var t := Attempt(forced, call, s, Same(s.learned), s.learned, reply);
      var e, f := EffortToSend(s.learned, call.effort, s.omitEffort), EffortToSend(t.learned, call.effort, t.omitEffort);
      || ((f == e || f == EffortDefault) && t.stepped == s.stepped)
      || (t.stepped && (s.stepped ==> f == EffortDefault))
  {
    HandleEffort(call, s, Judge(forced, call, s.omitEffort, Same(s.learned), reply));
  }

  /** The levels still to come: the one being sent now, and one more if no step was taken yet. */
  lemma {:induction false} LevelsLeft(forced: Option<bool>, call: Call, s: CallState, server: nat -> Reply)
    returns (next: Effort)
    requires s.sends <= MAX_SENDS
    ensures var e := EffortToSend(s.learned, call.effort, s.omitEffort);
      LevelsSent(forced, call, s, server) <= (if s.stepped then {e} else {e, next})
    ensures EffortDefault !in LevelsSent(forced, call, s, server)
    decreases MAX_SENDS - s.sends
  {
    next := EffortDefault;
    if s.status == Sending && s.sends < MAX_SENDS {
      var reply := server(s.sends);
      var t := Attempt(forced, call, s, Same(s.learned), s.learned, reply);
      var later := LevelsLeft(forced, call, t, server);
      EffortAfter(forced, call, s, reply);
      next := if t.stepped == s.stepped then later else EffortToSend(t.learned, call.effort, t.omitEffort);
    }
  }

  /** A call made on its own sends at most two distinct effort levels. */
  lemma AtMostTwoLevels(forced: Option<bool>, call: Call, l: Learned, server: nat -> Reply)
    ensures |LevelsSent(forced, call, StartCall(l), server)| <= 2
  {
    var next := LevelsLeft(forced, call, StartCall(l), server);
    var e := EffortToSend(l, call.effort, false);
    var sent := LevelsSent(forced, call, StartCall(l), server);
    SubsetSize(sent, {e, next});
  }

  // ---------- The client ----------

  class Client {
    const forcedRoute: Option<bool>
    var learned: Learned

    constructor (forcedRoute: Option<bool>)
      ensures this.forcedRoute == forcedRoute && learned == NOTHING
    {
      this.forcedRoute := forcedRoute;
      learned := NOTHING;
    }

    /** `reasoningEffort`: the walk as the source's loop. */
    method ReasoningEffort(requested: Effort, omit: bool) returns (effort: Effort)
      ensures effort == EffortToSend(learned, requested, omit)
    {
      effort := requested;
      if omit || effort == EffortDefault {
        return EffortDefault;
      }
      if learned.effortUnsupported {
        return EffortDefault;
      }
      while effort != EffortDefault && effort in learned.rejectedEffort
        invariant Walk(learned, effort) == Walk(learned, requested)
        decreases if effort == EffortDefault then 0 else 1 + Distance(effort)
      {
        TowardsApproaches(effort);
        effort := TowardsMedium(effort);
      }
    }

    /** The learned fields of `buildChatRequest` and `buildResponsesRequest`. */
    method BuildRequest(call: Call, omitEffort: bool) returns (sent: Sent)
      ensures sent == Build(forcedRoute, Same(learned), call, omitEffort)
    {
      var responses := learned.responsesAPI;
      if forcedRoute.Some? {
        responses := forcedRoute.value;
      }
      var maxTokens := false;
      if !responses && call.maxTokens && !learned.maxCompletionTokens {
        maxTokens := true;
      }
      var effort := ReasoningEffort(call.effort, omitEffort);
      var temperature := call.temperature;
      if TemperatureFlag(learned, KindOf(effort)) {
        temperature := false;
      }
      sent := Sent(responses, maxTokens, temperature, call.tools, effort);
    }

    /** `learn` and `learnEffort`; `first` is whether the adjustment is logged. */
    method LearnAdjustment(a: Adjustment) returns (first: bool)
      requires !a.AdjustEffortThisCall?
      modifies this
      ensures learned == Learn(old(learned), a)
      ensures first <==> !InForce(old(learned), false, a)
    {
      first := !InForce(learned, false, a);
      match a {
        case AdjustMaxTokens => learned := learned.(maxCompletionTokens := true);
        case AdjustTemperature(kind) =>
          match kind {
            case TempDefault => learned := learned.(dropTemperature := true);
            case TempNone => learned := learned.(dropTemperatureNone := true);
            case TempReasoning => learned := learned.(dropTemperatureReasoning := true);
          }
        case AdjustEffortLevel(level) =>
          learned := learned.(rejectedEffort := learned.rejectedEffort + {level});
        case AdjustEffortAll => learned := learned.(effortUnsupported := true);
        case AdjustEndpoint => learned := learned.(responsesAPI := true);
      }
    }

    /**
     `sendWithAdjustments`. The trace says what was sent and answered: the status is that
     of the last reply, and every reply before it is a rejection which the next request
     answers.
     */
    method SendWithAdjustments(call: Call, server: nat -> Reply) returns (status: Status, sends: nat, trace: seq<Exchange>)
      modifies this
      ensures |trace| == sends <= 4 && forall i :: 0 <= i < sends ==> trace[i].reply == server(i)
      ensures Conversation(forcedRoute, call, old(learned), trace)
      ensures Ending(forcedRoute, call, trace, RunCall(forcedRoute, call, StartCall(old(learned)), server))
      ensures var final := RunCall(forcedRoute, call, StartCall(old(learned)), server);
        learned == final.learned && sends == final.sends && status == final.status
      ensures status != Sending && sends <= MAX_SENDS && Grows(old(learned), learned)
      ensures sends <= 2 + (Facts(learned) - Facts(old(learned)))
    {
      var applied: set<Adjustment> := {};
      var omitEffort, stepped := false, false;
      ghost var begin := StartCall(learned);
      RunCallIsPaid(forcedRoute, call, begin, server, Facts(learned));
      ghost var now := begin;
      sends, status, trace := 0, Sending, [];
      while status == Sending
        invariant forall i :: 0 <= i < sends ==> i < |trace| && trace[i].reply == server(i)
        invariant Talk(forcedRoute, call, begin.learned, trace, now)
        invariant sends <= MAX_SENDS && (status == Sending ==> sends < MAX_SENDS)
        invariant now == CallState(learned, applied, omitEffort, stepped, sends, status)
        invariant RunCall(forcedRoute, call, now, server) == RunCall(forcedRoute, call, begin, server)
        decreases MAX_SENDS - sends
      {
        var reply := server(sends);
        TalkGoesOn(forcedRoute, call, begin.learned, trace, now, reply);
        now := Attempt(forcedRoute, call, now, Same(learned), learned, reply);
        var x;
        applied, omitEffort, stepped, sends, status, x := Turn(call, applied, omitEffort, stepped, sends, reply);
        trace := trace + [x];
      }
    }

    /** One turn of the loop: build, send, and deal with the reply. */
    method Turn(call: Call, applied: set<Adjustment>, omitEffort: bool, stepped: bool, sends: nat, reply: Reply)
      returns (applied': set<Adjustment>, omitEffort': bool, stepped': bool, sends': nat, status': Status, x: Exchange)
      requires sends < MAX_SENDS
      modifies this
      ensures x == Exchange(old(learned), stepped, Build(forcedRoute, Same(old(learned)), call, omitEffort), reply)
      ensures CallState(learned, applied', omitEffort', stepped', sends', status')
           == Attempt(forcedRoute, call, CallState(old(learned), applied, omitEffort, stepped, sends, Sending),
                      Same(old(learned)), old(learned), reply)
    {
      var sent := BuildRequest(call, omitEffort);
      x := Exchange(learned, stepped, sent, reply);
      applied', omitEffort', stepped', sends' := applied, omitEffort, stepped, sends + 1;
      if reply.Accepted? {
        status' := Succeeded;
      } else if reply.OtherFailure? || reply.body.namesExtraField {
        status' := Returned(None);
      } else {
        var a := Classify(forcedRoute, sent, reply.body);
        if a.None? || a.value in applied {
          status' := Returned(None);
        } else {
          applied', omitEffort', stepped' := AdjustCall(a.value, applied, omitEffort, stepped);
          status' := if sends' == MAX_SENDS then Returned(a) else Sending;
        }
      }
    }

    /** The tail of the loop: record the adjustment for the call and learn it for good. */
    method AdjustCall(a: Adjustment, applied: set<Adjustment>, omitEffort: bool, stepped: bool)
      returns (applied': set<Adjustment>, omitEffort': bool, stepped': bool)
      modifies this
      ensures applied' == applied + {a} && learned == Learn(old(learned), a)
      ensures omitEffort' == (omitEffort || (a.AdjustEffortLevel? && stepped) || a.AdjustEffortThisCall?)
      ensures stepped' == (stepped || a.AdjustEffortLevel?)
    {
      applied', omitEffort', stepped' := applied + {a}, omitEffort, stepped;
      if a.AdjustEffortLevel? {
        omitEffort' := omitEffort || stepped;
        stepped' := true;
      }
      if a.AdjustEffortThisCall? {
        omitEffort' := true;
      } else {
        var first := LearnAdjustment(a);
      }
    }
  }
}
