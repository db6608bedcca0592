/**
 Any number of concurrent Anthropic calls on one client, as interleaved steps.

 Each call builds a request in three reads of the client's learned state, each
 under its own lock, waits for an answer of the server's choosing, and resends or
 returns. The history of requests and answers is kept so that what was learned can
 be traced back to it.
 */
module AnthropicCalls {
  import opened Common
  import opened AnthropicAdapt

  // ---------- States and steps ----------

  /** Where a call stands; while building it holds the knowledge read so far. */
  datatype Phase =
    | NeedTemperature
    | NeedEffort(temp: Learned)
    | NeedCache(temp: Learned, effort: Learned)
    | Waiting(sent: Request)
    | Done(outcome: Outcome)

  datatype CallState = CallState(call: Call, applied: set<Adjustment>, sends: nat, phase: Phase)

  datatype Event =
    | WasSent(id: nat, req: Request)
    | WasRejected(id: nat, req: Request, rej: Rejection)
    | WasAccepted(id: nat, req: Request)

  datatype Sys = Sys(learned: Learned, calls: map<nat, CallState>, history: seq<Event>)

  const INIT := Sys(NOTHING, map[], [])

  datatype Action =
    | Begin(id: nat, call: Call)
    | ReadTemperature(id: nat)
    | ReadEffort(id: nat)
    | ReadCache(id: nat)
    | Answer(id: nat, reply: Reply)

  predicate CanTake(s: Sys, a: Action) {
    match a
    case Begin(id, _) => id !in s.calls
    case ReadTemperature(id) => id in s.calls && s.calls[id].phase.NeedTemperature?
    case ReadEffort(id) => id in s.calls && s.calls[id].phase.NeedEffort?
    case ReadCache(id) => id in s.calls && s.calls[id].phase.NeedCache?
    case Answer(id, _) => id in s.calls && s.calls[id].phase.Waiting?
  }

  function SetCall(s: Sys, id: nat, c: CallState): Sys { s.(calls := s.calls[id := c]) }

  /** `retryAfterRejection`: record the adjustment and resend, or return the error. */
  function AfterRejection(c: CallState, adj: Option<Adjustment>): CallState {
    if adj.None? then c.(phase := Done(NoAdjustment))
    else if adj.value in c.applied then c.(phase := Done(RepeatedAdjustment))
    else
      var d := c.(applied := c.applied + {adj.value});
      if c.sends < MAX_SENDS then d.(phase := NeedTemperature) else d.(phase := Done(OutOfSends))
  }

  /** `confirmAdjustments`. */
  function Confirmed(l: Learned, applied: set<Adjustment>): Learned {
    if AdjCachingThisCall in applied then l.(dropAutoCaching := true) else l
  }

  function Apply(s: Sys, a: Action): Sys
    requires CanTake(s, a)
  {
    match a
    case Begin(id, call) => SetCall(s, id, CallState(call, {}, 0, NeedTemperature))
    case ReadTemperature(id) => SetCall(s, id, s.calls[id].(phase := NeedEffort(s.learned)))
    case ReadEffort(id) =>
      SetCall(s, id, s.calls[id].(phase := NeedCache(s.calls[id].phase.temp, s.learned)))
    case ReadCache(id) =>
      var c := s.calls[id];
      var sent := Build(c.phase.temp, c.phase.effort, s.learned, c.call, c.applied);
      SetCall(s, id, c.(sends := c.sends + 1, phase := Waiting(sent))).(history := s.history + [WasSent(id, sent)])
    case Answer(id, reply) =>
      var c := s.calls[id];
      match reply
      case OtherFailure => SetCall(s, id, c.(phase := Done(FailedOutright)))
      case Accepted =>
        SetCall(s, id, c.(phase := Done(Succeeded))).(
          learned := Confirmed(s.learned, c.applied), history := s.history + [WasAccepted(id, c.phase.sent)])
      case Rejected(rej) =>
        SetCall(s, id, AfterRejection(c, Adapt(c.phase.sent, rej))).(
          learned := LearnFrom(s.learned, c.phase.sent, rej),
          history := s.history + [WasRejected(id, c.phase.sent, rej)])
  }

  predicate Executable(s: Sys, acts: seq<Action>)
    decreases |acts|
  {
    acts == [] || (CanTake(s, acts[0]) && Executable(Apply(s, acts[0]), acts[1..]))
  }

  function After(s: Sys, acts: seq<Action>): Sys
    requires Executable(s, acts)
    decreases |acts|
  {
    if acts == [] then s else After(Apply(s, acts[0]), acts[1..])
  }

  // ---------- Every call, in every state ----------

  predicate CallInv(l: Learned, c: CallState) {
    && OneCacheAdjustment(c.applied) && Remembered(l, c.call, c.applied)
    && match c.phase
       case NeedTemperature => |c.applied| == c.sends
       case NeedEffort(_) => |c.applied| == c.sends
       case NeedCache(_, effort) => |c.applied| == c.sends && Remembered(effort, c.call, c.applied)
       case Waiting(sent) =>
         && |c.applied| + 1 == c.sends && Avoids(sent, c.call, c.applied)
         && sent.messages == (if AdjThinkingBlocks in c.applied then Stripped(c.call.messages) else c.call.messages)
       case Done(o) => c.sends <= |c.applied| + 1 && o != RepeatedAdjustment && o != OutOfSends
  }

  predicate CallsInv(s: Sys) { forall id :: id in s.calls ==> CallInv(s.learned, s.calls[id]) }

  lemma RememberedGrows(l: Learned, m: Learned, c: CallState)
    requires Grows(l, m) && CallInv(l, c)
    ensures CallInv(m, c)
  {
  }

  /** A fresh adjustment always leads to a resend: the send limit never blocks one. */
  lemma RejectionKeepsCallInv(l: Learned, c: CallState, rej: Rejection)
    requires CallInv(l, c) && c.phase.Waiting?
    ensures var adj, m := Adapt(c.phase.sent, rej), LearnFrom(l, c.phase.sent, rej);
      && Grows(l, m) && CallInv(m, AfterRejection(c, adj))
      && (adj.Some? ==> adj.value !in c.applied && AfterRejection(c, adj).phase == NeedTemperature)
  {
    AdjustmentIsFresh(c.phase.sent, c.call, c.applied, l, rej);
    var adj := Adapt(c.phase.sent, rej);
    if adj.Some? {
      AtMostFiveAdjustments(c.applied + {adj.value});
    }
  }

  lemma StepKeepsCallsInv(s: Sys, a: Action)
    requires CallsInv(s) && CanTake(s, a)
    ensures CallsInv(Apply(s, a)) && Grows(s.learned, Apply(s, a).learned)
  {
    var t := Apply(s, a);
    var c := if a.Begin? then CallState(a.call, {}, 0, NeedTemperature) else s.calls[a.id];
    if a.ReadCache? {
      BuildAvoids(c.phase.temp, c.phase.effort, s.learned, c.call, c.applied);
    } else if a.Answer? && a.reply.Rejected? {
      RejectionKeepsCallInv(s.learned, c, a.reply.rej);
    }
    forall id | id in t.calls
      ensures CallInv(t.learned, t.calls[id])
    {
      if id != a.id {
        RememberedGrows(s.learned, t.learned, s.calls[id]);
      }
    }
  }

  lemma {:induction false} RunKeepsCallsInv(s: Sys, acts: seq<Action>)
    requires CallsInv(s) && Executable(s, acts)
    ensures CallsInv(After(s, acts)) && Grows(s.learned, After(s, acts).learned)
    decreases |acts|
  {
    if acts != [] {
      StepKeepsCallsInv(s, acts[0]);
      RunKeepsCallsInv(Apply(s, acts[0]), acts[1..]);
    }
  }

  /**
   In every reachable state of any number of interleaved calls, each call has made
   at most six sends, has applied at most five adjustments, never both cache
   adjustments, and has been ended neither by a repeated adjustment nor by the send
   limit; and any adjustment its next rejection calls for is new and is resent.
   */
  lemma EveryCallIsBounded(acts: seq<Action>, id: nat, rej: Rejection)
    requires Executable(INIT, acts) && id in After(INIT, acts).calls
    ensures var c := After(INIT, acts).calls[id];
      && c.sends <= MAX_SENDS && |c.applied| <= 5 && OneCacheAdjustment(c.applied)
      && c.phase != Done(RepeatedAdjustment) && c.phase != Done(OutOfSends)
      && (c.phase.Waiting? ==>
            var adj := Adapt(c.phase.sent, rej);
            adj.Some? ==> adj.value !in c.applied && AfterRejection(c, adj).phase == NeedTemperature)
  {
    RunKeepsCallsInv(INIT, acts);
    var s := After(INIT, acts);
    var c := s.calls[id];
    AtMostFiveAdjustments(c.applied);
    if c.phase.Waiting? {
      RejectionKeepsCallInv(s.learned, c, rej);
    }
  }

  /** Over every run, from any point on, what has been learned only grows. */
  lemma LearnedOnlyGrows(before: seq<Action>, more: seq<Action>)
    requires Executable(INIT, before) && Executable(After(INIT, before), more)
    ensures Grows(After(INIT, before).learned, After(After(INIT, before), more).learned)
  {
    RunKeepsCallsInv(INIT, before);
    RunKeepsCallsInv(After(INIT, before), more);
  }

  /**
   An answer ends only the call it is for, and with what it says: success exactly when
   the request was accepted, an error when it failed or was rejected beyond answering;
   any other rejection makes that call build its request anew.
   */
  lemma AnswerDecides(acts: seq<Action>, id: nat, reply: Reply)
    requires Executable(INIT, acts) && CanTake(After(INIT, acts), Answer(id, reply))
    ensures var s := After(INIT, acts);
      var t, sent := Apply(s, Answer(id, reply)), s.calls[id].phase.sent;
      && (t.calls[id].phase == Done(Succeeded) <==> reply.Accepted?)
      && (t.calls[id].phase == Done(FailedOutright) <==> reply.OtherFailure?)
      && (t.calls[id].phase == Done(NoAdjustment) <==> reply.Rejected? && !Answerable(sent, reply.rej))
      && (t.calls[id].phase == NeedTemperature <==> reply.Rejected? && Answerable(sent, reply.rej))
      && t.calls.Keys == s.calls.Keys && forall other :: other in s.calls && other != id ==> t.calls[other] == s.calls[other]
  {
    RunKeepsCallsInv(INIT, acts);
    if reply.Rejected? {
      var s := After(INIT, acts);
      RejectionKeepsCallInv(s.learned, s.calls[id], reply.rej);
      UnanswerableTeachesNothing(s.calls[id].phase.sent, reply.rej, s.learned);
    }
  }

  // ---------- What is learned is justified by history ----------

  predicate RejectedFor(e: Event, adj: Adjustment) { e.WasRejected? && Adapt(e.req, e.rej) == Some(adj) }

  predicate TeachesTemperature(e: Event) {
    RejectedFor(e, AdjTemperature) && !TemperatureRejectedForThinking(e.req, e.rej)
  }

  predicate CallDroppedMarker(h: seq<Event>, id: nat) {
    exists i :: 0 <= i < |h| && h[i].id == id && RejectedFor(h[i], AdjCachingThisCall)
  }

  /** A resend without the top-level marker was accepted after the rejection that dropped it. */
  predicate ConfirmedWithoutMarker(h: seq<Event>) {
    exists j :: 0 <= j < |h| && h[j].WasAccepted? && !h[j].req.cacheControl && CallDroppedMarker(h[..j], h[j].id)
  }

  predicate Justified(l: Learned, h: seq<Event>) {
    && (l.dropTemperature ==> exists i :: 0 <= i < |h| && TeachesTemperature(h[i]))
    && (l.dropAutoCaching ==>
          || (exists i :: 0 <= i < |h| && RejectedFor(h[i], AdjCaching) && BlockMarkers(h[i].req) == 0)
          || ConfirmedWithoutMarker(h))
    && (forall v :: v in l.rejectedEffort ==>
          exists i :: 0 <= i < |h| && RejectedFor(h[i], AdjEffort) && h[i].req.outputEffort == Some(v))
    && (forall t :: t in l.rejectedThinking ==> (t != Enabled &&
          exists i :: 0 <= i < |h| && RejectedFor(h[i], AdjThinking) && h[i].req.thinking == Some(t)))
  }

  predicate HistoryInv(s: Sys) {
    && Justified(s.learned, s.history)
    && forall id :: id in s.calls && AdjCachingThisCall in s.calls[id].applied ==> CallDroppedMarker(s.history, id)
  }

  lemma JustifiedGrows(l: Learned, h: seq<Event>, e: Event)
    requires Justified(l, h)
    ensures Justified(l, h + [e])
  {
    var k := h + [e];
    assert forall i :: 0 <= i < |h| ==> k[i] == h[i];
    if ConfirmedWithoutMarker(h) {
      var j :| 0 <= j < |h| && h[j].WasAccepted? && !h[j].req.cacheControl && CallDroppedMarker(h[..j], h[j].id);
      assert k[..j] == h[..j] && k[j] == h[j];
    }
  }

  lemma DroppedGrows(h: seq<Event>, e: Event, id: nat)
    requires CallDroppedMarker(h, id)
    ensures CallDroppedMarker(h + [e], id)
  {
    var i :| 0 <= i < |h| && h[i].id == id && RejectedFor(h[i], AdjCachingThisCall);
    assert (h + [e])[i] == h[i];
  }

  lemma RejectionIsJustified(l: Learned, h: seq<Event>, id: nat, sent: Request, rej: Rejection)
    requires Justified(l, h)
    ensures Justified(LearnFrom(l, sent, rej), h + [WasRejected(id, sent, rej)])
  {
    var e := WasRejected(id, sent, rej);
    JustifiedGrows(l, h, e);
    assert (h + [e])[|h|] == e;
  }

  lemma AcceptanceIsJustified(l: Learned, h: seq<Event>, id: nat, sent: Request, applied: set<Adjustment>)
    requires Justified(l, h)
    requires AdjCachingThisCall in applied ==> CallDroppedMarker(h, id) && !sent.cacheControl
    ensures Justified(Confirmed(l, applied), h + [WasAccepted(id, sent)])
  {
    var e := WasAccepted(id, sent);
    JustifiedGrows(l, h, e);
    assert (h + [e])[|h|] == e && (h + [e])[..|h|] == h;
  }

  lemma StepKeepsHistoryInv(s: Sys, a: Action)
    requires CallsInv(s) && HistoryInv(s) && CanTake(s, a)
    ensures HistoryInv(Apply(s, a))
  {
    var t := Apply(s, a);
    if a.Begin? || a.ReadTemperature? || a.ReadEffort? || (a.Answer? && a.reply.OtherFailure?) {
    } else {
      var c, e := s.calls[a.id], t.history[|s.history|];
      assert t.history == s.history + [e];
      if a.ReadCache? {
        JustifiedGrows(s.learned, s.history, e);
      } else if a.reply.Rejected? {
        RejectionIsJustified(s.learned, s.history, a.id, c.phase.sent, a.reply.rej);
      } else {
        AcceptanceIsJustified(s.learned, s.history, a.id, c.phase.sent, c.applied);
      }
      forall id | id in t.calls && AdjCachingThisCall in t.calls[id].applied
        ensures CallDroppedMarker(t.history, id)
      {
        if AdjCachingThisCall in s.calls[id].applied {
          DroppedGrows(s.history, e, id);
        } else {
          assert e.id == id && RejectedFor(e, AdjCachingThisCall);
        }
      }
    }
  }

  lemma {:induction false} RunKeepsHistoryInv(s: Sys, acts: seq<Action>)
    requires CallsInv(s) && HistoryInv(s) && Executable(s, acts)
    ensures HistoryInv(After(s, acts))
    decreases |acts|
  {
    if acts != [] {
      StepKeepsCallsInv(s, acts[0]);
      StepKeepsHistoryInv(s, acts[0]);
      RunKeepsHistoryInv(Apply(s, acts[0]), acts[1..]);
    }
  }

  /**
   Over every run, what has been learned is justified by the history: automatic
   caching is dropped only after a rejection of a request without block markers, or
   after a resend of the same call without the marker was accepted; temperature is
   never dropped because of a request carrying Extension thinking; and every
   rejected level or thinking type was carried by a request rejected for it.
   */
  lemma LearnedIsJustified(acts: seq<Action>)
    requires Executable(INIT, acts)
    ensures Justified(After(INIT, acts).learned, After(INIT, acts).history)
    ensures After(INIT, acts).learned.dropTemperature ==>
      exists i :: 0 <= i < |After(INIT, acts).history| && TeachesTemperature(After(INIT, acts).history[i])
        && After(INIT, acts).history[i].req.thinking != Some(Enabled)
  {
    RunKeepsHistoryInv(INIT, acts);
    var s := After(INIT, acts);
    if s.learned.dropTemperature {
      var i :| 0 <= i < |s.history| && TeachesTemperature(s.history[i]);
    }
  }

  lemma InvalidSignatureStep(s: Sys, id: nat, rej: Rejection)
    requires CallsInv(s) && id in s.calls && s.calls[id].phase.Waiting?
    requires Adapt(s.calls[id].phase.sent, rej) == Some(AdjThinkingBlocks)
    ensures var t := Apply(s, Answer(id, Rejected(rej)));
      t.learned == s.learned && AdjThinkingBlocks in t.calls[id].applied
  {
    RejectionKeepsCallInv(s.learned, s.calls[id], rej);
  }

  /**
   An invalid-signature rejection of replayed thinking teaches the client nothing,
   and every later request of the call carries exactly the other blocks of the
   conversation, in order and under their own roles.
   */
  lemma InvalidSignatureTeachesNothing(acts: seq<Action>, id: nat, rej: Rejection)
    requires Executable(INIT, acts) && id in After(INIT, acts).calls && After(INIT, acts).calls[id].phase.Waiting?
    ensures var s := After(INIT, acts);
      var c, t := s.calls[id], Apply(s, Answer(id, Rejected(rej)));
      && (Adapt(c.phase.sent, rej) == Some(AdjThinkingBlocks) ==>
            t.learned == s.learned && AdjThinkingBlocks in t.calls[id].applied)
      && (AdjThinkingBlocks in c.applied ==>
            Blocks(c.phase.sent.messages) == WithoutThinking(Blocks(c.call.messages)))
  {
    RunKeepsCallsInv(INIT, acts);
    var s := After(INIT, acts);
    StripKeepsTheRest(s.calls[id].call.messages);
    if Adapt(s.calls[id].phase.sent, rej) == Some(AdjThinkingBlocks) {
      InvalidSignatureStep(s, id, rej);
    }
  }
}
