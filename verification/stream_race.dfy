/**
 The race between a provider's producer goroutine and `Stream.Collect`
 (`llm/stream.go`), as interleaved steps.

 A producer sends its chunks on a bounded channel, perhaps puts one error on a
 second channel, then closes the error channel and the chunk channel in that
 order. `Collect` loops over `Recv`, whose `select` may take either channel.
 A schedule is a sequence of steps of both parties; every theorem quantifies
 over all schedules.
 */
module StreamRace {
  import opened Common
  import opened Blocks

  /** `wrapsEOF` says whether `errors.Is(err, io.EOF)` holds. */
  datatype StreamError = StreamError(id: int, wrapsEOF: bool)

  /** What a producer will do, and the chunk channel's capacity. */
  datatype Script = Script(chunks: seq<StreamChunk>, err: Option<StreamError>, capacity: nat)

  /** The two channels together with how far the producer has got. */
  datatype Chan = Chan(
    sent: nat, queue: seq<StreamChunk>,
    errSent: bool, errBuf: Option<StreamError>,
    errClosed: bool, chunksClosed: bool)

  const NEW_CHAN := Chan(0, [], false, None, false, false)

  datatype Step =
    | Send | PutErr | CloseErr | CloseChunks                        // the producer
    | Cancel                                                        // the context
    | CheckCtx                                                      // Collect's loop head
    | TakeChunk | SeeChunksClosed | TakeErr | SeeErrClosed | Default // select arms

  // ---------- The producer ----------

  predicate ProducerEnabled(sc: Script, ch: Chan, step: Step) {
    match step
    case Send => ch.sent < |sc.chunks| && |ch.queue| < sc.capacity
    case PutErr => ch.sent == |sc.chunks| && sc.err.Some? && !ch.errSent
    case CloseErr => ch.sent == |sc.chunks| && (sc.err.Some? ==> ch.errSent) && !ch.errClosed
    case CloseChunks => ch.errClosed && !ch.chunksClosed
    case _ => false
  }

  function Produce(sc: Script, ch: Chan, step: Step): Chan
    requires ProducerEnabled(sc, ch, step)
  {
    match step
    case Send => ch.(queue := ch.queue + [sc.chunks[ch.sent]], sent := ch.sent + 1)
    case PutErr => ch.(errBuf := sc.err, errSent := true)
    case CloseErr => ch.(errClosed := true)
    case CloseChunks => ch.(chunksClosed := true)
  }

  // ---------- Recv ----------

  /** Where a `Recv` in progress stands: its outer select, the inner one, or the last receive. */
  datatype RecvAt = AtSelect | AtInner | AtWait

  datatype Received = Pending(at: RecvAt) | GotChunk(chunk: StreamChunk) | GotEOF | GotErr(err: StreamError)

  predicate RecvEnabled(ch: Chan, at: RecvAt, step: Step) {
    match step
    case TakeChunk => at != AtInner && ch.queue != []
    case SeeChunksClosed => at != AtInner && ch.queue == [] && ch.chunksClosed
    case TakeErr => at != AtWait && ch.errBuf.Some?
    case SeeErrClosed => at != AtWait && ch.errBuf.None? && ch.errClosed
    case Default => at == AtInner && ch.errBuf.None? && !ch.errClosed
    case _ => false
  }

  function Recv(ch: Chan, at: RecvAt, step: Step): (Chan, Received)
    requires RecvEnabled(ch, at, step)
  {
    match step
    case TakeChunk => (ch.(queue := ch.queue[1..]), GotChunk(ch.queue[0]))
    case SeeChunksClosed => (ch, if at == AtSelect then Pending(AtInner) else GotEOF)
    case TakeErr => (ch.(errBuf := None), GotErr(ch.errBuf.value))
    case SeeErrClosed => (ch, if at == AtSelect then Pending(AtWait) else GotEOF)
    case Default => (ch, GotEOF)
  }

  // ---------- Collect ----------

  datatype Outcome = Finished | Failed(err: StreamError) | Cancelled

  datatype Pc = AtTop | InRecv(at: RecvAt) | Draining(err: StreamError) | Returned(outcome: Outcome)

  datatype State = State(ch: Chan, acc: Acc, pc: Pc, ctxDone: bool)

  const START := State(NEW_CHAN, EMPTY, AtTop, false)

  function Response(s: State): ChatResponse { ChatResponse(s.acc.content, s.acc.usage) }

  predicate IsProducerStep(step: Step) { step in {Send, PutErr, CloseErr, CloseChunks} }

  predicate DrainEnabled(ch: Chan, step: Step) {
    match step
    case TakeChunk => ch.queue != []
    case SeeChunksClosed => ch.queue == [] && ch.chunksClosed
    case Default => ch.queue == [] && !ch.chunksClosed
    case _ => false
  }

  predicate Enabled(sc: Script, s: State, step: Step) {
    if IsProducerStep(step) then ProducerEnabled(sc, s.ch, step)
    else if step == Cancel then !s.ctxDone
    else match s.pc
      case AtTop => step == CheckCtx
      case InRecv(at) => RecvEnabled(s.ch, at, step)
      case Draining(_) => DrainEnabled(s.ch, step)
      case Returned(_) => false
  }

  function Return(s: State, o: Outcome): State { s.(acc := FlushAll(s.acc), pc := Returned(o)) }

  function OnReceived(s: State, r: Received): State {
    match r
    case Pending(at) => s.(pc := InRecv(at))
    case GotChunk(c) =>
      var t := s.(acc := Accumulate(s.acc, c));
      if c.ChunkDone? then Return(t, Finished) else t.(pc := AtTop)
    case GotEOF => Return(s, Finished)
    case GotErr(e) => if e.wrapsEOF then Return(s, Finished) else s.(pc := Draining(e))
  }

  function Apply(sc: Script, s: State, step: Step): State
    requires Enabled(sc, s, step)
  {
    if IsProducerStep(step) then s.(ch := Produce(sc, s.ch, step))
    else if step == Cancel then s.(ctxDone := true)
    else match s.pc
      case AtTop => if s.ctxDone then Return(s, Cancelled) else s.(pc := InRecv(AtSelect))
      case InRecv(at) =>
        var (ch, r) := Recv(s.ch, at, step);
        OnReceived(s.(ch := ch), r)
      case Draining(e) =>
        if step == TakeChunk
        then s.(ch := s.ch.(queue := s.ch.queue[1..]), acc := Accumulate(s.acc, s.ch.queue[0]))
        else Return(s, Failed(e))
  }

  // ---------- Schedules ----------

  predicate Executable(sc: Script, s: State, steps: seq<Step>)
    decreases |steps|
  {
    steps == [] || (Enabled(sc, s, steps[0]) && Executable(sc, Apply(sc, s, steps[0]), steps[1..]))
  }

  function After(sc: Script, s: State, steps: seq<Step>): State
    requires Executable(sc, s, steps)
    decreases |steps|
  {
    if steps == [] then s else After(sc, Apply(sc, s, steps[0]), steps[1..])
  }

  /** A schedule from the start under which `Collect` returns. */
  predicate Completes(sc: Script, steps: seq<Step>) {
    Executable(sc, START, steps) && After(sc, START, steps).pc.Returned?
  }

  lemma {:induction false} RunConcat(sc: Script, s: State, xs: seq<Step>, ys: seq<Step>)
    requires Executable(sc, s, xs) && Executable(sc, After(sc, s, xs), ys)
    ensures Executable(sc, s, xs + ys) && After(sc, s, xs + ys) == After(sc, After(sc, s, xs), ys)
    decreases |xs|
  {
    if xs == [] {
      assert xs + ys == ys;
    } else {
      assert (xs + ys)[1..] == xs[1..] + ys;
      RunConcat(sc, Apply(sc, s, xs[0]), xs[1..], ys);
    }
  }

  // ---------- The invariant ----------

  predicate NoDone(cs: seq<StreamChunk>) { forall i :: 0 <= i < |cs| ==> !cs[i].ChunkDone? }

  predicate EndsAtFirstDone(cs: seq<StreamChunk>) {
    cs != [] && cs[|cs| - 1].ChunkDone? && NoDone(cs[..|cs| - 1])
  }

  /** How many chunks the consumer has taken. */
  function Taken(ch: Chan): int { ch.sent - |ch.queue| }

  predicate ChanInv(sc: Script, ch: Chan) {
    && |ch.queue| <= ch.sent <= |sc.chunks|
    && |ch.queue| <= sc.capacity
    && ch.queue == sc.chunks[Taken(ch)..ch.sent]
    && (ch.errSent ==> ch.sent == |sc.chunks| && sc.err.Some?)
    && (ch.errBuf.Some? ==> ch.errSent && ch.errBuf == sc.err)
    && (ch.errClosed ==> ch.sent == |sc.chunks| && (sc.err.Some? ==> ch.errSent))
    && (ch.chunksClosed ==> ch.errClosed)
  }

  /** The results the code can return, `cs` being the chunks folded into the response. */
  predicate Possible(sc: Script, cs: seq<StreamChunk>, ctxDone: bool, o: Outcome) {
    match o
    case Finished =>
      || EndsAtFirstDone(cs)
      || (NoDone(cs) && cs == sc.chunks && sc.err.None?)
      || (NoDone(cs) && sc.err.Some? && sc.err.value.wrapsEOF)
    case Failed(e) => sc.err == Some(e) && !e.wrapsEOF && cs == sc.chunks
    case Cancelled => ctxDone && NoDone(cs)
  }

  predicate Inv(sc: Script, s: State) {
    && ChanInv(sc, s.ch)
    && var cs := sc.chunks[..Taken(s.ch)];
       match s.pc
       case Returned(o) =>
         s.acc == FlushAll(Fold(EMPTY, cs)) && Possible(sc, cs, s.ctxDone, o)
       case Draining(e) =>
         s.acc == Fold(EMPTY, cs) && sc.err == Some(e) && !e.wrapsEOF && s.ch.errSent
       case AtTop =>
         s.acc == Fold(EMPTY, cs) && NoDone(cs) && (s.ch.errSent ==> s.ch.errBuf.Some?)
       case InRecv(at) =>
         && s.acc == Fold(EMPTY, cs) && NoDone(cs) && (s.ch.errSent ==> s.ch.errBuf.Some?)
         && (at == AtInner ==> s.ch.chunksClosed && s.ch.queue == [])
         && (at == AtWait ==> s.ch.errClosed && sc.err.None?)
  }

  /** Taking the head of the queue folds the next chunk of the script. */
  lemma TakeFoldsNext(sc: Script, ch: Chan)
    requires ChanInv(sc, ch) && ch.queue != []
    ensures var ch' := ch.(queue := ch.queue[1..]);
      && ChanInv(sc, ch')
      && Taken(ch') == Taken(ch) + 1
      && sc.chunks[..Taken(ch')] == sc.chunks[..Taken(ch)] + [ch.queue[0]]
      && Fold(EMPTY, sc.chunks[..Taken(ch')]) == Accumulate(Fold(EMPTY, sc.chunks[..Taken(ch)]), ch.queue[0])
  {
    var k := Taken(ch);
    assert ch.queue[0] == sc.chunks[k];
    assert sc.chunks[..k + 1] == sc.chunks[..k] + [sc.chunks[k]];
    FoldSnoc(EMPTY, sc.chunks[..k], sc.chunks[k]);
    assert ch.queue[1..] == sc.chunks[k + 1..ch.sent];
  }

  lemma TakeKeepsInv(sc: Script, s: State)
    requires Inv(sc, s) && Enabled(sc, s, TakeChunk)
    ensures Inv(sc, Apply(sc, s, TakeChunk))
  {
    TakeFoldsNext(sc, s.ch);
    var cs := sc.chunks[..Taken(s.ch)];
    assert (cs + [s.ch.queue[0]])[..|cs|] == cs;
  }

  lemma EndKeepsInv(sc: Script, s: State, step: Step)
    requires Inv(sc, s) && Enabled(sc, s, step) && !IsProducerStep(step) && step != TakeChunk
    ensures Inv(sc, Apply(sc, s, step))
  {
    assert s.ch.queue == [] && s.ch.sent == |sc.chunks| ==> sc.chunks[..Taken(s.ch)] == sc.chunks;
  }

  lemma StepKeepsInv(sc: Script, s: State, step: Step)
    requires Inv(sc, s) && Enabled(sc, s, step)
    ensures Inv(sc, Apply(sc, s, step))
  {
    if IsProducerStep(step) {
    } else if step == TakeChunk {
      TakeKeepsInv(sc, s);
    } else {
      EndKeepsInv(sc, s, step);
    }
  }

  lemma {:induction false} RunKeepsInv(sc: Script, s: State, steps: seq<Step>)
    requires Inv(sc, s) && Executable(sc, s, steps)
    ensures Inv(sc, After(sc, s, steps))
    decreases |steps|
  {
    if steps != [] {
      StepKeepsInv(sc, s, steps[0]);
      RunKeepsInv(sc, Apply(sc, s, steps[0]), steps[1..]);
    }
  }

  lemma StartInv(sc: Script)
    ensures Inv(sc, START)
  {
    assert sc.chunks[0..0] == [];
  }

  lemma {:induction false} OnlyCancelCancels(sc: Script, s: State, steps: seq<Step>)
    requires Executable(sc, s, steps) && Cancel !in steps && !s.ctxDone
    ensures !After(sc, s, steps).ctxDone
    decreases |steps|
  {
    if steps != [] {
      OnlyCancelCancels(sc, Apply(sc, s, steps[0]), steps[1..]);
    }
  }

  // ---------- What Collect returns ----------

  /** The stream up to and including its first done chunk. */
  function UpToDone(cs: seq<StreamChunk>): (r: seq<StreamChunk>)
    ensures r <= cs && (EndsAtFirstDone(r) || (r == cs && NoDone(cs)))
  {
    if cs == [] then []
    else if cs[0].ChunkDone? then [cs[0]]
    else
      var rest := UpToDone(cs[1..]);
      assert EndsAtFirstDone(rest) ==> ([cs[0]] + rest)[..|rest|] == [cs[0]] + rest[..|rest| - 1];
      [cs[0]] + rest
  }

  lemma {:induction false} FirstDoneIsUnique(cs: seq<StreamChunk>, k: nat)
    requires k <= |cs| && EndsAtFirstDone(cs[..k])
    ensures cs[..k] == UpToDone(cs)
    decreases |cs|
  {
    assert cs[..k][0] == cs[0];
    if k == 1 {
      assert cs[..1] == [cs[0]];
    } else {
      assert cs[..k][..k - 1][0] == cs[0];
      assert cs[1..][..k - 1] == cs[..k][1..];
      assert cs[1..][..k - 1][..k - 2] == cs[..k][..k - 1][1..];
      FirstDoneIsUnique(cs[1..], k - 1);
      assert cs[..k] == [cs[0]] + cs[1..][..k - 1];
    }
  }

  /** Every schedule, cancelled or not, returns the fold of a prefix and one of the possible outcomes. */
  lemma EveryScheduleReturnsAPrefix(sc: Script, steps: seq<Step>) returns (k: nat)
    requires Completes(sc, steps)
    ensures k <= |sc.chunks|
    ensures var s := After(sc, START, steps);
      Response(s) == Collected(sc.chunks[..k]) && Possible(sc, sc.chunks[..k], s.ctxDone, s.pc.outcome)
  {
    StartInv(sc);
    RunKeepsInv(sc, START, steps);
    k := Taken(After(sc, START, steps).ch);
  }

  function ErrorOutcome(err: Option<StreamError>): Outcome {
    if err.None? then Finished else Failed(err.value)
  }

  /** `Collect` returned every chunk through the first done chunk, and the producer's error. */
  predicate Faithful(sc: Script, s: State) {
    s.pc == Returned(ErrorOutcome(sc.err)) && Response(s) == Collected(UpToDone(sc.chunks))
  }

  /** The condition on the producer under which no race is visible. */
  predicate RaceFree(sc: Script) {
    sc.err.None? || (!sc.err.value.wrapsEOF && NoDone(sc.chunks))
  }

  lemma PossibleIsFaithful(sc: Script, k: nat, o: Outcome)
    requires RaceFree(sc) && k <= |sc.chunks| && Possible(sc, sc.chunks[..k], false, o)
    ensures sc.chunks[..k] == UpToDone(sc.chunks) && o == ErrorOutcome(sc.err)
  {
    if EndsAtFirstDone(sc.chunks[..k]) {
      FirstDoneIsUnique(sc.chunks, k);
    }
  }

  /**
   The result does not depend on the schedule: whichever select arms fire and
   however the parties interleave, no chunk and no error is lost.
   */
  lemma ScheduleIndependence(sc: Script, steps: seq<Step>)
    requires RaceFree(sc) && Completes(sc, steps) && Cancel !in steps
    ensures Faithful(sc, After(sc, START, steps))
  {
    OnlyCancelCancels(sc, START, steps);
    var k := EveryScheduleReturnsAPrefix(sc, steps);
    PossibleIsFaithful(sc, k, After(sc, START, steps).pc.outcome);
  }

  // ---------- Cancellation ----------

  /** Whether the context was done when `Collect` last looked at it, at the head of its loop. */
  predicate LastLookSawDone(sc: Script, s: State, steps: seq<Step>, before: bool)
    requires Executable(sc, s, steps)
    decreases |steps|
  {
    if steps == [] then before
    else LastLookSawDone(sc, Apply(sc, s, steps[0]), steps[1..], if steps[0] == CheckCtx then s.ctxDone else before)
  }

  /** How often the consumer goes from the head of its loop into a receive. */
  function ReceivesBegun(sc: Script, s: State, steps: seq<Step>): nat
    requires Executable(sc, s, steps)
    decreases |steps|
  {
    if steps == [] then 0
    else
      var t := Apply(sc, s, steps[0]);
      (if s.pc.AtTop? && t.pc.InRecv? then 1 else 0) + ReceivesBegun(sc, t, steps[1..])
  }

  lemma LookStep(sc: Script, s: State, step: Step, before: bool)
    requires Enabled(sc, s, step) && (s.pc == Returned(Cancelled) <==> before)
    ensures Apply(sc, s, step).pc == Returned(Cancelled) <==> (if step == CheckCtx then s.ctxDone else before)
  {
  }

  lemma {:induction false} LooksDecide(sc: Script, s: State, steps: seq<Step>, before: bool)
    requires Executable(sc, s, steps) && (s.pc == Returned(Cancelled) <==> before)
    ensures After(sc, s, steps).pc == Returned(Cancelled) <==> LastLookSawDone(sc, s, steps, before)
    decreases |steps|
  {
    if steps != [] {
      LookStep(sc, s, steps[0], before);
      LooksDecide(sc, Apply(sc, s, steps[0]), steps[1..], if steps[0] == CheckCtx then s.ctxDone else before);
    }
  }

  /**
   Under every schedule `Collect` returns the context's error exactly when the context
   was done the last time it looked, at the head of its loop.
   */
  lemma CancelledIffSeen(sc: Script, steps: seq<Step>)
    requires Completes(sc, steps)
    ensures After(sc, START, steps).pc.outcome == Cancelled <==> LastLookSawDone(sc, START, steps, false)
  {
    LooksDecide(sc, START, steps, false);
  }

  /** What a consumer may still do once the context is done, from where it stands. */
  predicate OnlyFinishes(s: State, t: State) {
    && t.ctxDone
    && (s.pc.AtTop? ==>
          && Taken(t.ch) == Taken(s.ch)
          && (t.pc.AtTop? || (t.pc == Returned(Cancelled) && t.acc == FlushAll(s.acc))))
    && (s.pc.InRecv? ==>
          || (t.pc.InRecv? && Taken(t.ch) == Taken(s.ch))
          || (t.pc.AtTop? && Taken(t.ch) == Taken(s.ch) + 1)
          || (t.pc.Returned? && Taken(t.ch) <= Taken(s.ch) + 1 && !t.pc.outcome.Failed?)
          || t.pc.Draining? || (t.pc.Returned? && t.pc.outcome.Failed?))
    && (s.pc.Draining? ==> t.pc == s.pc || t.pc == Returned(Failed(s.pc.err)))
    && (s.pc.Returned? ==> t.pc == s.pc && t.acc == s.acc && Taken(t.ch) == Taken(s.ch))
  }

  lemma FinishStep(sc: Script, s: State, step: Step)
    requires s.ctxDone && Enabled(sc, s, step)
    ensures OnlyFinishes(s, Apply(sc, s, step)) && !(s.pc.AtTop? && Apply(sc, s, step).pc.InRecv?)
    ensures s.pc.AtTop? && Apply(sc, s, step).pc.AtTop? ==> Apply(sc, s, step).acc == s.acc
  {
  }

  lemma FinishThenFinish(s: State, t: State, u: State)
    requires OnlyFinishes(s, t) && OnlyFinishes(t, u) && (s.pc.AtTop? && t.pc.AtTop? ==> t.acc == s.acc)
    ensures OnlyFinishes(s, u)
  {
  }

  /**
   Once the context is done the consumer begins no new receive, whatever the schedule:
   at the head of its loop it takes nothing more and returns the context's error with
   what it has; a receive under way takes at most one more chunk, or an error and the
   drain that follows it.
   */
  lemma {:induction false} CancelStopsTheConsumer(sc: Script, s: State, steps: seq<Step>)
    requires s.ctxDone && Executable(sc, s, steps)
    ensures OnlyFinishes(s, After(sc, s, steps)) && ReceivesBegun(sc, s, steps) == 0
    decreases |steps|
  {
    if steps != [] {
      var t := Apply(sc, s, steps[0]);
      FinishStep(sc, s, steps[0]);
      CancelStopsTheConsumer(sc, t, steps[1..]);
      FinishThenFinish(s, t, After(sc, t, steps[1..]));
    }
  }

  /** A context done before `Collect` is called: nothing is received, and its error returned. */
  lemma CancelledFromTheStart(sc: Script, steps: seq<Step>)
    requires Executable(sc, START.(ctxDone := true), steps) && After(sc, START.(ctxDone := true), steps).pc.Returned?
    ensures var t := After(sc, START.(ctxDone := true), steps);
      t.pc == Returned(Cancelled) && Taken(t.ch) == 0 && Response(t) == Collected([])
  {
    CancelStopsTheConsumer(sc, START.(ctxDone := true), steps);
  }

  // ---------- Exactly when the result is faithful ----------

  /**
   Every uncancelled schedule is faithful if and only if the producer reports no
   error, or reports one that does not wrap `io.EOF` and sent no done chunk
   before it.
   */
  lemma FaithfulIffRaceFree(sc: Script)
    requires sc.capacity >= 1
    ensures RaceFree(sc) <==>
      (forall steps :: Completes(sc, steps) && Cancel !in steps ==> Faithful(sc, After(sc, START, steps)))
  {
    if RaceFree(sc) {
      forall steps | Completes(sc, steps) && Cancel !in steps
        ensures Faithful(sc, After(sc, START, steps))
      {
        ScheduleIndependence(sc, steps);
      }
    } else if sc.err.value.wrapsEOF {
      StartInv(sc);
      var steps := CanComplete(sc, START);
      assert Completes(sc, steps);
      OnlyCancelCancels(sc, START, steps);
      var k := EveryScheduleReturnsAPrefix(sc, steps);
      assert !Faithful(sc, After(sc, START, steps));
    } else {
      var steps := DoneCanHideTheError(sc);
      assert !Faithful(sc, After(sc, START, steps));
    }
  }

  /** When a done chunk precedes the error, a consumer that keeps up never sees the error. */
  lemma DoneCanHideTheError(sc: Script) returns (steps: seq<Step>)
    requires sc.capacity >= 1 && !NoDone(sc.chunks)
    ensures Completes(sc, steps) && Cancel !in steps
    ensures After(sc, START, steps).pc == Returned(Finished)
  {
    var u := UpToDone(sc.chunks);
    var k := |u| - 1;
    assert u[..k] == sc.chunks[..k];
    var before := EagerPrefix(sc, k);
    assert sc.chunks[k] == u[k];
    var more := [Send, CheckCtx, TakeChunk];
    assert more[1..] == [CheckCtx, TakeChunk] && more[1..][1..] == [TakeChunk] && more[1..][1..][1..] == [];
    RunConcat(sc, START, before, more);
    steps := before + more;
  }

  /** The consumer keeps up with the producer through the first `k` chunks. */
  lemma {:induction false} EagerPrefix(sc: Script, k: nat) returns (steps: seq<Step>)
    requires sc.capacity >= 1 && k <= |sc.chunks| && NoDone(sc.chunks[..k])
    ensures Executable(sc, START, steps) && Cancel !in steps
    ensures After(sc, START, steps) ==
      State(NEW_CHAN.(sent := k), Fold(EMPTY, sc.chunks[..k]), AtTop, false)
  {
    if k == 0 {
      return [];
    }
    assert forall i :: 0 <= i < k - 1 ==> sc.chunks[..k - 1][i] == sc.chunks[..k][i];
    var before := EagerPrefix(sc, k - 1);
    var s0 := After(sc, START, before);
    var s1 := Apply(sc, s0, Send);
    var s2 := Apply(sc, s1, CheckCtx);
    var c := sc.chunks[..k][k - 1];
    assert sc.chunks[..k] == sc.chunks[..k - 1] + [c];
    FoldSnoc(EMPTY, sc.chunks[..k - 1], c);
    var more := [Send, CheckCtx, TakeChunk];
    assert more[1..] == [CheckCtx, TakeChunk] && more[1..][1..] == [TakeChunk] && more[1..][1..][1..] == [];
    RunConcat(sc, START, before, more);
    steps := before + more;
  }

  // ---------- Progress ----------

  function PcRank(pc: Pc): nat {
    match pc
    case AtTop => 4
    case InRecv(AtSelect) => 3
    case InRecv(_) => 2
    case Draining(_) => 1
    case Returned(_) => 0
  }

  function Flag(b: bool): nat { if b then 0 else 1 }

  /** Producer steps left, chunks left to take, and the consumer's position. */
  function Measure(sc: Script, s: State): nat
    requires ChanInv(sc, s.ch)
  {
    (|sc.chunks| - s.ch.sent) + Flag(s.ch.errSent) + Flag(s.ch.errClosed) + Flag(s.ch.chunksClosed)
    + 3 * (|sc.chunks| - Taken(s.ch)) + PcRank(s.pc)
  }

  lemma ProduceLowersMeasure(sc: Script, s: State, step: Step)
    requires ChanInv(sc, s.ch) && Enabled(sc, s, step) && IsProducerStep(step)
    requires ChanInv(sc, Apply(sc, s, step).ch)
    ensures Measure(sc, Apply(sc, s, step)) < Measure(sc, s)
  {
    assert Taken(Produce(sc, s.ch, step)) == Taken(s.ch);
  }

  lemma TakeLowersMeasure(sc: Script, s: State)
    requires ChanInv(sc, s.ch) && Enabled(sc, s, TakeChunk)
    requires ChanInv(sc, Apply(sc, s, TakeChunk).ch)
    ensures Measure(sc, Apply(sc, s, TakeChunk)) < Measure(sc, s)
  {
  }

  lemma StepLowersMeasure(sc: Script, s: State, step: Step)
    requires ChanInv(sc, s.ch) && Enabled(sc, s, step) && step != Cancel
    requires ChanInv(sc, Apply(sc, s, step).ch)
    ensures Measure(sc, Apply(sc, s, step)) < Measure(sc, s)
  {
    if IsProducerStep(step) {
      ProduceLowersMeasure(sc, s, step);
    } else if step == TakeChunk {
      TakeLowersMeasure(sc, s);
    }
  }

  lemma StepDecreases(sc: Script, s: State, step: Step)
    requires Inv(sc, s) && Enabled(sc, s, step) && step != Cancel
    ensures Inv(sc, Apply(sc, s, step))
    ensures Measure(sc, Apply(sc, s, step)) < Measure(sc, s)
  {
    StepKeepsInv(sc, s, step);
    StepLowersMeasure(sc, s, step);
  }

  /** No deadlock: until `Collect` returns, some party other than the context can move. */
  function NextStep(sc: Script, s: State): (step: Step)
    requires Inv(sc, s) && !s.pc.Returned? && sc.capacity >= 1
    ensures Enabled(sc, s, step) && step != Cancel
  {
    match s.pc
    case AtTop => CheckCtx
    case Draining(_) =>
      if s.ch.queue != [] then TakeChunk else if s.ch.chunksClosed then SeeChunksClosed else Default
    case InRecv(AtInner) =>
      if s.ch.errBuf.Some? then TakeErr else if s.ch.errClosed then SeeErrClosed else Default
    case InRecv(_) =>
      if s.ch.queue != [] then TakeChunk
      else if s.ch.sent < |sc.chunks| then Send
      else if sc.err.Some? && !s.ch.errSent then PutErr
      else if !s.ch.errClosed then CloseErr
      else if !s.ch.chunksClosed then CloseChunks
      else SeeChunksClosed
  }

  /** From every reachable state some schedule without a cancellation completes. */
  lemma {:induction false} CanComplete(sc: Script, s: State) returns (steps: seq<Step>)
    requires Inv(sc, s) && sc.capacity >= 1
    ensures Executable(sc, s, steps) && After(sc, s, steps).pc.Returned? && Cancel !in steps
    decreases Measure(sc, s)
  {
    if s.pc.Returned? {
      return [];
    }
    var step := NextStep(sc, s);
    StepDecreases(sc, s, step);
    var rest := CanComplete(sc, Apply(sc, s, step));
    steps := [step] + rest;
    assert steps[1..] == rest;
  }

  /** No livelock: an uncancelled schedule is never longer than the measure of its start. */
  lemma {:induction false} SchedulesAreBounded(sc: Script, s: State, steps: seq<Step>)
    requires Inv(sc, s) && Executable(sc, s, steps) && Cancel !in steps
    ensures |steps| <= Measure(sc, s)
    decreases |steps|
  {
    if steps != [] {
      StepDecreases(sc, s, steps[0]);
      SchedulesAreBounded(sc, Apply(sc, s, steps[0]), steps[1..]);
    }
  }

  // ---------- The producer after Collect has returned ----------

  predicate OnlyProducer(steps: seq<Step>) { forall step :: step in steps ==> IsProducerStep(step) }

  predicate BothClosed(ch: Chan) { ch.errClosed && ch.chunksClosed }

  /** The producer runs to the end of its goroutine by its own steps. */
  predicate ProducerFinishes(sc: Script, s: State, steps: seq<Step>) {
    OnlyProducer(steps) && Executable(sc, s, steps) && BothClosed(After(sc, s, steps).ch)
  }

  /**
   Once `Collect` has returned nobody takes chunks, and the producer's sends do not look
   at the context: it reaches the end of its goroutine, closing both channels, if and
   only if the chunks not taken fit the channel. Otherwise it blocks for good.
   */
  lemma ProducerFinishesIffRestFits(sc: Script, s: State)
    requires Inv(sc, s) && s.pc.Returned?
    ensures (exists steps :: ProducerFinishes(sc, s, steps)) <==> |sc.chunks| - Taken(s.ch) <= sc.capacity
  {
    if |sc.chunks| - Taken(s.ch) <= sc.capacity {
      var steps := ProducerCanFinish(sc, s);
    } else {
      forall steps
        ensures !ProducerFinishes(sc, s, steps)
      {
        if ProducerFinishes(sc, s, steps) {
          ProducerTakesNothing(sc, s, steps);
        }
      }
    }
  }

  /** A done chunk with more than a channel's worth of chunks behind it leaves the producer blocked. */
  lemma ChunksAfterDoneCanBlockTheProducer(sc: Script) returns (steps: seq<Step>)
    requires sc.capacity >= 1 && |sc.chunks| > |UpToDone(sc.chunks)| + sc.capacity
    ensures Completes(sc, steps) && Cancel !in steps
    ensures forall more :: !ProducerFinishes(sc, After(sc, START, steps), more)
  {
    steps := DoneCanHideTheError(sc);
    StartInv(sc);
    RunKeepsInv(sc, START, steps);
    var s := After(sc, START, steps);
    TakenUpToDone(sc.chunks, Taken(s.ch));
    ProducerFinishesIffRestFits(sc, s);
  }

  lemma {:induction false} ProducerTakesNothing(sc: Script, s: State, steps: seq<Step>)
    requires Inv(sc, s) && Executable(sc, s, steps) && OnlyProducer(steps)
    ensures Inv(sc, After(sc, s, steps)) && Taken(After(sc, s, steps).ch) == Taken(s.ch)
    decreases |steps|
  {
    if steps != [] {
      var t := Apply(sc, s, steps[0]);
      StepKeepsInv(sc, s, steps[0]);
      assert Taken(t.ch) == Taken(s.ch);
      ProducerTakesNothing(sc, t, steps[1..]);
    }
  }

  /** What the producer does next, when what is left to take fits the channel. */
  function ProducerNext(sc: Script, s: State): (step: Step)
    requires Inv(sc, s) && !BothClosed(s.ch) && |sc.chunks| - Taken(s.ch) <= sc.capacity
    ensures IsProducerStep(step) && Enabled(sc, s, step)
  {
    if s.ch.sent < |sc.chunks| then Send
    else if sc.err.Some? && !s.ch.errSent then PutErr
    else if !s.ch.errClosed then CloseErr
    else CloseChunks
  }

  lemma {:induction false} ProducerCanFinish(sc: Script, s: State) returns (steps: seq<Step>)
    requires Inv(sc, s) && |sc.chunks| - Taken(s.ch) <= sc.capacity
    ensures ProducerFinishes(sc, s, steps)
    decreases Measure(sc, s)
  {
    if BothClosed(s.ch) {
      return [];
    }
    var step := ProducerNext(sc, s);
    StepDecreases(sc, s, step);
    var t := Apply(sc, s, step);
    assert Taken(t.ch) == Taken(s.ch);
    var rest := ProducerCanFinish(sc, t);
    steps := [step] + rest;
    assert steps[1..] == rest;
  }

  lemma TakenUpToDone(cs: seq<StreamChunk>, k: nat)
    requires k <= |cs| && (EndsAtFirstDone(cs[..k]) || NoDone(cs[..k]))
    ensures k <= |UpToDone(cs)|
  {
    if EndsAtFirstDone(cs[..k]) {
      FirstDoneIsUnique(cs, k);
    } else {
      var u := UpToDone(cs);
      assert forall i :: 0 <= i < |u| ==> u[i] == cs[i];
      assert forall i :: 0 <= i < k ==> cs[..k][i] == cs[i];
    }
  }
}
