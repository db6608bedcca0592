/**
 The proxy's Server-Sent-Events bridge, `writeSSE` in `llm/proxy/sse.go`: it
 writes one event per chunk received and assembles the same chunks into the
 response handed to hooks.

 Whether a chunk can be marshalled to JSON is an arbitrary predicate.
 */
module Sse {
  import opened Common
  import opened Blocks
  import opened StreamRace
  import opened Streams

  datatype SseEvent =
    | DataEvent(chunk: StreamChunk)
    | DoneEvent(chunk: StreamChunk)
    | SyntheticDone
    | ErrorEvent(err: StreamError)

  datatype SseResult = SseOk | SseError(err: StreamError) | SseMarshal(chunk: StreamChunk)

  datatype Bridged = Bridged(events: seq<SseEvent>, resp: ChatResponse, result: SseResult)

  function DataEvents(cs: seq<StreamChunk>): (es: seq<SseEvent>)
    ensures |es| == |cs|
  {
    seq(|cs|, i requires 0 <= i < |cs| => DataEvent(cs[i]))
  }

  predicate Terminator(e: SseEvent) { !e.DataEvent? }

  /**
   What the contract of `writeSSE` promises when it has consumed the chunks `cs`:
   the data events are the non-done chunks in order, the terminator (if any) is
   the last event and agrees with the returned error, the response is the fold of
   exactly what was emitted, and only a chunk that cannot be marshalled leaves
   the stream without a terminator.
   */
  ghost predicate Contract(cs: seq<StreamChunk>, marshals: StreamChunk -> bool, b: Bridged) {
    && b.resp == Collected(cs)
    && (forall c :: c in cs ==> marshals(c))
    && match b.result
       case SseMarshal(c) => NoDone(cs) && !marshals(c) && b.events == DataEvents(cs)
       case SseError(e) => NoDone(cs) && b.events == DataEvents(cs) + [ErrorEvent(e)]
       case SseOk =>
         || (NoDone(cs) && b.events == DataEvents(cs) + [SyntheticDone])
         || (EndsAtFirstDone(cs) && b.events == DataEvents(cs[..|cs| - 1]) + [DoneEvent(cs[|cs| - 1])])
  }

  /**
   Why it stopped after `k` chunks: at the very chunk that cannot be marshalled, on the
   producer's own error, or because the stream was over.
   */
  predicate Explained(sc: Script, k: nat, marshals: StreamChunk -> bool, result: SseResult)
    requires k <= |sc.chunks|
  {
    match result
    case SseMarshal(c) => k < |sc.chunks| && c == sc.chunks[k] && !marshals(c)
    case SseError(e) => sc.err == Some(e) && !e.wrapsEOF
    case SseOk =>
      || EndsAtFirstDone(sc.chunks[..k])
      || (k == |sc.chunks| && sc.err.None?)
      || (sc.err.Some? && sc.err.value.wrapsEOF)
  }

  function Terminators(es: seq<SseEvent>): nat {
    if es == [] then 0
    else Terminators(es[..|es| - 1]) + if Terminator(es[|es| - 1]) then 1 else 0
  }

  lemma {:induction false} DataEventsHaveNoTerminator(cs: seq<StreamChunk>)
    ensures Terminators(DataEvents(cs)) == 0
    decreases |cs|
  {
    if cs != [] {
      assert DataEvents(cs)[..|cs| - 1] == DataEvents(cs[..|cs| - 1]);
      DataEventsHaveNoTerminator(cs[..|cs| - 1]);
    }
  }

  /** The chunks a client reads back off the wire. */
  function ChunksOnWire(es: seq<SseEvent>): seq<StreamChunk> {
    if es == [] then []
    else ChunksOnWire(es[..|es| - 1]) + (match es[|es| - 1]
      case DataEvent(c) => [c]
      case DoneEvent(c) => [c]
      case _ => [])
  }

  lemma {:induction false} ChunksOnWireOfData(cs: seq<StreamChunk>)
    ensures ChunksOnWire(DataEvents(cs)) == cs
    decreases |cs|
  {
    if cs != [] {
      assert DataEvents(cs)[..|cs| - 1] == DataEvents(cs[..|cs| - 1]);
      ChunksOnWireOfData(cs[..|cs| - 1]);
    }
  }

  lemma DataWithTail(cs: seq<StreamChunk>, tail: Option<SseEvent>)
    requires tail.Some? ==> Terminator(tail.value)
    ensures tail.None? ==> Terminators(DataEvents(cs)) == 0 && ChunksOnWire(DataEvents(cs)) == cs
    ensures tail.Some? ==>
      var es := DataEvents(cs) + [tail.value];
      && Terminators(es) == 1
      && ChunksOnWire(es) == cs + (if tail.value.DoneEvent? then [tail.value.chunk] else [])
  {
    DataEventsHaveNoTerminator(cs);
    ChunksOnWireOfData(cs);
    if tail.Some? {
      assert (DataEvents(cs) + [tail.value])[..|cs|] == DataEvents(cs);
      assert cs + [] == cs;
    }
  }

  /**
   Consequences for a reader of the wire: there is exactly one terminator, as the
   last event, unless a chunk failed to marshal, when there is none; and
   collecting the chunks read off the wire gives the response the hooks saw.
   */
  lemma WireAgreesWithResponse(cs: seq<StreamChunk>, marshals: StreamChunk -> bool, b: Bridged)
    requires Contract(cs, marshals, b)
    ensures Terminators(b.events) == if b.result.SseMarshal? then 0 else 1
    ensures !b.result.SseMarshal? ==> b.events != [] && Terminator(b.events[|b.events| - 1])
    ensures ChunksOnWire(b.events) == cs && Collected(ChunksOnWire(b.events)) == b.resp
  {
    match b.result {
      case SseMarshal(_) => DataWithTail(cs, None);
      case SseError(e) => DataWithTail(cs, Some(ErrorEvent(e)));
      case SseOk =>
        if NoDone(cs) && b.events == DataEvents(cs) + [SyntheticDone] {
          DataWithTail(cs, Some(SyntheticDone));
        } else {
          DataWithDone(cs);
        }
    }
  }

  lemma DataWithDone(cs: seq<StreamChunk>)
    requires EndsAtFirstDone(cs)
    ensures var n := |cs| - 1;
      var es := DataEvents(cs[..n]) + [DoneEvent(cs[n])];
      Terminators(es) == 1 && ChunksOnWire(es) == cs
  {
    var n := |cs| - 1;
    DataWithTail(cs[..n], Some(DoneEvent(cs[n])));
    assert cs[..n] + [cs[n]] == cs;
  }

  lemma DataEventsSnoc(cs: seq<StreamChunk>, k: nat)
    requires k < |cs|
    ensures DataEvents(cs[..k + 1]) == DataEvents(cs[..k]) + [DataEvent(cs[k])]
  {
  }

  class SseWriter {
    var events: seq<SseEvent>

    constructor ()
      ensures events == []
    {
      events := [];
    }

    method Write(e: SseEvent)
      modifies this
      ensures events == old(events) + [e]
    {
      events := events + [e];
    }
  }

  /**
   `writeSSE`. For every schedule the events, the response and the error meet the
   contract for some prefix of the producer's chunks, the result says why it stopped
   there, and that prefix is the whole stream (through its first done chunk) when
   there is no error and every chunk marshals. Unlike `Collect`, chunks still buffered when the error is
   received are not drained.
   */
  method WriteSSE(w: SseWriter, stream: Stream, marshals: StreamChunk -> bool)
    returns (resp: ChatResponse, result: SseResult, ghost k: nat)
    requires w.events == [] && stream.script.capacity >= 1 && stream.ch == NEW_CHAN
    modifies w, stream
    ensures k <= |stream.script.chunks|
    ensures Contract(stream.script.chunks[..k], marshals, Bridged(w.events, resp, result))
    ensures Explained(stream.script, k, marshals, result)
    ensures result.SseError? ==> stream.script.err == Some(result.err)
    ensures stream.script.err.None? && (forall c :: c in stream.script.chunks ==> marshals(c)) ==>
      result == SseOk && stream.script.chunks[..k] == UpToDone(stream.script.chunks)
  {
    var asm := new Assembler();
    k := 0;
    NewChannel(stream.script);
    ghost var cs := stream.script.chunks;
    var done: Option<SseResult> := None;
    while done.None?
      invariant asm.Valid() && fresh(asm) && fresh(asm.thinking)
      invariant k <= |cs| && asm.State() == Fold(EMPTY, cs[..k])
      invariant done.None? ==> stream.Live() && Underway(cs, k, stream.ch, marshals, w.events)
      invariant done.Some? ==> Ended(stream.script, k, marshals, w.events, done.value)
      decreases done.None?, |cs| - k
    {
      done, k := Forward(w, asm, stream, marshals, k);
    }
    result := done.value;
    asm.FlushEverything();
    resp := ChatResponse(asm.content, asm.usage);
    WholeStreamUnlessExplained(stream.script, k, marshals, Bridged(w.events, resp, result));
  }

  /** So far every chunk taken has been written as a data event. */
  ghost predicate Underway(cs: seq<StreamChunk>, k: nat, ch: Chan, marshals: StreamChunk -> bool, events: seq<SseEvent>) {
    && k <= |cs| && k == Taken(ch) && NoDone(cs[..k])
    && events == DataEvents(cs[..k]) && forall c :: c in cs[..k] ==> marshals(c)
  }

  /** The loop has ended as the contract allows. */
  ghost predicate Ended(sc: Script, k: nat, marshals: StreamChunk -> bool, events: seq<SseEvent>, result: SseResult) {
    && k <= |sc.chunks| && Contract(sc.chunks[..k], marshals, Bridged(events, Collected(sc.chunks[..k]), result))
    && Explained(sc, k, marshals, result)
  }

  /** One turn of the loop: receive, then write the chunk, or a terminator and stop. */
  method Forward(w: SseWriter, asm: Assembler, stream: Stream, marshals: StreamChunk -> bool, ghost k0: nat)
    returns (done: Option<SseResult>, ghost k: nat)
    requires stream.Live() && asm.Valid() && Underway(stream.script.chunks, k0, stream.ch, marshals, w.events)
    requires asm.State() == Fold(EMPTY, stream.script.chunks[..k0])
    modifies w, stream, asm, asm.thinking
    ensures asm.Valid() && k0 <= k <= |stream.script.chunks| && asm.State() == Fold(EMPTY, stream.script.chunks[..k])
    ensures done.None? ==> stream.Live() && k == k0 + 1 && Underway(stream.script.chunks, k, stream.ch, marshals, w.events)
    ensures done.Some? ==> Ended(stream.script, k, marshals, w.events, done.value)
  {
    ghost var cs := stream.script.chunks;
    k := k0;
    var r := stream.Recv();
    if r.GotEOF? || (r.GotErr? && r.err.wrapsEOF) {
      w.Write(SyntheticDone);
      return Some(SseOk), k;
    }
    if r.GotErr? {
      w.Write(ErrorEvent(r.err));
      return Some(SseError(r.err)), k;
    }
    if !marshals(r.chunk) {
      return Some(SseMarshal(r.chunk)), k;
    }
    NextChunk(cs, k);
    DataEventsSnoc(cs, k);
    NextMarshals(cs, k, marshals);
    k := k + 1;
    asm.AccumulateChunk(r.chunk);
    if r.chunk.ChunkDone? {
      w.Write(DoneEvent(r.chunk));
      return Some(SseOk), k;
    }
    w.Write(DataEvent(r.chunk));
    return None, k;
  }

  lemma NextMarshals(cs: seq<StreamChunk>, k: nat, marshals: StreamChunk -> bool)
    requires k < |cs| && marshals(cs[k]) && forall c :: c in cs[..k] ==> marshals(c)
    ensures forall c :: c in cs[..k + 1] ==> marshals(c)
  {
    assert cs[..k + 1] == cs[..k] + [cs[k]];
  }

  // ---------- When a terminator is written ----------

  predicate AllMarshal(cs: seq<StreamChunk>, marshals: StreamChunk -> bool) { forall c :: c in cs ==> marshals(c) }

  /** A chunk taken before any done chunk is part of the stream up to its first done chunk. */
  lemma TakenBeforeDone(cs: seq<StreamChunk>, k: nat)
    requires k < |cs| && NoDone(cs[..k])
    ensures cs[k] in UpToDone(cs)
  {
    var u := UpToDone(cs);
    assert forall i :: 0 <= i < |u| ==> u[i] == cs[i];
    assert forall i :: 0 <= i < k ==> cs[..k][i] == cs[i];
    assert k < |u|;
  }

  lemma WholeStreamUnlessExplained(sc: Script, k: nat, marshals: StreamChunk -> bool, b: Bridged)
    requires k <= |sc.chunks| && Contract(sc.chunks[..k], marshals, b) && Explained(sc, k, marshals, b.result)
    ensures b.result == SseOk && sc.err.None? ==> sc.chunks[..k] == UpToDone(sc.chunks)
    ensures sc.err.None? && AllMarshal(UpToDone(sc.chunks), marshals) ==> b.result == SseOk
  {
    if b.result == SseOk && sc.err.None? {
      if EndsAtFirstDone(sc.chunks[..k]) {
        FirstDoneIsUnique(sc.chunks, k);
      } else {
        assert sc.chunks[..k] == sc.chunks;
      }
    }
  }

  /**
   Under every schedule: when every chunk up to the first done chunk marshals there is
   exactly one terminator; and when the producer reports no error, there is none
   exactly when one of those chunks does not marshal. With an error a chunk that does
   not marshal may or may not be reached first.
   */
  lemma TerminatedIffMarshalled(sc: Script, k: nat, marshals: StreamChunk -> bool, b: Bridged)
    requires k <= |sc.chunks| && Contract(sc.chunks[..k], marshals, b) && Explained(sc, k, marshals, b.result)
    ensures AllMarshal(UpToDone(sc.chunks), marshals) ==> Terminators(b.events) == 1
    ensures sc.err.None? ==> (Terminators(b.events) == 0 <==> !AllMarshal(UpToDone(sc.chunks), marshals))
  {
    WireAgreesWithResponse(sc.chunks[..k], marshals, b);
    WholeStreamUnlessExplained(sc, k, marshals, b);
  }

  /** No error is swallowed: without a done chunk ahead of it, one that does not wrap EOF is returned and written. */
  lemma ErrorsAreReported(sc: Script, k: nat, marshals: StreamChunk -> bool, b: Bridged)
    requires k <= |sc.chunks| && Contract(sc.chunks[..k], marshals, b) && Explained(sc, k, marshals, b.result)
    requires NoDone(sc.chunks) && AllMarshal(sc.chunks, marshals) && sc.err.Some? && !sc.err.value.wrapsEOF
    ensures b.result == SseError(sc.err.value) && b.events == DataEvents(sc.chunks[..k]) + [ErrorEvent(sc.err.value)]
  {
  }

  /** A whole bridge without a terminator: one chunk, which does not marshal. */
  method ATerminatorCanBeMissing(c: StreamChunk) returns (w: SseWriter, result: SseResult)
    ensures w.events == [] && result == SseMarshal(c)
  {
    var script := Script([c], None, 1);
    var marshals := (d: StreamChunk) => false;
    var stream := new Stream(script);
    w := new SseWriter();
    ghost var k;
    var resp;
    resp, result, k := WriteSSE(w, stream, marshals);
    assert c in UpToDone(script.chunks) by { TakenBeforeDone(script.chunks, 0); }
    WholeStreamUnlessExplained(script, k, marshals, Bridged(w.events, resp, result));
  }
}
