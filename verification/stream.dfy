/**
 `Stream.Recv` and `Stream.Collect` in the source's own form: nested selects, a
 receive loop and a drain loop over mutable channels.

 A Go `select` is a Dafny alternative statement, whose guard is chosen
 demonically among those that hold, and the producer goroutine may run any
 number of steps wherever the consumer could be preempted or is blocked. The
 postconditions therefore hold for every schedule, and termination of the
 methods is freedom from deadlock.
 */
module Streams {
  import opened Common
  import opened Blocks
  import opened StreamRace

  /** One more chunk of the script, taken by a consumer that has seen no done chunk. */
  lemma NextChunk(cs: seq<StreamChunk>, k: nat)
    requires k < |cs| && NoDone(cs[..k])
    ensures Fold(EMPTY, cs[..k + 1]) == Accumulate(Fold(EMPTY, cs[..k]), cs[k])
    ensures if cs[k].ChunkDone? then EndsAtFirstDone(cs[..k + 1]) else NoDone(cs[..k + 1])
  {
    assert cs[..k + 1] == cs[..k] + [cs[k]];
    FoldSnoc(EMPTY, cs[..k], cs[k]);
    assert cs[..k + 1][..k] == cs[..k];
  }

  lemma NewChannel(sc: Script)
    ensures ChanInv(sc, NEW_CHAN) && Taken(NEW_CHAN) == 0
  {
  }

  class Stream {
    const script: Script
    var ch: Chan
    var ctxDone: bool

    constructor (script: Script)
      ensures this.script == script && ch == NEW_CHAN && !ctxDone
    {
      this.script := script;
      ch := NEW_CHAN;
      ctxDone := false;
    }

    /** The channels are consistent and no error has been taken from them. */
    ghost predicate Live()
      reads this
    {
      && script.capacity >= 1
      && ChanInv(script, ch)
      && (ch.errSent ==> ch.errBuf.Some?)
    }

    ghost function ProducerLeft(): nat
      reads this
      requires ChanInv(script, ch)
    {
      (|script.chunks| - ch.sent) + Flag(ch.errSent) + Flag(ch.errClosed) + Flag(ch.chunksClosed)
    }

    predicate ProducerCanMove()
      reads this
    {
      || ProducerEnabled(script, ch, Send) || ProducerEnabled(script, ch, PutErr)
      || ProducerEnabled(script, ch, CloseErr) || ProducerEnabled(script, ch, CloseChunks)
    }

    /** One step of the producer goroutine. */
    method ProducerMoves()
      requires ChanInv(script, ch) && ProducerCanMove()
      modifies this`ch
      ensures ChanInv(script, ch) && ProducerLeft() < old(ProducerLeft())
      ensures Taken(ch) == old(Taken(ch)) && old(ch.queue) <= ch.queue
      ensures ch.errBuf.Some? ==> ch.errSent
      ensures old(ch.errSent ==> ch.errBuf.Some?) ==> (ch.errSent ==> ch.errBuf.Some?)
      ensures old(ch.errSent) ==> ch.errSent && ch.errBuf == old(ch.errBuf)
      ensures old(ch.errClosed) ==> ch.errClosed
      ensures old(ch.chunksClosed) ==> ch.chunksClosed
    {
      var step: Step;
      if {
        case ProducerEnabled(script, ch, Send) => step := Send;
        case ProducerEnabled(script, ch, PutErr) => step := PutErr;
        case ProducerEnabled(script, ch, CloseErr) => step := CloseErr;
        case ProducerEnabled(script, ch, CloseChunks) => step := CloseChunks;
      }
      var next := Produce(script, ch, step);
      assert next.queue == script.chunks[Taken(ch)..next.sent];
      ch := next;
    }

    /** The producer goroutine runs for as long as the scheduler likes. */
    method Preempted()
      requires ChanInv(script, ch)
      modifies this`ch
      ensures ChanInv(script, ch) && ProducerLeft() <= old(ProducerLeft())
      ensures Taken(ch) == old(Taken(ch)) && old(ch.queue) <= ch.queue
      ensures old(ch.errSent ==> ch.errBuf.Some?) ==> (ch.errSent ==> ch.errBuf.Some?)
      ensures old(ch.errSent) ==> ch.errSent && ch.errBuf == old(ch.errBuf)
      ensures old(ch.errClosed) ==> ch.errClosed
      ensures old(ch.chunksClosed) ==> ch.chunksClosed
    {
      var again: bool := *;
      while again && ProducerCanMove()
        invariant ChanInv(script, ch) && ProducerLeft() <= old(ProducerLeft())
        invariant Taken(ch) == old(Taken(ch)) && old(ch.queue) <= ch.queue
        invariant old(ch.errSent ==> ch.errBuf.Some?) ==> (ch.errSent ==> ch.errBuf.Some?)
        invariant old(ch.errSent) ==> ch.errSent && ch.errBuf == old(ch.errBuf)
        invariant old(ch.errClosed) ==> ch.errClosed
        invariant old(ch.chunksClosed) ==> ch.chunksClosed
        decreases ProducerLeft()
      {
        ProducerMoves();
        again := *;
      }
    }

    /** A blocking receive from the chunk channel. */
    method TakeChunkOrClosed() returns (r: Received)
      requires Live()
      modifies this`ch
      ensures Live()
      ensures r.GotChunk? || r.GotEOF?
      ensures r.GotChunk? ==>
        && Taken(ch) == old(Taken(ch)) + 1 && old(Taken(ch)) < |script.chunks|
        && r.chunk == script.chunks[old(Taken(ch))]
      ensures r.GotEOF? ==> ch.chunksClosed && ch.queue == [] && Taken(ch) == old(Taken(ch)) == |script.chunks|
    {
      while ch.queue == [] && !ch.chunksClosed
        invariant Live() && Taken(ch) == old(Taken(ch))
        decreases ProducerLeft()
      {
        ProducerMoves();
      }
      if ch.queue == [] {
        return GotEOF;
      }
      TakeFoldsNext(script, ch);
      r := GotChunk(ch.queue[0]);
      ch := ch.(queue := ch.queue[1..]);
    }

    /**
     `Recv`: the next chunk of the script, or the producer's error once every
     chunk has been sent, or EOF once every chunk has been taken and there is no
     error. Which of a chunk and the error comes first is the scheduler's choice.
     */
    method Recv() returns (r: Received)
      requires Live()
      modifies this`ch
      ensures ChanInv(script, ch) && !r.Pending?
      ensures r.GotChunk? ==>
        && Live() && Taken(ch) == old(Taken(ch)) + 1 && old(Taken(ch)) < |script.chunks|
        && r.chunk == script.chunks[old(Taken(ch))]
      ensures r.GotEOF? ==> Taken(ch) == old(Taken(ch)) == |script.chunks| && script.err.None?
      ensures r.GotErr? ==>
        && script.err == Some(r.err) && ch.errSent && ch.sent == |script.chunks|
        && Taken(ch) == old(Taken(ch))
    {
      Preempted();
      while ch.queue == [] && !ch.chunksClosed && ch.errBuf.None? && !ch.errClosed
        invariant Live() && Taken(ch) == old(Taken(ch))
        decreases ProducerLeft()
      {
        ProducerMoves();
      }
      if {
        case ch.queue != [] || ch.chunksClosed =>
          r := TakeChunkOrClosed();
          if r.GotChunk? {
            return;
          }
          Preempted();
          if ch.errBuf.Some? {
            r := GotErr(ch.errBuf.value);
            ch := ch.(errBuf := None);
          }
        case ch.errBuf.Some? =>
          r := GotErr(ch.errBuf.value);
          ch := ch.(errBuf := None);
        case ch.errBuf.None? && ch.errClosed =>
          Preempted();
          r := TakeChunkOrClosed();
      }
    }

    /**
     `Collect`. In every execution the response is the fold of a prefix of the
     script, with an outcome that is possible for that prefix; on a race-free
     script, if the context is never cancelled, it is the fold of the whole
     stream together with the producer's own error. If the context is already done
     nothing is taken from the channel and its error is returned.
     */
    method Collect() returns (resp: ChatResponse, outcome: Outcome, ghost k: nat)
      requires script.capacity >= 1 && ch == NEW_CHAN
      modifies this
      ensures k <= |script.chunks| && resp == Collected(script.chunks[..k])
      ensures Possible(script, script.chunks[..k], ctxDone, outcome)
      ensures RaceFree(script) && !ctxDone ==>
        resp == Collected(UpToDone(script.chunks)) && outcome == ErrorOutcome(script.err)
      ensures old(ctxDone) ==> outcome == Cancelled && k == 0 && resp == Collected([]) && Taken(ch) == 0
      ensures !ctxDone ==> outcome != Cancelled
    {
      resp, outcome, k := Assemble();
      if RaceFree(script) && !ctxDone {
        PossibleIsFaithful(script, k, outcome);
      }
    }

    /** Everything up to the return, `resp.Content` and `resp.Usage` being set by the flush. */
    method Assemble() returns (resp: ChatResponse, outcome: Outcome, ghost k: nat)
      requires script.capacity >= 1 && ch == NEW_CHAN
      modifies this
      ensures k <= |script.chunks| && resp == Collected(script.chunks[..k])
      ensures Possible(script, script.chunks[..k], ctxDone, outcome)
      ensures old(ctxDone) ==> outcome == Cancelled && k == 0 && Taken(ch) == 0
    {
      var asm := new Assembler();
      NewChannel(script);
      outcome, k := Gather(asm);
      asm.FlushEverything();
      resp := ChatResponse(asm.content, asm.usage);
    }

    /** The loop, up to its return: what has been folded, and why it stopped. */
    method Gather(asm: Assembler) returns (outcome: Outcome, ghost k: nat)
      requires Live() && Taken(ch) == 0 && asm.Valid() && asm.State() == EMPTY
      modifies this, asm, asm.thinking
      ensures asm.Valid() && k <= |script.chunks| && asm.State() == Fold(EMPTY, script.chunks[..k])
      ensures Possible(script, script.chunks[..k], ctxDone, outcome)
      ensures old(ctxDone) ==> outcome == Cancelled && k == 0 && Taken(ch) == 0
    {
      k := 0;
      var done := None;
      while done.None?
        invariant asm.Valid()
        invariant k <= |script.chunks| && asm.State() == Fold(EMPTY, script.chunks[..k])
        invariant done.None? ==> Live() && k == Taken(ch) && NoDone(script.chunks[..k])
        invariant done.Some? ==> Possible(script, script.chunks[..k], ctxDone, done.value)
        invariant old(ctxDone) ==> ctxDone && k == 0 && Taken(ch) == 0 && (done.Some? ==> done.value == Cancelled)
        decreases done.None?, |script.chunks| - k
      {
        done, k := Turn(asm, k);
      }
      outcome := done.value;
    }

    /** One turn of the loop: look at the context, then receive. */
    method Turn(asm: Assembler, ghost k0: nat) returns (done: Option<Outcome>, ghost k: nat)
      requires Live() && asm.Valid()
      requires k0 == Taken(ch) && asm.State() == Fold(EMPTY, script.chunks[..k0]) && NoDone(script.chunks[..k0])
      modifies this, asm, asm.thinking
      ensures asm.Valid() && k0 <= k <= |script.chunks| && asm.State() == Fold(EMPTY, script.chunks[..k])
      ensures done.None? ==> Live() && k == Taken(ch) == k0 + 1 && NoDone(script.chunks[..k])
      ensures done.Some? ==> Possible(script, script.chunks[..k], ctxDone, done.value)
      ensures old(ctxDone) ==> ctxDone && done == Some(Cancelled) && k == k0 && Taken(ch) == old(Taken(ch))
    {
      Preempted();
      if * {
        ctxDone := true;
      }
      if ctxDone {
        return Some(Cancelled), k0;
      }
      done, k := ReceiveInto(asm, k0);
      if * {
        ctxDone := true;
      }
    }

    /** The rest of the loop body: receive, and accumulate or decide how to return. */
    method ReceiveInto(asm: Assembler, ghost k0: nat) returns (done: Option<Outcome>, ghost k: nat)
      requires Live() && asm.Valid() && !ctxDone
      requires k0 == Taken(ch) && asm.State() == Fold(EMPTY, script.chunks[..k0]) && NoDone(script.chunks[..k0])
      modifies this`ch, asm, asm.thinking
      ensures asm.Valid() && k0 <= k <= |script.chunks| && asm.State() == Fold(EMPTY, script.chunks[..k])
      ensures done.None? ==> Live() && k == Taken(ch) == k0 + 1 && NoDone(script.chunks[..k])
      ensures done.Some? ==> Possible(script, script.chunks[..k], ctxDone, done.value)
    {
      k := k0;
      var r := Recv();
      if r.GotEOF? || (r.GotErr? && r.err.wrapsEOF) {
        assert k == |script.chunks| ==> script.chunks[..k] == script.chunks;
        return Some(Finished), k;
      }
      if r.GotErr? {
        k := Drain(asm);
        assert script.chunks[..k] == script.chunks;
        return Some(Failed(r.err)), k;
      }
      NextChunk(script.chunks, k);
      k := k + 1;
      asm.AccumulateChunk(r.chunk);
      done := if r.chunk.ChunkDone? then Some(Finished) else None;
    }

    /** The drain after an error: everything still buffered is folded in. */
    method Drain(asm: Assembler) returns (ghost k: nat)
      requires ChanInv(script, ch) && ch.errSent && asm.Valid()
      requires asm.State() == Fold(EMPTY, script.chunks[..Taken(ch)])
      modifies this`ch, asm, asm.thinking
      ensures asm.Valid() && ChanInv(script, ch) && k == |script.chunks|
      ensures asm.State() == Fold(EMPTY, script.chunks)
    {
      Preempted();
      while ch.queue != []
        invariant asm.Valid() && ChanInv(script, ch) && ch.errSent
        invariant asm.State() == Fold(EMPTY, script.chunks[..Taken(ch)])
        decreases |ch.queue|
      {
        TakeFoldsNext(script, ch);
        var c := ch.queue[0];
        ch := ch.(queue := ch.queue[1..]);
        asm.AccumulateChunk(c);
      }
      k := |script.chunks|;
      assert script.chunks[..Taken(ch)] == script.chunks;
    }
  }
}
