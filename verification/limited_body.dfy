/**
 The size-limited response body of `llm/internal/httpclient/httpclient.go`, and the
 two ways `DoJSON` reads one.

 The byte source behind it may split its data in any way, may return no bytes and no
 error, and may report its end with the last bytes or on a read of its own.
 */
module LimitedBodies {
  import opened Common

  type Bytes = seq<bv8>

  datatype Err = Eof | Broken(e: nat) | TooLarge(max: int)

  /** What the source makes of one read: the most it returns, and whether it tells of its end. */
  datatype Pick = Pick(n: nat, tell: bool)

  /** One read: the caller's buffer length and the source's answer to it. */
  datatype Request = Request(want: nat, pick: Pick)

  function Min(a: int, b: int): int { if a < b then a else b }

  class Source {
    const data: Bytes
    const ending: Err
    var pos: nat

    predicate Valid()
      reads this
    {
      pos <= |data| && !ending.TooLarge?
    }

    constructor (data: Bytes, ending: Err)
      requires !ending.TooLarge?
      ensures Valid() && this.data == data && this.ending == ending && pos == 0
    {
      this.data, this.ending, pos := data, ending, 0;
    }

    method Read(want: nat, pick: Pick) returns (got: Bytes, err: Option<Err>)
      requires Valid()
      modifies this
      ensures Valid() && pos == old(pos) + |got| && got == data[old(pos)..pos]
      ensures |got| == Min(Min(pick.n, want), |data| - old(pos))
      ensures err == if pos == |data| && pick.tell then Some(ending) else None
    {
      var n := Min(Min(pick.n, want), |data| - pos);
      got := data[pos..pos + n];
      pos := pos + n;
      err := if pos == |data| && pick.tell then Some(ending) else None;
    }
  }

  class LimitedBody {
    const rc: Source
    const max: int
    var remaining: int

    /** `limitTransport` always installs a positive limit. */
    constructor (rc: Source, max: int)
      requires max > 0 && rc.Valid() && rc.pos == 0
      ensures Valid() && Unread() && this.rc == rc && this.max == max
    {
      this.rc, this.max, remaining := rc, max, max;
    }

    /** Before the first error: exactly what was taken from the source has been handed on. */
    predicate Valid()
      reads this, rc
    {
      rc.Valid() && max > 0 && 0 <= remaining && rc.pos == max - remaining
    }

    predicate Unread()
      reads this, rc
    {
      rc.pos == 0 && remaining == max
    }

    /** The error reading this body ends in. */
    function Verdict(): Err { if |rc.data| > max then TooLarge(max) else rc.ending }

    /**
     One read hands on the next bytes of the body, never past the limit. It fails only
     with the whole body, or the limit's worth of a longer one, handed on, and then
     with the error that says which.
     */
    method Read(want: nat, pick: Pick) returns (got: Bytes, err: Option<Err>)
      requires Valid()
      modifies this, rc
      ensures rc.Valid() && (err.None? ==> Valid())
      ensures old(rc.pos) + |got| <= Min(|rc.data|, max) && got == rc.data[old(rc.pos)..old(rc.pos) + |got|]
      ensures |got| <= want && (err.None? ==> rc.pos == old(rc.pos) + |got|)
      ensures err.Some? ==> err.value == Verdict() && old(rc.pos) + |got| == Min(|rc.data|, max)
      ensures want > 0 && pick.n > 0 && pick.tell && err.None? ==> |got| > 0
    {
      if remaining <= 0 {
        var probe, probeErr := rc.Read(1, pick);
        if |probe| > 0 {
          return [], Some(TooLarge(max));
        }
        return [], probeErr;
      }
      var len := want;
      if len > remaining {
        len := remaining;
      }
      got, err := rc.Read(len, pick);
      remaining := remaining - |got|;
    }
  }

  /** Every read is given room, and the source neither stalls nor keeps its end to itself. */
  predicate Answered(requests: seq<Request>) {
    forall i :: 0 <= i < |requests| ==> requests[i].want > 0 && requests[i].pick.n > 0 && requests[i].pick.tell
  }

  /**
   Reading to the first error, as `io.ReadAll` does: whatever the buffers and the
   chunking, a prefix of at most `max` bytes; on an error, all of it the limit allows,
   with end-of-file exactly when the source ended cleanly and the body fitted, and the
   limit error exactly when the body is longer. The error comes within
   `|data| + 1` reads of a source that keeps answering.
   */
  method ReadUntilError(b: LimitedBody, requests: seq<Request>) returns (body: Bytes, err: Option<Err>)
    requires b.Valid() && b.Unread()
    modifies b, b.rc
    ensures |body| <= b.max && body <= b.rc.data
    ensures err.Some? ==> body == b.rc.data[..Min(|b.rc.data|, b.max)]
    ensures err.Some? ==> (err == Some(Eof) <==> b.rc.ending == Eof && |b.rc.data| <= b.max)
    ensures err.Some? ==> (err == Some(TooLarge(b.max)) <==> |b.rc.data| > b.max)
    ensures err == Some(Eof) ==> body == b.rc.data
    ensures err == Some(TooLarge(b.max)) ==> |body| == b.max
    ensures Answered(requests) && |requests| > |b.rc.data| ==> err.Some?
  {
    body := [];
    for i := 0 to |requests|
      invariant b.Valid() && body == b.rc.data[..b.rc.pos]
      invariant Answered(requests) ==> i <= b.rc.pos
    {
      var got;
      got, err := b.Read(requests[i].want, requests[i].pick);
      body := body + got;
      if err.Some? {
        return;
      }
    }
    err := None;
  }

  /** How much of a non-2xx body is kept. */
  const MAX_ERROR_BODY := 0x1_0000

  /** `ReadErrorBody`: the first 64 KiB, or what came before an error. */
  method ReadErrorBody(b: LimitedBody, requests: seq<Request>) returns (body: Bytes, ended: bool)
    requires b.Valid() && b.Unread()
    modifies b, b.rc
    ensures body <= b.rc.data
    ensures ended ==> body == b.rc.data[..Min(Min(|b.rc.data|, b.max), 65536)]
  {
    body := [];
    for i := 0 to |requests|
      invariant b.Valid() && body == b.rc.data[..b.rc.pos] && |body| <= MAX_ERROR_BODY
    {
      if |body| == MAX_ERROR_BODY {
        return body, true;
      }
      var got, err := b.Read(Min(requests[i].want, MAX_ERROR_BODY - |body|) as nat, requests[i].pick);
      body := body + got;
      if err.Some? {
        return body, true;
      }
    }
    ended := false;
  }

  /**
   What `DoJSON` hands to the decoder: a success status only with the whole body, and
   status zero when the body is over the limit or breaks off.
   */
  method ReadResponse(status: int, b: LimitedBody, requests: seq<Request>) returns (code: int, body: Bytes, ended: bool)
    requires b.Valid() && b.Unread()
    modifies b, b.rc
    ensures ended && 200 <= status < 300 ==>
      (if b.rc.ending == Eof && |b.rc.data| <= b.max then code == status && body == b.rc.data else code == 0 && body == [])
    ensures ended && !(200 <= status < 300) ==>
      code == status && body == b.rc.data[..Min(Min(|b.rc.data|, b.max), 65536)]
  {
    if status < 200 || status >= 300 {
      body, ended := ReadErrorBody(b, requests);
      return status, body, ended;
    }
    var err;
    body, err := ReadUntilError(b, requests);
    if err == Some(Eof) {
      return status, body, true;
    }
    return 0, [], err.Some?;
  }
}
