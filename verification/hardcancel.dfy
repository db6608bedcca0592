/**
 The hard-cancel watchdog of `llm/internal/httpclient/hardcancel.go`: deliveries
 of connections, cancellation of the context, the watchdog goroutine and
 `release`, interleaved step by step.

 Every access to the shared `conn` is one assignment or read under its mutex, so
 each is one step. A `GotConn` callback takes three: store the connection, look at
 the context, close the connection if the context was done.
 */
module HardCancel {
  import opened Common

  // ---------- States and steps ----------

  datatype Conn = Conn(id: nat, tls: bool, protocol: string)

  predicate Multiplexed(c: Conn) { c.tls && c.protocol == "h2" }

  datatype Stage = Delivered | Stored | Closing | Returned(sawDone: bool)

  datatype Callback = Callback(conn: Conn, stage: Stage)

  datatype Watchdog =
    | Selecting
    | Woken                                // took the ctx.Done arm, conn not read yet
    | Holding(read: Option<nat>)           // about to close what it read
    | ExitedCancelled(read: Option<nat>)
    | ExitedReleased

  /** Connections are named by the callback that delivers them: one may be delivered twice. */
  datatype State = State(
    conn: Option<nat>, callbacks: seq<Callback>, cancelled: bool, onceUsed: bool, doneCloses: nat,
    watchdog: Watchdog, closes: seq<Conn>)

  const INIT := State(None, [], false, false, 0, Selecting, [])

  datatype Action =
    | Deliver(c: Conn)
    | Store(i: nat)
    | Check(i: nat)
    | CallbackClose(i: nat)
    | Cancel
    | Release
    | TakeCtxDone
    | TakeReleased
    | ReadConn
    | WatchdogClose

  predicate AtStage(s: State, i: nat, stage: Stage) { i < |s.callbacks| && s.callbacks[i].stage == stage }

  predicate CanTake(s: State, a: Action) {
    match a
    case Store(i) => AtStage(s, i, Delivered)
    case Check(i) => AtStage(s, i, Stored)
    case CallbackClose(i) => AtStage(s, i, Closing)
    case TakeCtxDone => s.watchdog == Selecting && s.cancelled
    case TakeReleased => s.watchdog == Selecting && s.doneCloses > 0
    case ReadConn => s.watchdog == Woken
    case WatchdogClose => s.watchdog.Holding? && (s.watchdog.read.Some? ==> s.watchdog.read.value < |s.callbacks|)
    case _ => true
  }

  function SetStage(s: State, i: nat, stage: Stage): State
    requires i < |s.callbacks|
  {
    s.(callbacks := s.callbacks[i := s.callbacks[i].(stage := stage)])
  }

  /** `hardCloseConn`: multiplexed connections are left alone. */
  function HardClose(closes: seq<Conn>, c: Conn): seq<Conn> { if Multiplexed(c) then closes else closes + [c] }

  function Apply(s: State, a: Action): State
    requires CanTake(s, a)
  {
    match a
    case Deliver(c) => s.(callbacks := s.callbacks + [Callback(c, Delivered)])
    case Store(i) => SetStage(s, i, Stored).(conn := Some(i))
    case Check(i) => SetStage(s, i, if s.cancelled then Closing else Returned(false))
    case CallbackClose(i) => SetStage(s, i, Returned(true)).(closes := HardClose(s.closes, s.callbacks[i].conn))
    case Cancel => s.(cancelled := true)
    case Release => if s.onceUsed then s else s.(onceUsed := true, doneCloses := s.doneCloses + 1)
    case TakeCtxDone => s.(watchdog := Woken)
    case TakeReleased => s.(watchdog := ExitedReleased)
    case ReadConn => s.(watchdog := Holding(s.conn))
    case WatchdogClose =>
      var read := s.watchdog.read;
      s.(watchdog := ExitedCancelled(read),
         closes := if read.None? then s.closes else HardClose(s.closes, s.callbacks[read.value].conn))
  }

  predicate Executable(s: State, acts: seq<Action>)
    decreases |acts|
  {
    acts == [] || (CanTake(s, acts[0]) && Executable(Apply(s, acts[0]), acts[1..]))
  }

  function After(s: State, acts: seq<Action>): State
    requires Executable(s, acts)
    decreases |acts|
  {
    if acts == [] then s else After(Apply(s, acts[0]), acts[1..])
  }

  // ---------- What every step keeps ----------

  predicate Torn(s: State, i: nat)
    requires i < |s.callbacks|
  {
    Multiplexed(s.callbacks[i].conn) || s.callbacks[i].conn in s.closes
  }

  predicate DeliveredAt(s: State, i: nat, c: Conn) {
    i < |s.callbacks| && s.callbacks[i].conn == c && s.callbacks[i].stage != Delivered
  }

  ghost predicate ClosesJustified(s: State) {
    forall c :: c in s.closes ==> s.cancelled && !Multiplexed(c) && exists i :: DeliveredAt(s, i, c)
  }

  predicate CallbackInv(s: State, i: nat)
    requires i < |s.callbacks|
  {
    match s.callbacks[i].stage
    case Closing => s.cancelled
    case Returned(true) => s.cancelled && Torn(s, i)
    case _ => true
  }

  predicate WasStored(s: State, i: nat) { i < |s.callbacks| && s.callbacks[i].stage != Delivered }

  /** What the watchdog read is the connection last stored, unless that one's callback sees the cancellation itself. */
  predicate ReadInv(s: State, read: Option<nat>) {
    && s.cancelled
    && (read.Some? ==> WasStored(s, read.value))
    && (s.conn.Some? && s.conn != read ==> WasStored(s, s.conn.value) && s.callbacks[s.conn.value].stage != Returned(false))
  }

  predicate WatchdogInv(s: State) {
    match s.watchdog
    case Selecting => true
    case Woken => s.cancelled
    case Holding(read) => ReadInv(s, read)
    case ExitedCancelled(read) => ReadInv(s, read) && (read.Some? ==> Torn(s, read.value))
    case ExitedReleased => s.doneCloses > 0
  }

  ghost predicate Inv(s: State) {
    && (s.conn.Some? ==> WasStored(s, s.conn.value))
    && ClosesJustified(s)
    && (forall i :: 0 <= i < |s.callbacks| ==> CallbackInv(s, i))
    && WatchdogInv(s)
    && s.doneCloses == (if s.onceUsed then 1 else 0)
  }

  lemma StepKeepsClosesJustified(s: State, a: Action)
    requires Inv(s) && CanTake(s, a)
    ensures ClosesJustified(Apply(s, a))
  {
    var t := Apply(s, a);
    forall c | c in t.closes
      ensures t.cancelled && !Multiplexed(c) && exists i :: DeliveredAt(t, i, c)
    {
      if c in s.closes {
        var i :| DeliveredAt(s, i, c);
        assert DeliveredAt(t, i, c);
      } else if a.CallbackClose? {
        assert CallbackInv(s, a.i) && DeliveredAt(t, a.i, c);
      } else {
        assert DeliveredAt(t, s.watchdog.read.value, c);
      }
    }
  }

  lemma StepKeepsCallbackInv(s: State, a: Action, i: nat)
    requires Inv(s) && CanTake(s, a) && i < |Apply(s, a).callbacks|
    ensures CallbackInv(Apply(s, a), i)
  {
    if i < |s.callbacks| {
      assert CallbackInv(s, i);
    }
  }

  lemma StepKeepsInv(s: State, a: Action)
    requires Inv(s) && CanTake(s, a)
    ensures Inv(Apply(s, a))
  {
    StepKeepsClosesJustified(s, a);
    forall i | 0 <= i < |Apply(s, a).callbacks|
      ensures CallbackInv(Apply(s, a), i)
    {
      StepKeepsCallbackInv(s, a, i);
    }
  }

  lemma {:induction false} RunKeepsInv(s: State, acts: seq<Action>)
    requires Inv(s) && Executable(s, acts)
    ensures Inv(After(s, acts))
    decreases |acts|
  {
    if acts != [] {
      StepKeepsInv(s, acts[0]);
      RunKeepsInv(Apply(s, acts[0]), acts[1..]);
    }
  }

  // ---------- Safety and quiescence ----------

  /**
   Whatever the schedule, a connection is force-closed only once the context is
   done, only if it is not multiplexed, and only after it was captured; and
   `close(done)` runs exactly once however often `release` is called.
   */
  lemma OnlyCancelledConnectionsAreClosed(acts: seq<Action>)
    requires Executable(INIT, acts)
    ensures var s := After(INIT, acts);
      && (forall c :: c in s.closes ==>
            s.cancelled && !(c.tls && c.protocol == "h2") && exists i :: DeliveredAt(s, i, c))
      && s.doneCloses <= 1 && (s.doneCloses == 1 <==> Release in acts)
  {
    RunKeepsInv(INIT, acts);
    OnceIsUsedByRelease(INIT, acts);
  }

  lemma {:induction false} OnceIsUsedByRelease(s: State, acts: seq<Action>)
    requires Executable(s, acts)
    ensures After(s, acts).onceUsed <==> s.onceUsed || Release in acts
    decreases |acts|
  {
    if acts != [] {
      OnceIsUsedByRelease(Apply(s, acts[0]), acts[1..]);
      assert acts == [acts[0]] + acts[1..];
    }
  }

  function WithoutRelease(acts: seq<Action>): seq<Action> {
    if acts == [] then []
    else (if acts[0].Release? then [] else [acts[0]]) + WithoutRelease(acts[1..])
  }

  /**
   Once released, any run can do without its further calls of `release`, however many
   and wherever they come: every other step is still possible, and the end is the same.
   */
  lemma {:induction false} LaterReleasesChangeNothing(s: State, acts: seq<Action>)
    requires Executable(s, [Release] + acts)
    ensures var t := Apply(s, Release);
      && Executable(t, acts) && Executable(t, WithoutRelease(acts))
      && After(s, [Release] + acts) == After(t, WithoutRelease(acts))
    decreases |acts|
  {
    assert ([Release] + acts)[1..] == acts;
    DropReleases(Apply(s, Release), acts);
  }

  lemma {:induction false} DropReleases(s: State, acts: seq<Action>)
    requires s.onceUsed && Executable(s, acts)
    ensures Executable(s, WithoutRelease(acts)) && After(s, acts) == After(s, WithoutRelease(acts))
    decreases |acts|
  {
    if acts != [] {
      DropReleases(Apply(s, acts[0]), acts[1..]);
      var rest := WithoutRelease(acts[1..]);
      if acts[0].Release? {
        assert WithoutRelease(acts) == rest && Apply(s, acts[0]) == s;
      } else {
        assert WithoutRelease(acts) == [acts[0]] + rest;
        RunCons(s, acts[0], rest);
      }
    }
  }

  /** Only new deliveries, cancellation or `release` could change anything. */
  ghost predicate Quiescent(s: State) {
    forall a :: CanTake(s, a) ==> a.Deliver? || a.Cancel? || a.Release?
  }

  lemma QuiescentMeansSettled(s: State)
    requires Inv(s) && Quiescent(s)
    ensures forall i :: 0 <= i < |s.callbacks| ==> s.callbacks[i].stage.Returned?
    ensures s.watchdog.ExitedCancelled? || s.watchdog.ExitedReleased?
         || (s.watchdog.Selecting? && !s.cancelled && s.doneCloses == 0)
  {
    forall i | 0 <= i < |s.callbacks|
      ensures s.callbacks[i].stage.Returned?
    {
      assert !CanTake(s, Store(i)) && !CanTake(s, Check(i)) && !CanTake(s, CallbackClose(i));
    }
    assert !CanTake(s, TakeCtxDone) && !CanTake(s, TakeReleased) && !CanTake(s, ReadConn) && !CanTake(s, WatchdogClose);
  }

  /**
   In every quiescent state: if the context is done and `release` was not called,
   the last captured connection is closed unless it is multiplexed, as is every
   connection whose callback found the context done; and once `release` was called,
   or the context is done, the watchdog has exited.
   */
  lemma QuiescenceGuarantee(acts: seq<Action>)
    requires Executable(INIT, acts) && Quiescent(After(INIT, acts))
    ensures var s := After(INIT, acts);
      && (s.cancelled && Release !in acts && s.conn.Some? ==>
            && WasStored(s, s.conn.value)
            && var c := s.callbacks[s.conn.value].conn; c in s.closes || (c.tls && c.protocol == "h2"))
      && (forall i :: 0 <= i < |s.callbacks| && s.callbacks[i].stage == Returned(true) ==> Torn(s, i))
      && (s.cancelled || Release in acts ==> s.watchdog.ExitedCancelled? || s.watchdog.ExitedReleased?)
  {
    RunKeepsInv(INIT, acts);
    OnceIsUsedByRelease(INIT, acts);
    var s := After(INIT, acts);
    QuiescentMeansSettled(s);
    forall i | 0 <= i < |s.callbacks| && s.callbacks[i].stage == Returned(true)
      ensures Torn(s, i)
    {
      assert CallbackInv(s, i);
    }
    if s.conn.Some? {
      assert CallbackInv(s, s.conn.value);
    }
  }

  // ---------- The watchdog always exits ----------

  function StepsLeft(w: Watchdog): nat {
    match w
    case Selecting => 3
    case Woken => 2
    case Holding(_) => 1
    case _ => 0
  }

  predicate WatchdogMoves(a: Action) { a.TakeCtxDone? || a.TakeReleased? || a.ReadConn? || a.WatchdogClose? }

  function WatchdogSteps(acts: seq<Action>): nat {
    if acts == [] then 0 else (if WatchdogMoves(acts[0]) then 1 else 0) + WatchdogSteps(acts[1..])
  }

  /**
   The watchdog takes at most three steps, and once the context is done or `release`
   was called it is never blocked before it has exited: no step of another goroutine
   takes its next step away.
   */
  lemma {:induction false} WatchdogExits(s: State, acts: seq<Action>)
    requires Inv(s) && Executable(s, acts)
    ensures var t := After(s, acts);
      && WatchdogSteps(acts) + StepsLeft(t.watchdog) <= StepsLeft(s.watchdog) <= 3
      && (s.cancelled || s.onceUsed ==>
            StepsLeft(t.watchdog) == 0 || exists a :: WatchdogMoves(a) && CanTake(t, a))
    decreases |acts|
  {
    if acts == [] {
      WatchdogIsNotBlocked(s);
    } else {
      StepKeepsInv(s, acts[0]);
      WatchdogExits(Apply(s, acts[0]), acts[1..]);
    }
  }

  lemma WatchdogIsNotBlocked(s: State)
    requires Inv(s)
    ensures (s.cancelled || s.onceUsed) && StepsLeft(s.watchdog) > 0 ==> exists a :: WatchdogMoves(a) && CanTake(s, a)
  {
    if StepsLeft(s.watchdog) > 0 && (s.cancelled || s.onceUsed) {
      var a := match s.watchdog
        case Selecting => if s.cancelled then TakeCtxDone else TakeReleased
        case Woken => ReadConn
        case _ => WatchdogClose;
      assert WatchdogMoves(a) && CanTake(s, a);
    }
  }

  // ---------- Closing after release ----------

  /** `release` is called once the round trip returned: no later delivery. */
  predicate NoDelivery(acts: seq<Action>) { forall a :: a in acts ==> !a.Deliver? }

  /** Something is still armed: a callback under way, or a watchdog that can still reach a connection. */
  predicate Armed(s: State) {
    || (exists i :: 0 <= i < |s.callbacks| && !s.callbacks[i].stage.Returned? && !Multiplexed(s.callbacks[i].conn))
    || ((s.watchdog.Selecting? || s.watchdog.Woken?) && s.conn.Some? && WasStored(s, s.conn.value)
        && !Multiplexed(s.callbacks[s.conn.value].conn))
    || (s.watchdog.Holding? && s.watchdog.read.Some? && WasStored(s, s.watchdog.read.value)
        && !Multiplexed(s.callbacks[s.watchdog.read.value].conn))
  }

  /** The way an armed state still closes a connection, a cancellation now being possible. */
  function WayToClose(s: State): (acts: seq<Action>)
    requires Armed(s)
  {
    if exists i :: 0 <= i < |s.callbacks| && !s.callbacks[i].stage.Returned? && !Multiplexed(s.callbacks[i].conn) then
      var i := FirstOpen(s, 0);
      match s.callbacks[i].stage
      case Delivered => [Cancel, Store(i), Check(i), CallbackClose(i)]
      case Stored => [Cancel, Check(i), CallbackClose(i)]
      case _ => [CallbackClose(i)]
    else
      match s.watchdog
      case Selecting => [Cancel, TakeCtxDone, ReadConn, WatchdogClose]
      case Woken => [ReadConn, WatchdogClose]
      case _ => [WatchdogClose]
  }

  function FirstOpen(s: State, from: nat): (i: nat)
    requires exists i :: from <= i < |s.callbacks| && !s.callbacks[i].stage.Returned? && !Multiplexed(s.callbacks[i].conn)
    ensures i < |s.callbacks| && !s.callbacks[i].stage.Returned? && !Multiplexed(s.callbacks[i].conn)
    decreases |s.callbacks| - from
  {
    if !s.callbacks[from].stage.Returned? && !Multiplexed(s.callbacks[from].conn) then from else FirstOpen(s, from + 1)
  }

  lemma RunCons(s: State, a: Action, rest: seq<Action>)
    requires CanTake(s, a) && Executable(Apply(s, a), rest)
    ensures Executable(s, [a] + rest) && After(s, [a] + rest) == After(Apply(s, a), rest)
  {
    assert ([a] + rest)[1..] == rest;
  }

  lemma CallbackCloses(s: State, i: nat)
    requires AtStage(s, i, Closing) && !Multiplexed(s.callbacks[i].conn)
    ensures Executable(s, [CallbackClose(i)]) && |After(s, [CallbackClose(i)]).closes| == |s.closes| + 1
  {
    var acts := [CallbackClose(i)];
    assert acts[1..] == [];
  }

  lemma StoredCloses(s: State, i: nat)
    requires AtStage(s, i, Stored) && !Multiplexed(s.callbacks[i].conn) && s.cancelled
    ensures Executable(s, [Check(i), CallbackClose(i)])
         && |After(s, [Check(i), CallbackClose(i)]).closes| == |s.closes| + 1
  {
    CallbackCloses(Apply(s, Check(i)), i);
    RunCons(s, Check(i), [CallbackClose(i)]);
  }

  lemma HoldingCloses(s: State)
    requires s.watchdog.Holding? && s.watchdog.read.Some? && WasStored(s, s.watchdog.read.value)
    requires !Multiplexed(s.callbacks[s.watchdog.read.value].conn)
    ensures Executable(s, [WatchdogClose]) && |After(s, [WatchdogClose]).closes| == |s.closes| + 1
  {
    var acts := [WatchdogClose];
    assert acts[1..] == [];
  }

  lemma WokenCloses(s: State)
    requires s.watchdog.Woken? && s.conn.Some? && WasStored(s, s.conn.value)
    requires !Multiplexed(s.callbacks[s.conn.value].conn)
    ensures Executable(s, [ReadConn, WatchdogClose])
         && |After(s, [ReadConn, WatchdogClose]).closes| == |s.closes| + 1
  {
    HoldingCloses(Apply(s, ReadConn));
    RunCons(s, ReadConn, [WatchdogClose]);
  }

  lemma ArmedCanClose(s: State)
    requires Inv(s) && Armed(s)
    ensures var acts := WayToClose(s);
      NoDelivery(acts) && Executable(s, acts) && |After(s, acts).closes| > |s.closes|
  {
    var cancelled := Apply(s, Cancel);
    if exists i :: 0 <= i < |s.callbacks| && !s.callbacks[i].stage.Returned? && !Multiplexed(s.callbacks[i].conn) {
      var i := FirstOpen(s, 0);
      match s.callbacks[i].stage
      case Delivered =>
        StoredCloses(Apply(cancelled, Store(i)), i);
        RunCons(cancelled, Store(i), [Check(i), CallbackClose(i)]);
        RunCons(s, Cancel, [Store(i)] + [Check(i), CallbackClose(i)]);
        assert [Cancel] + ([Store(i)] + [Check(i), CallbackClose(i)]) == WayToClose(s);
      case Stored =>
        StoredCloses(cancelled, i);
        RunCons(s, Cancel, [Check(i), CallbackClose(i)]);
        assert [Cancel] + [Check(i), CallbackClose(i)] == WayToClose(s);
      case Closing => CallbackCloses(s, i);
    } else {
      match s.watchdog
      case Selecting =>
        WokenCloses(Apply(cancelled, TakeCtxDone));
        RunCons(cancelled, TakeCtxDone, [ReadConn, WatchdogClose]);
        RunCons(s, Cancel, [TakeCtxDone] + [ReadConn, WatchdogClose]);
        assert [Cancel] + ([TakeCtxDone] + [ReadConn, WatchdogClose]) == WayToClose(s);
      case Woken => WokenCloses(s);
      case Holding(_) => HoldingCloses(s);
    }
  }

  lemma {:induction false} DisarmedNeverCloses(s: State, acts: seq<Action>)
    requires Inv(s) && !Armed(s) && Executable(s, acts) && NoDelivery(acts)
    ensures After(s, acts).closes == s.closes
    decreases |acts|
  {
    if acts != [] {
      StepKeepsInv(s, acts[0]);
      DisarmedNeverCloses(Apply(s, acts[0]), acts[1..]);
    }
  }

  /**
   Releasing does not by itself stop a close: a later cancellation can still
   force-close a connection exactly when a callback is still under way, or the
   watchdog, not yet having taken a `select` arm or having taken the context's,
   still reaches a connection that is not multiplexed. The `select` may take the
   context's arm even though `done` is closed.
   */
  lemma CloseAfterReleaseIffArmed(acts: seq<Action>)
    requires Executable(INIT, acts)
    ensures var s := After(INIT, acts);
      Armed(s) <==> exists more :: NoDelivery(more) && Executable(s, more) && |After(s, more).closes| > |s.closes|
  {
    RunKeepsInv(INIT, acts);
    var s := After(INIT, acts);
    if Armed(s) {
      ArmedCanClose(s);
    } else {
      forall more | NoDelivery(more) && Executable(s, more)
        ensures After(s, more).closes == s.closes
      {
        DisarmedNeverCloses(s, more);
      }
    }
  }

  /** A plain connection, captured, released and only then cancelled, is closed all the same. */
  lemma ReleasedConnectionCanBeClosed(c: Conn)
    requires !Multiplexed(c)
    ensures var acts := [Deliver(c), Store(0), Check(0), Release];
      Executable(INIT, acts) && Armed(After(INIT, acts))
  {
    var s1 := Apply(INIT, Deliver(c));
    var s2 := Apply(s1, Store(0));
    var s3 := Apply(s2, Check(0));
    var last := [Release];
    assert last[1..] == [];
    RunCons(s2, Check(0), last);
    RunCons(s1, Store(0), [Check(0)] + last);
    RunCons(INIT, Deliver(c), [Store(0)] + ([Check(0)] + last));
    assert [Deliver(c)] + ([Store(0)] + ([Check(0)] + last)) == [Deliver(c), Store(0), Check(0), Release];
  }

  // ---------- The trace hook and the goroutine, as the source writes them ----------

  /** The steps of one `GotConn` callback, the context perhaps ending in the middle of it. */
  function CallbackSteps(i: nat, c: Conn, endsBetween: bool, cancelled: bool): seq<Action> {
    [Deliver(c), Store(i)] + (if endsBetween then [Cancel] else []) +
    [Check(i)] + (if cancelled || endsBetween then [CallbackClose(i)] else [])
  }

  /** The steps of the watchdog goroutine from its `select` on. */
  function WatchdogRun(ctxArm: bool): seq<Action> {
    if ctxArm then [TakeCtxDone, ReadConn, WatchdogClose] else [TakeReleased]
  }

  class Guard {
    var conn: Option<nat>
    var captured: seq<Callback>
    var cancelled: bool
    var onceUsed: bool
    var doneCloses: nat
    var watchdog: Watchdog
    var closes: seq<Conn>

    function Value(): State
      reads this
    {
      State(conn, captured, cancelled, onceUsed, doneCloses, watchdog, closes)
    }

    constructor ()
      ensures Value() == INIT
    {
      conn, captured, cancelled, onceUsed, doneCloses, watchdog, closes := None, [], false, false, 0, Selecting, [];
    }

    method HardCloseConn(c: Conn)
      modifies this`closes
      ensures closes == HardClose(old(closes), c)
    {
      if c.tls && c.protocol == "h2" {
        return;
      }
      closes := closes + [c];
    }

    /** The `GotConn` hook; `endsBetween` is whether the context ends between the store and the look at it. */
    method GotConn(c: Conn, endsBetween: bool)
      modifies this
      ensures var acts := CallbackSteps(|old(captured)|, c, endsBetween, old(cancelled));
        Executable(old(Value()), acts) && Value() == After(old(Value()), acts)
    {
      ghost var s0 := Value();
      var i := |captured|;
      captured := captured + [Callback(c, Delivered)];
      conn, captured := Some(i), captured[i := Callback(c, Stored)];
      ghost var s2 := Value();
      assert s2 == Apply(Apply(s0, Deliver(c)), Store(i));
      cancelled := cancelled || endsBetween;
      ghost var s3 := Value();
      if cancelled {
        captured := captured[i := Callback(c, Closing)];
        assert Value() == Apply(s3, Check(i));
        HardCloseConn(c);
        captured := captured[i := Callback(c, Returned(true))];
      } else {
        captured := captured[i := Callback(c, Returned(false))];
      }
      assert Value() == (if cancelled then Apply(Apply(s3, Check(i)), CallbackClose(i)) else Apply(s3, Check(i)));
      CallbackRun(s0, c, endsBetween);
    }

    method Release()
      modifies this
      ensures Value() == Apply(old(Value()), Action.Release)
    {
      if !onceUsed {
        onceUsed, doneCloses := true, doneCloses + 1;
      }
    }

    /** The goroutine, once an arm of its `select` is ready; `preferCtx` settles a tie. */
    method Watch(preferCtx: bool)
      requires Inv(Value()) && watchdog == Selecting && (cancelled || doneCloses > 0)
      modifies this
      ensures var acts := WatchdogRun(old(cancelled) && (preferCtx || old(doneCloses) == 0));
        Executable(old(Value()), acts) && Value() == After(old(Value()), acts)
    {
      ghost var s0 := Value();
      if cancelled && (preferCtx || doneCloses == 0) {
        var c := conn;
        if c.Some? {
          HardCloseConn(captured[c.value].conn);
        }
        watchdog := ExitedCancelled(c);
        ghost var s2 := Apply(Apply(s0, TakeCtxDone), ReadConn);
        assert Value() == Apply(s2, WatchdogClose);
        RunCons(s2, WatchdogClose, []);
        RunCons(Apply(s0, TakeCtxDone), ReadConn, [WatchdogClose] + []);
        RunCons(s0, TakeCtxDone, [ReadConn] + ([WatchdogClose] + []));
        assert [TakeCtxDone] + ([ReadConn] + ([WatchdogClose] + [])) == WatchdogRun(true);
      } else {
        watchdog := ExitedReleased;
        RunCons(s0, TakeReleased, []);
        assert [TakeReleased] + [] == WatchdogRun(false);
      }
    }
  }

  lemma CallbackRun(s: State, c: Conn, endsBetween: bool)
    ensures var i := |s.callbacks|;
      var s2 := Apply(Apply(s, Deliver(c)), Store(i));
      var s3 := if endsBetween then Apply(s2, Cancel) else s2;
      var acts := CallbackSteps(i, c, endsBetween, s.cancelled);
      && Executable(s, acts)
      && After(s, acts) == (if s3.cancelled then Apply(Apply(s3, Check(i)), CallbackClose(i)) else Apply(s3, Check(i)))
  {
    var i := |s.callbacks|;
    var s1 := Apply(s, Deliver(c));
    var s2 := Apply(s1, Store(i));
    var s3 := if endsBetween then Apply(s2, Cancel) else s2;
    var close := if s3.cancelled then [CallbackClose(i)] else [];
    var tail := [Check(i)] + close;
    if s3.cancelled {
      RunCons(Apply(s3, Check(i)), CallbackClose(i), []);
      assert [CallbackClose(i)] + [] == close;
    }
    RunCons(s3, Check(i), close);
    var middle := if endsBetween then [Cancel] + tail else tail;
    if endsBetween {
      RunCons(s2, Cancel, tail);
    }
    RunCons(s1, Store(i), middle);
    RunCons(s, Deliver(c), [Store(i)] + middle);
    assert [Deliver(c)] + ([Store(i)] + middle) == CallbackSteps(i, c, endsBetween, s.cancelled);
  }
}
