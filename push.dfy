/** The push connection (useWebSocket.js): one socket reference at a time,
    the held socket closed before a new one is opened, and a reconnect after
    every close with a growing delay. A late close can clear the reference
    while a newer socket is open, leaving that socket unreferenced
    (RemountOrphansSocket).

    The browser's sockets and timers are abstract handles drawn from one
    counter. The world outside the hook is recorded as two observable
    effects: the timers still armed (handle to delay) and the sequence of
    sockets on which close() was called. The handlers never check which socket
    fired them, so the events below carry no socket handle: an event from a
    superseded socket acts exactly like one from the current socket. */
module PushConnection {
  import opened Telemetry
  import Backoff

  datatype PushState = PushState(
    snapshot: Option<Snapshot>,  // the latest accepted frame
    conn: ConnState,             // the connection indicator
    socket: Option<nat>,         // the socket reference
    timer: Option<nat>,          // the reconnect-timer reference
    attempts: nat,               // closes since the last open
    armed: map<nat, real>,       // timers that will still fire, with their delays
    closeCalls: seq<nat>,        // sockets close() was called on, in order
    nextHandle: nat)             // the handle the next socket or timer gets

  datatype PushEvent =
    | Connect(constructs: bool)               // `constructs` is false when the socket constructor throws
    | Open
    | Message(decoded: Option<Snapshot>)      // None when the payload does not decode
    | Close
    | TimerFires(handle: nat, constructs: bool)
    | Teardown

  /** Both state hooks start out empty and `connecting`; no socket yet. */
  function Initial(): (s: PushState)
    ensures s.snapshot == None && s.conn == Connecting && s.socket == None
    ensures s.attempts == 0 && s.armed == map[] && s.closeCalls == []
  {
    PushState(None, Connecting, None, None, 0, map[], [], 0)
  }

  /** Keep-alive frames carry the discriminator "ping". */
  predicate IsPing(d: Snapshot) {
    d.kind == Some("ping")
  }

  /** Every handle held or recorded was issued before `nextHandle`. */
  ghost predicate HandlesIssued(s: PushState) {
    && (s.socket.Some? ==> s.socket.value < s.nextHandle)
    && (s.timer.Some? ==> s.timer.value < s.nextHandle)
    && (forall h :: h in s.armed ==> h < s.nextHandle)
    && (forall i :: 0 <= i < |s.closeCalls| ==> s.closeCalls[i] < s.nextHandle)
  }

  /** close() on the held socket, if there is one. */
  function CloseHeld(s: PushState): seq<nat> {
    if s.socket.Some? then s.closeCalls + [s.socket.value] else s.closeCalls
  }

  function ConnectStep(s: PushState, constructs: bool): PushState {
    if constructs then
      s.(conn := Connecting, socket := Some(s.nextHandle), closeCalls := CloseHeld(s),
         nextHandle := s.nextHandle + 1)
    else
      s.(conn := Disconnected, closeCalls := CloseHeld(s))
  }

  function Step(s: PushState, e: PushEvent): PushState {
    match e
    case Connect(constructs) => ConnectStep(s, constructs)
    case Open => s.(conn := Connected, attempts := 0)
    case Message(decoded) =>
      if decoded.Some? && !IsPing(decoded.value) then s.(snapshot := decoded) else s
    case Close =>
      s.(conn := Disconnected, socket := None, attempts := s.attempts + 1,
         timer := Some(s.nextHandle),
         armed := s.armed[s.nextHandle := Backoff.Delay(s.attempts)],
         nextHandle := s.nextHandle + 1)
    case TimerFires(h, constructs) =>
      if h in s.armed then ConnectStep(s.(armed := s.armed - {h}), constructs) else s
    case Teardown =>
      s.(armed := if s.timer.Some? then s.armed - {s.timer.value} else s.armed,
         closeCalls := CloseHeld(s))
  }

  lemma StepKeepsHandlesIssued(s: PushState, e: PushEvent)
    requires HandlesIssued(s)
    ensures HandlesIssued(Step(s, e))
  {
  }

  /** The hook instance: one field per state hook and ref. */
  class PushMachine {
    var snapshot: Option<Snapshot>
    var conn: ConnState
    var socket: Option<nat>
    var timer: Option<nat>
    var attempts: nat
    var armed: map<nat, real>
    var closeCalls: seq<nat>
    var nextHandle: nat

    function State(): PushState
      reads this
    {
      PushState(snapshot, conn, socket, timer, attempts, armed, closeCalls, nextHandle)
    }

    ghost predicate Valid()
      reads this
    {
      HandlesIssued(State())
    }

    constructor ()
      ensures Valid() && State() == Initial()
    {
      snapshot, conn, socket, timer := None, Connecting, None, None;
      attempts, armed, closeCalls, nextHandle := 0, map[], [], 0;
    }

    /** The stable connect entry point, called on mount and by every reconnect timer. */
    method Connect(constructs: bool)
      requires Valid()
      modifies this
      ensures Valid()
      ensures closeCalls == CloseHeld(old(State()))
      ensures constructs ==> conn == Connecting && socket == Some(old(nextHandle))
      ensures !constructs ==> conn == Disconnected && socket == old(socket)
      ensures nextHandle == old(nextHandle) + (if constructs then 1 else 0)
      ensures snapshot == old(snapshot) && timer == old(timer)
      ensures attempts == old(attempts) && armed == old(armed)
      ensures State() == Step(old(State()), PushEvent.Connect(constructs))
    {
      if socket.Some? {
        closeCalls := closeCalls + [socket.value];
      }
      conn := Connecting;
      if constructs {
        socket := Some(nextHandle);
        nextHandle := nextHandle + 1;
      } else {
        conn := Disconnected;
      }
    }

    method OnOpen()
      requires Valid()
      modifies this
      ensures Valid()
      ensures conn == Connected && attempts == 0
      ensures snapshot == old(snapshot) && socket == old(socket) && timer == old(timer)
      ensures armed == old(armed) && closeCalls == old(closeCalls) && nextHandle == old(nextHandle)
      ensures State() == Step(old(State()), Open)
    {
      conn := Connected;
      attempts := 0;
    }

    method OnMessage(decoded: Option<Snapshot>)
      requires Valid()
      modifies this
      ensures Valid()
      ensures decoded.Some? && !IsPing(decoded.value) ==> snapshot == decoded
      ensures decoded.None? || IsPing(decoded.value) ==> snapshot == old(snapshot)
      ensures conn == old(conn) && attempts == old(attempts) && socket == old(socket)
      ensures timer == old(timer) && armed == old(armed)
      ensures closeCalls == old(closeCalls) && nextHandle == old(nextHandle)
      ensures State() == Step(old(State()), Message(decoded))
    {
      if decoded.Some? && !IsPing(decoded.value) {
        snapshot := decoded;
      }
    }

    /** Disconnected, socket reference dropped, and one reconnect timer armed
        with the delay for the attempt count before this close. */
    method OnClose()
      requires Valid()
      modifies this
      ensures Valid()
      ensures conn == Disconnected && socket == None
      ensures attempts == old(attempts) + 1
      ensures timer == Some(old(nextHandle)) && nextHandle == old(nextHandle) + 1
      ensures armed == old(armed)[old(nextHandle) := Backoff.Delay(old(attempts))]
      ensures snapshot == old(snapshot) && closeCalls == old(closeCalls)
      ensures State() == Step(old(State()), Close)
    {
      conn := Disconnected;
      socket := None;
      var delay := Backoff.Delay(attempts);
      attempts := attempts + 1;
      timer := Some(nextHandle);
      armed := armed[nextHandle := delay];
      nextHandle := nextHandle + 1;
    }

    /** A timer fires only while it is armed; it then calls Connect. */
    method OnTimer(handle: nat, constructs: bool)
      requires Valid()
      modifies this
      ensures Valid()
      ensures handle !in old(armed) ==> State() == old(State())
      ensures handle in old(armed) ==> handle !in armed && State() == ConnectStep(old(State()).(armed := old(armed) - {handle}), constructs)
      ensures State() == Step(old(State()), TimerFires(handle, constructs))
    {
      if handle in armed {
        armed := armed - {handle};
        Connect(constructs);
      }
    }

    /** The unmount cleanup: clear the referenced timer, close the referenced
        socket. Neither reference is cleared. */
    method Teardown()
      requires Valid()
      modifies this
      ensures Valid()
      ensures timer.Some? ==> timer.value !in armed
      ensures armed == if timer.Some? then old(armed) - {timer.value} else old(armed)
      ensures closeCalls == CloseHeld(old(State()))
      ensures snapshot == old(snapshot) && conn == old(conn) && socket == old(socket)
      ensures timer == old(timer) && attempts == old(attempts) && nextHandle == old(nextHandle)
      ensures State() == Step(old(State()), PushEvent.Teardown)
    {
      if timer.Some? {
        armed := armed - {timer.value};
      }
      if socket.Some? {
        closeCalls := closeCalls + [socket.value];
      }
    }
  }

  // ---------------------------------------------------------------------
  // Runs of events

  function Run(s: PushState, evs: seq<PushEvent>): PushState
    decreases |evs|
  {
    if evs == [] then s else Run(Step(s, evs[0]), evs[1..])
  }

  /** A frame that replaces the snapshot: decoded and not a ping. */
  predicate Accepted(e: PushEvent) {
    e.Message? && e.decoded.Some? && !IsPing(e.decoded.value)
  }

  lemma {:induction false} SnapshotKeptWithoutFrames(s: PushState, evs: seq<PushEvent>)
    requires forall j :: 0 <= j < |evs| ==> !Accepted(evs[j])
    ensures Run(s, evs).snapshot == s.snapshot
    decreases |evs|
  {
    if evs != [] {
      SnapshotKeptWithoutFrames(Step(s, evs[0]), evs[1..]);
    }
  }

  /** Latest wins: after any run of events the snapshot is the last accepted
      frame, whatever opened, closed, reconnected or was torn down meanwhile. */
  lemma {:induction false} LatestFrameWins(s: PushState, evs: seq<PushEvent>, i: nat)
    requires i < |evs| && Accepted(evs[i])
    requires forall j :: i < j < |evs| ==> !Accepted(evs[j])
    ensures Run(s, evs).snapshot == evs[i].decoded
    decreases |evs|
  {
    if i == 0 {
      SnapshotKeptWithoutFrames(Step(s, evs[0]), evs[1..]);
    } else {
      LatestFrameWins(Step(s, evs[0]), evs[1..], i - 1);
    }
  }

  function Closes(evs: seq<PushEvent>): (n: nat)
    ensures n <= |evs|
  {
    if evs == [] then 0 else (if evs[0].Close? then 1 else 0) + Closes(evs[1..])
  }

  lemma {:induction false} AttemptsWithoutOpen(s: PushState, evs: seq<PushEvent>)
    requires forall j :: 0 <= j < |evs| ==> !evs[j].Open?
    ensures Run(s, evs).attempts == s.attempts + Closes(evs)
    decreases |evs|
  {
    if evs != [] {
      AttemptsWithoutOpen(Step(s, evs[0]), evs[1..]);
    }
  }

  /** The attempt counter counts exactly the closes since the last open. */
  lemma {:induction false} AttemptsSinceLastOpen(s: PushState, evs: seq<PushEvent>, i: nat)
    requires i < |evs| && evs[i].Open?
    requires forall j :: i < j < |evs| ==> !evs[j].Open?
    ensures Run(s, evs).attempts == Closes(evs[i + 1..])
    decreases |evs|
  {
    if i == 0 {
      AttemptsWithoutOpen(Step(s, evs[0]), evs[1..]);
    } else {
      assert evs[1..][i - 1 + 1..] == evs[i + 1..];
      AttemptsSinceLastOpen(Step(s, evs[0]), evs[1..], i - 1);
    }
  }

  /** Reset on reconnect: once a socket has opened, the next close waits the
      base delay again, however many attempts came before. */
  lemma ResetOnReconnect(s: PushState, evs: seq<PushEvent>, i: nat)
    requires i < |evs| && evs[i].Open?
    requires forall j :: i < j < |evs| ==> !evs[j].Open? && !evs[j].Close?
    ensures var t := Step(Run(s, evs), Close);
            t.timer.Some? && t.armed[t.timer.value] == 3000.0
  {
    AttemptsSinceLastOpen(s, evs, i);
    assert Closes(evs[i + 1..]) == 0 by {
      NoCloses(evs[i + 1..]);
    }
    Backoff.DelayFirstValues();
  }

  lemma {:induction false} NoCloses(evs: seq<PushEvent>)
    requires forall j :: 0 <= j < |evs| ==> !evs[j].Close?
    ensures Closes(evs) == 0
  {
    if evs != [] {
      NoCloses(evs[1..]);
    }
  }

  /** A close before any open still reports `disconnected`. */
  lemma CloseBeforeOpenDisconnects()
    ensures Run(Initial(), [Connect(true), Close]).conn == Disconnected
  {
  }

  /** Teardown is not the end: the close() it calls makes the socket report a
      close, and that close arms a fresh reconnect timer. */
  lemma TeardownThenCloseRearms(s: PushState)
    requires HandlesIssued(s) && s.socket.Some?
    ensures var t := Step(s, Teardown);
            t.closeCalls == s.closeCalls + [s.socket.value] &&
            (t.timer.Some? ==> t.timer.value !in t.armed)
    ensures var u := Run(s, [Teardown, Close]);
            u.timer.Some? && u.timer.value in u.armed && u.timer.value !in s.armed
  {
    assert Run(s, [Teardown, Close]) == Step(Step(s, Teardown), Close);
  }

  /** Remounting (cleanup, then connect again) leaves the first socket's close
      still to come; that close drops the reference to the second socket and
      its timer opens a third, so the second socket is neither referenced nor
      ever closed. */
  lemma RemountOrphansSocket()
    ensures var t := Run(Initial(), [Connect(true), Teardown, Connect(true), Close, TimerFires(2, true)]);
            t.closeCalls == [0, 0] && t.socket == Some(3) && t.armed == map[]
  {
    var s0 := Initial();
    var s1 := Step(s0, Connect(true));
    var s2 := Step(s1, Teardown);
    var s3 := Step(s2, Connect(true));
    var s4 := Step(s3, Close);
    var s5 := Step(s4, TimerFires(2, true));
    assert s4.armed == map[2 := 3000.0] by {
      Backoff.DelayFirstValues();
    }
    assert Run(s0, [Connect(true), Teardown, Connect(true), Close, TimerFires(2, true)]) == s5 by {
      assert Run(s4, [TimerFires(2, true)]) == s5;
      assert Run(s3, [Close, TimerFires(2, true)]) == s5;
      assert Run(s2, [Connect(true), Close, TimerFires(2, true)]) == s5;
      assert Run(s1, [Teardown, Connect(true), Close, TimerFires(2, true)]) == s5;
    }
  }
}
