/**
 * The WebSocket connection state machine of the chat client: five states, a
 * fixed table of allowed transitions, connection metadata updated on every
 * transition, and state-change listeners.
 *
 * The clock is a parameter `now` (milliseconds); listener callbacks are
 * identified by numbers, and a notification is the set of listeners called.
 */
module WsStateMachine {
  import opened Common

  datatype WsState = DISCONNECTED | CONNECTING | CONNECTED | RECONNECTING | CLOSED

  /** The allowed-transition table. */
  function AllowedTargets(s: WsState): seq<WsState>
  {
    match s
    case DISCONNECTED => [CONNECTING, CLOSED]
    case CONNECTING => [CONNECTED, RECONNECTING, DISCONNECTED, CLOSED]
    case CONNECTED => [DISCONNECTED, RECONNECTING, CLOSED]
    case RECONNECTING => [CONNECTING, DISCONNECTED, CLOSED]
    case CLOSED => []
  }

  predicate CanTransition(from: WsState, to: WsState)
  {
    to in AllowedTargets(from)
  }

  /** Reading of the table: no state lists itself, CLOSED is reachable from every other state and lists nothing, and CONNECTED is entered only from CONNECTING. */
  lemma TransitionTableShape(from: WsState, to: WsState)
    ensures !CanTransition(from, from)
    ensures from != CLOSED ==> CanTransition(from, CLOSED)
    ensures !CanTransition(CLOSED, to)
    ensures CanTransition(from, CONNECTED) <==> from == CONNECTING
    ensures CanTransition(from, CONNECTING) <==> from == DISCONNECTED || from == RECONNECTING
  {
  }

  datatype Metadata = Metadata(
    reconnectAttempts: int,
    lastConnectionTime: int,
    lastDisconnectTime: int,
    disconnectReason: Option<string>)

  const InitialMetadata: Metadata := Metadata(0, 0, 0, None)

  /** What entering `newState` at `now` records. */
  function UpdateMetadata(md: Metadata, newState: WsState, reason: Option<string>, now: int): Metadata
  {
    match newState
    case CONNECTED => md.(lastConnectionTime := now, reconnectAttempts := 0)
    case DISCONNECTED => md.(lastDisconnectTime := now, disconnectReason := reason)
    case RECONNECTING => md.(lastDisconnectTime := now, disconnectReason := reason, reconnectAttempts := md.reconnectAttempts + 1)
    case CLOSED => md.(reconnectAttempts := 0, disconnectReason := reason)
    case CONNECTING => md
  }

  datatype Machine = Machine(state: WsState, metadata: Metadata)

  const InitialMachine: Machine := Machine(DISCONNECTED, InitialMetadata)

  datatype StepResult = StepResult(accepted: bool, machine: Machine)

  /** transition(newState, reason): refused when already there or not allowed, otherwise taken. */
  function Step(m: Machine, newState: WsState, reason: Option<string>, now: int): (r: StepResult)
    ensures r.accepted <==> m.state != newState && CanTransition(m.state, newState)
    ensures !r.accepted ==> r.machine == m
    ensures r.accepted ==> r.machine.state == newState
  {
    if m.state == newState then StepResult(false, m)
    else if !CanTransition(m.state, newState) then StepResult(false, m)
    else StepResult(true, Machine(newState, UpdateMetadata(m.metadata, newState, reason, now)))
  }

  datatype Request = Request(target: WsState, reason: Option<string>, now: int)

  /** The machine after a sequence of transition calls, refused ones included. */
  function Run(m: Machine, reqs: seq<Request>): Machine
    decreases |reqs|
  {
    if reqs == [] then m
    else Run(Step(m, reqs[0].target, reqs[0].reason, reqs[0].now).machine, reqs[1..])
  }

  /** CLOSED is final: no sequence of calls leaves it or alters its metadata. */
  lemma {:induction false} ClosedIsFinal(m: Machine, reqs: seq<Request>)
    requires m.state == CLOSED
    ensures Run(m, reqs) == m
    decreases |reqs|
  {
    if reqs != [] {
      ClosedIsFinal(m, reqs[1..]);
    }
  }

  /**
   * The reconnect counter agrees with the state: zero while connected or
   * closed, positive while reconnecting, never negative.
   */
  ghost predicate AttemptsConsistent(m: Machine)
  {
    m.metadata.reconnectAttempts >= 0
    && (m.state == CONNECTED || m.state == CLOSED ==> m.metadata.reconnectAttempts == 0)
    && (m.state == RECONNECTING ==> m.metadata.reconnectAttempts >= 1)
  }

  lemma StepKeepsAttemptsConsistent(m: Machine, newState: WsState, reason: Option<string>, now: int)
    requires AttemptsConsistent(m)
    ensures AttemptsConsistent(Step(m, newState, reason, now).machine)
  {
  }

  lemma {:induction false} RunKeepsAttemptsConsistent(m: Machine, reqs: seq<Request>)
    requires AttemptsConsistent(m)
    ensures AttemptsConsistent(Run(m, reqs))
    decreases |reqs|
  {
    if reqs != [] {
      StepKeepsAttemptsConsistent(m, reqs[0].target, reqs[0].reason, reqs[0].now);
      RunKeepsAttemptsConsistent(Step(m, reqs[0].target, reqs[0].reason, reqs[0].now).machine, reqs[1..]);
    }
  }

  /** Each call happens no earlier than `t` and no earlier than the call before it. */
  predicate ClockFrom(reqs: seq<Request>, t: int)
  {
    forall i :: 0 <= i < |reqs| ==> t <= reqs[i].now && (i > 0 ==> reqs[i - 1].now <= reqs[i].now)
  }

  /** The recorded times never lie in the future of a clock that only moves forward. */
  lemma {:induction false} RunTimesBounded(m: Machine, reqs: seq<Request>, t: int, later: int)
    requires m.metadata.lastConnectionTime <= t && m.metadata.lastDisconnectTime <= t
    requires ClockFrom(reqs, t)
    requires t <= later && forall i :: 0 <= i < |reqs| ==> reqs[i].now <= later
    ensures Run(m, reqs).metadata.lastConnectionTime <= later
    ensures Run(m, reqs).metadata.lastDisconnectTime <= later
    decreases |reqs|
  {
    if reqs != [] {
      var next := Step(m, reqs[0].target, reqs[0].reason, reqs[0].now).machine;
      assert ClockFrom(reqs[1..], reqs[0].now) by {
        forall i | 0 <= i < |reqs[1..]| ensures reqs[0].now <= reqs[1..][i].now {
          ClockAt(reqs, t, i + 1);
        }
      }
      RunTimesBounded(next, reqs[1..], reqs[0].now, later);
    }
  }

  lemma {:induction false} ClockAt(reqs: seq<Request>, t: int, i: int)
    requires ClockFrom(reqs, t)
    requires 0 <= i < |reqs|
    ensures reqs[0].now <= reqs[i].now
    decreases i
  {
    if i > 0 {
      ClockAt(reqs, t, i - 1);
    }
  }

  /** getConnectionDuration as written: the last disconnect time, or the clock, minus the last connection time. */
  function ConnectionDuration(md: Metadata, now: int): int
  {
    if md.lastConnectionTime == 0 then 0
    else (if md.lastDisconnectTime != 0 then md.lastDisconnectTime else now) - md.lastConnectionTime
  }

  /** Connected, disconnected for a reconnect, connected again: the duration of the open connection comes out negative. */
  lemma ConnectionDurationNegativeWhileConnected()
    ensures var m := Run(InitialMachine, [Request(CONNECTING, None, 50), Request(CONNECTED, None, 100),
                                          Request(RECONNECTING, Some("network"), 200), Request(CONNECTING, None, 250),
                                          Request(CONNECTED, None, 300)]);
      m.state == CONNECTED && ConnectionDuration(m.metadata, 350) == -100 && ConnectionDurationFixed(m, 350) == 50
  {
    var m1 := Step(InitialMachine, CONNECTING, None, 50).machine;
    var m2 := Step(m1, CONNECTED, None, 100).machine;
    var m3 := Step(m2, RECONNECTING, Some("network"), 200).machine;
    var m4 := Step(m3, CONNECTING, None, 250).machine;
    var m5 := Step(m4, CONNECTED, None, 300).machine;
    assert m5.metadata == Metadata(0, 300, 200, Some("network"));
    assert Run(m5, []) == m5;
    assert Run(m4, [Request(CONNECTED, None, 300)]) == m5;
    assert Run(m3, [Request(CONNECTING, None, 250), Request(CONNECTED, None, 300)]) == m5;
    assert Run(m2, [Request(RECONNECTING, Some("network"), 200), Request(CONNECTING, None, 250), Request(CONNECTED, None, 300)]) == m5;
    assert Run(m1, [Request(CONNECTED, None, 100), Request(RECONNECTING, Some("network"), 200), Request(CONNECTING, None, 250),
                    Request(CONNECTED, None, 300)]) == m5;
  }

  /** The connection duration with the open connection measured up to the clock. */
  function ConnectionDurationFixed(m: Machine, now: int): int
  {
    if m.state == CONNECTED then now - m.metadata.lastConnectionTime else ConnectionDuration(m.metadata, now)
  }

  /** Reached by calls on a forward-moving clock, an open connection has lasted a non-negative time; otherwise the two agree. */
  lemma ConnectionDurationFixedNonNegative(reqs: seq<Request>, now: int)
    requires ClockFrom(reqs, 0) && 0 <= now && forall i :: 0 <= i < |reqs| ==> reqs[i].now <= now
    ensures var m := Run(InitialMachine, reqs);
      (m.state == CONNECTED ==> ConnectionDurationFixed(m, now) >= 0)
      && (m.state != CONNECTED ==> ConnectionDurationFixed(m, now) == ConnectionDuration(m.metadata, now))
  {
    RunTimesBounded(InitialMachine, reqs, 0, now);
  }

  class WebSocketStateMachine {
    var currentState: WsState
    var metadata: Metadata
    /** Registered callbacks by listener id. */
    var listeners: map<real, nat>

    constructor ()
      ensures currentState == DISCONNECTED && metadata == InitialMetadata && listeners == map[]
    {
      currentState := DISCONNECTED;
      metadata := InitialMetadata;
      listeners := map[];
    }

    function GetState(): WsState
      reads this
    {
      currentState
    }

    predicate Is(s: WsState)
      reads this
    {
      currentState == s
    }

    predicate CanTransitionTo(newState: WsState)
      reads this
    {
      CanTransition(currentState, newState)
    }

    /** Returns whether the transition was taken and the listeners that were called (all of them when taken). */
    method Transition(newState: WsState, reason: Option<string>, now: int) returns (ok: bool, notified: set<real>)
      modifies this
      ensures StepResult(ok, Machine(currentState, metadata)) == Step(Machine(old(currentState), old(metadata)), newState, reason, now)
      ensures notified == if ok then listeners.Keys else {}
      ensures listeners == old(listeners)
    {
      if currentState == newState {
        return false, {};
      }
      if !CanTransitionTo(newState) {
        return false, {};
      }
      currentState := newState;
      metadata := UpdateMetadata(metadata, newState, reason, now);
      notified := listeners.Keys;
      ok := true;
    }

    function GetMetadata(): Metadata
      reads this
    {
      metadata
    }

    method ResetReconnectAttempts()
      modifies this
      ensures metadata == old(metadata).(reconnectAttempts := 0)
      ensures currentState == old(currentState) && listeners == old(listeners)
    {
      metadata := metadata.(reconnectAttempts := 0);
    }

    method IncrementReconnectAttempts()
      modifies this
      ensures metadata == old(metadata).(reconnectAttempts := old(metadata).reconnectAttempts + 1)
      ensures currentState == old(currentState) && listeners == old(listeners)
    {
      metadata := metadata.(reconnectAttempts := metadata.reconnectAttempts + 1);
    }

    function GetReconnectAttempts(): int
      reads this
    {
      metadata.reconnectAttempts
    }

    function GetConnectionDuration(now: int): int
      reads this
    {
      ConnectionDuration(metadata, now)
    }

    /** Registers `callback` under `id`; the returned id is what the unsubscribe function removes. */
    method OnStateChange(id: real, callback: nat) returns (unsubscribe: real)
      modifies this
      ensures listeners == old(listeners)[id := callback] && unsubscribe == id
      ensures currentState == old(currentState) && metadata == old(metadata)
    {
      listeners := listeners[id := callback];
      unsubscribe := id;
    }

    /** The unsubscribe function returned by OnStateChange. */
    method Unsubscribe(id: real)
      modifies this
      ensures listeners == old(listeners) - {id}
      ensures currentState == old(currentState) && metadata == old(metadata)
    {
      listeners := listeners - {id};
    }

    method Reset()
      modifies this
      ensures currentState == DISCONNECTED && metadata == InitialMetadata && listeners == map[]
    {
      currentState := DISCONNECTED;
      metadata := InitialMetadata;
      listeners := map[];
    }
  }
}
