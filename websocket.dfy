/**
 * The WebSocket service: the registry of subscribers per message type, the
 * connection flags and the bounded, exponentially spaced reconnection.
 *
 * The socket itself is represented by its ready state; its events (open,
 * error, close) are methods the environment calls. A subscriber is
 * identified by a handle standing for the callback's identity. The timer
 * that retries the connection is not modelled: `OnClose` returns the delay
 * it would wait.
 */
module WebSocket {
  import opened Wrappers
  import Seqs

  const MaxReconnectAttempts: nat := 5
  const BaseReconnectDelay: nat := 1000
  const Wildcard := "*"
  const GiveUpText := "Connection lost. Please refresh the page."

  datatype ReadyState = Connecting | Open | Closing | Closed

  /** The identity of a subscribed callback. */
  type Callback = nat

  /** A server message, reduced to what the service reads: its type, and the error text it may carry. */
  datatype WsMessage = WsMessage(kind: string, error: Option<string>)

  /** The message broadcast when reconnection is given up. */
  const GiveUpMessage := WsMessage("error", Some(GiveUpText))

  function Pow2(n: nat): (p: nat)
    ensures p >= 1
  {
    if n == 0 then 1 else 2 * Pow2(n - 1)
  }

  /** The wait before the `attempt`-th reconnection: 1000 · 2^(attempt − 1) ms. */
  function ReconnectDelay(attempt: nat): (d: nat)
    requires attempt >= 1
    ensures d >= BaseReconnectDelay
  {
    BaseReconnectDelay * Pow2(attempt - 1)
  }

  /** Each attempt waits twice as long as the one before. */
  lemma DelayDoubles(attempt: nat)
    requires attempt >= 1
    ensures ReconnectDelay(attempt + 1) == 2 * ReconnectDelay(attempt)
  {
  }

  /** The five waits of the budget: one, two, four, eight and sixteen seconds. */
  lemma DelaySchedule()
    ensures ReconnectDelay(1) == 1000 && ReconnectDelay(2) == 2000 && ReconnectDelay(3) == 4000
    ensures ReconnectDelay(4) == 8000 && ReconnectDelay(5) == 16000
  {
    assert Pow2(4) == 16 by {
      assert Pow2(2) == 4;
    }
  }

  /** What closing the socket leads to: a reconnection after a delay, or giving up, which calls these subscribers. */
  datatype ReconnectStep = Scheduled(attempt: nat, delay: nat) | GaveUp(calls: seq<Callback>)

  /** How `connect()` goes: already open, waiting for the attempt under way, a new socket created, or creation failed. */
  datatype ConnectStart = AlreadyOpen | AwaitingAttempt | Started | Failed

  class WebSocketService {
    var ws: Option<ReadyState>
    var reconnectAttempts: nat
    var isConnecting: bool
    /** Each type's subscribers, in the insertion order a `Set` keeps, without repetition. */
    var callbacks: map<string, seq<Callback>>

    ghost predicate Valid()
      reads this
    {
      && reconnectAttempts <= MaxReconnectAttempts
      && forall e :: e in callbacks ==> Seqs.NoDuplicates(callbacks[e])
    }

    constructor()
      ensures Valid()
      ensures ws == None && reconnectAttempts == 0 && !isConnecting && callbacks == map[]
    {
      ws := None;
      reconnectAttempts := 0;
      isConnecting := false;
      callbacks := map[];
    }

    /** The subscribers of one type, or none. */
    function SubscribersOf(kind: string): seq<Callback>
      reads this
    {
      if kind in callbacks then callbacks[kind] else []
    }

    /** `notifyCallbacks`: the calls made for a message, the type's subscribers first, then the wildcard's. */
    function Calls(message: WsMessage): seq<Callback>
      reads this
    {
      SubscribersOf(message.kind) + SubscribersOf(Wildcard)
    }

    /** `isConnected`. */
    predicate IsConnected()
      reads this
    {
      ws == Some(Open)
    }

    /**
     * The synchronous part of `connect()`. A second call while an attempt is
     * under way waits for it; `creationFails` says whether creating the
     * socket throws.
     */
    method Connect(creationFails: bool) returns (start: ConnectStart)
      requires Valid()
      modifies this`ws, this`isConnecting
      ensures Valid()
      ensures old(ws) == Some(Open) ==> start == AlreadyOpen && ws == old(ws) && isConnecting == old(isConnecting)
      ensures old(ws) != Some(Open) && old(isConnecting) ==> start == AwaitingAttempt && ws == old(ws) && isConnecting
      ensures old(ws) != Some(Open) && !old(isConnecting) && creationFails ==>
                start == Failed && ws == old(ws) && !isConnecting
      ensures old(ws) != Some(Open) && !old(isConnecting) && !creationFails ==>
                start == Started && ws == Some(Connecting) && isConnecting
    {
      if ws == Some(Open) {
        return AlreadyOpen;
      }
      if isConnecting {
        return AwaitingAttempt;
      }
      isConnecting := true;
      if creationFails {
        isConnecting := false;
        start := Failed;
      } else {
        ws := Some(Connecting);
        start := Started;
      }
    }

    /** The socket opened: the attempt budget is restored. */
    method OnOpen()
      requires Valid()
      modifies this`ws, this`reconnectAttempts, this`isConnecting
      ensures Valid()
      ensures ws == Some(Open) && reconnectAttempts == 0 && !isConnecting
    {
      ws := Some(Open);
      reconnectAttempts := 0;
      isConnecting := false;
    }

    /** The socket reported an error. */
    method OnError()
      modifies this`isConnecting
      ensures !isConnecting
    {
      isConnecting := false;
    }

    /** `handleReconnect`: within the budget, one more attempt after a doubled delay; beyond it, the give-up broadcast. */
    method HandleReconnect() returns (step: ReconnectStep)
      requires Valid()
      modifies this`reconnectAttempts
      ensures Valid()
      ensures old(reconnectAttempts) >= MaxReconnectAttempts ==>
                reconnectAttempts == old(reconnectAttempts) && step == GaveUp(Calls(GiveUpMessage))
      ensures old(reconnectAttempts) < MaxReconnectAttempts ==>
                reconnectAttempts == old(reconnectAttempts) + 1
                && step == Scheduled(reconnectAttempts, ReconnectDelay(reconnectAttempts))
    {
      if reconnectAttempts >= MaxReconnectAttempts {
        return GaveUp(Calls(GiveUpMessage));
      }
      reconnectAttempts := reconnectAttempts + 1;
      step := Scheduled(reconnectAttempts, ReconnectDelay(reconnectAttempts));
    }

    /** The socket closed (the current one, or one already discarded by `Disconnect`). */
    method OnClose() returns (step: ReconnectStep)
      requires Valid()
      modifies this`ws, this`isConnecting, this`reconnectAttempts
      ensures Valid()
      ensures !isConnecting
      ensures ws == (if old(ws).Some? then Some(Closed) else None)
      ensures old(reconnectAttempts) >= MaxReconnectAttempts ==>
                reconnectAttempts == old(reconnectAttempts) && step == GaveUp(Calls(GiveUpMessage))
      ensures old(reconnectAttempts) < MaxReconnectAttempts ==>
                reconnectAttempts == old(reconnectAttempts) + 1
                && step == Scheduled(reconnectAttempts, ReconnectDelay(reconnectAttempts))
    {
      if ws.Some? {
        ws := Some(Closed);
      }
      isConnecting := false;
      step := HandleReconnect();
    }

    /** `disconnect`: the socket is dropped and every subscription cleared. */
    method Disconnect()
      modifies this`ws, this`callbacks
      ensures ws == None && callbacks == map[]
    {
      ws := None;
      callbacks := map[];
    }

    /** `send`: transmitted only while open, otherwise dropped. */
    method Send(message: WsMessage) returns (sent: bool)
      ensures sent <==> IsConnected()
    {
      sent := ws == Some(Open);
    }

    /** `subscribe`: added to the type's set, where a callback already present keeps its one place. */
    method Subscribe(kind: string, cb: Callback)
      requires Valid()
      modifies this`callbacks
      ensures Valid()
      ensures kind in callbacks && cb in callbacks[kind]
      ensures kind in old(callbacks) && cb in old(callbacks)[kind] ==> callbacks == old(callbacks)
      ensures old(SubscribersOf(kind)) <= callbacks[kind] && |callbacks[kind]| <= |old(SubscribersOf(kind))| + 1
      ensures forall e :: e in old(callbacks) && e != kind ==> e in callbacks && callbacks[e] == old(callbacks)[e]
      ensures callbacks.Keys == old(callbacks).Keys + {kind}
    {
      var current := SubscribersOf(kind);
      var updated := if cb in current then current else current + [cb];
      if kind in callbacks && cb in current {
        assert callbacks[kind := updated] == callbacks;
      }
      assert Seqs.NoDuplicates(updated);
      callbacks := callbacks[kind := updated];
    }

    /** The function `subscribe` returns: `cb` leaves that type's set, everything else stays. */
    method Unsubscribe(kind: string, cb: Callback)
      requires Valid()
      modifies this`callbacks
      ensures Valid()
      ensures kind in old(callbacks) ==> callbacks == old(callbacks)[kind := Seqs.Filter(old(callbacks)[kind], (x: Callback) => x != cb)]
      ensures kind !in old(callbacks) ==> callbacks == old(callbacks)
      ensures cb !in SubscribersOf(kind)
    {
      if kind in callbacks {
        Seqs.FilterNoDuplicates(callbacks[kind], (x: Callback) => x != cb);
        callbacks := callbacks[kind := Seqs.Filter(callbacks[kind], (x: Callback) => x != cb)];
      }
    }
  }

  /** A callback subscribed to a type and to the wildcard is called twice for a message of that type; otherwise at most once. */
  lemma CallCount(s: WebSocketService, message: WsMessage, cb: Callback)
    requires s.Valid()
    ensures Seqs.Count(s.Calls(message), cb)
            == (if cb in s.SubscribersOf(message.kind) then 1 else 0) + (if cb in s.SubscribersOf(Wildcard) then 1 else 0)
  {
    Seqs.CountAppend(s.SubscribersOf(message.kind), s.SubscribersOf(Wildcard), cb);
    Seqs.CountNoDuplicates(s.SubscribersOf(message.kind), cb);
    Seqs.CountNoDuplicates(s.SubscribersOf(Wildcard), cb);
  }

  /** Subscribing the same callback twice leaves the registry as one subscription did. */
  method SubscribeTwice(s: WebSocketService, kind: string, cb: Callback)
    requires s.Valid()
    modifies s`callbacks
    ensures s.Valid()
    ensures Seqs.Count(s.SubscribersOf(kind), cb) == 1
  {
    s.Subscribe(kind, cb);
    ghost var once := s.callbacks;
    s.Subscribe(kind, cb);
    assert s.callbacks == once;
    Seqs.CountNoDuplicates(s.SubscribersOf(kind), cb);
  }

  /**
   * From a fresh budget, six closes in a row without an open wait 1, 2, 4, 8
   * and 16 seconds and then give up with the broadcast.
   */
  method ClosesExhaustBudget(s: WebSocketService) returns (steps: seq<ReconnectStep>)
    requires s.Valid() && s.reconnectAttempts == 0
    modifies s`ws, s`isConnecting, s`reconnectAttempts
    ensures |steps| == 6
    ensures steps[..5] == [Scheduled(1, 1000), Scheduled(2, 2000), Scheduled(3, 4000), Scheduled(4, 8000), Scheduled(5, 16000)]
    ensures steps[5] == GaveUp(s.Calls(GiveUpMessage)) && s.reconnectAttempts == MaxReconnectAttempts
  {
    DelaySchedule();
    steps := [];
    var k := 0;
    while k < 6
      invariant 0 <= k <= 6 && s.Valid()
      invariant s.reconnectAttempts == if k <= 5 then k else 5
      invariant |steps| == k
      invariant forall i :: 0 <= i < k && i < 5 ==> steps[i] == Scheduled(i + 1, ReconnectDelay(i + 1))
      invariant k == 6 ==> steps[5] == GaveUp(s.Calls(GiveUpMessage))
      invariant s.callbacks == old(s.callbacks)
    {
      var step := s.OnClose();
      steps := steps + [step];
      k := k + 1;
    }
  }

  /**
   * `disconnect` closes the socket without detaching its close handler, so
   * the close that follows still runs the reconnection step: below the
   * budget a retry is scheduled, which will open a new socket; at the budget
   * the give-up message reaches nobody, every subscription being gone.
   */
  method DisconnectThenClose(s: WebSocketService) returns (step: ReconnectStep)
    requires s.Valid()
    modifies s`ws, s`callbacks, s`isConnecting, s`reconnectAttempts
    ensures s.Valid() && s.ws == None && s.callbacks == map[] && !s.isConnecting
    ensures old(s.reconnectAttempts) < MaxReconnectAttempts ==>
              step == Scheduled(old(s.reconnectAttempts) + 1, ReconnectDelay(old(s.reconnectAttempts) + 1))
    ensures old(s.reconnectAttempts) >= MaxReconnectAttempts ==> step == GaveUp([])
  {
    s.Disconnect();
    step := s.OnClose();
  }
}
