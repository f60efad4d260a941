/**
 * The socket transport (`src/utils/socket.js`): one module-level socket,
 * and `sendEvent` / `subscribeToEvent`, which retry every 50 ms while no
 * socket exists, counting `tries` down from 5, and then give up silently.
 *
 * A `setTimeout` reschedule is an attempt of a loop. Whether the module's
 * socket exists when the k-th attempt runs (attempt 0 is the call itself)
 * is an oracle sequence `present`; an attempt past its end sees no socket.
 */
module Socket {
  import opened Js

  /** The default retry budget of `sendEvent` and `subscribeToEvent`. */
  const DefaultTries: nat := 5

  /** A socket created by `io(...)`; only its identity matters here. */
  type SocketId = nat

  /** A callback passed to `subscribeToEvent`; only its identity matters here. */
  type CallbackId = nat

  /** One `socket.emit(event, data)`. */
  datatype Emission = Emission(event: string, data: Value)

  /** One `socket.on(event, msg => callback(msg))` registration. */
  datatype Subscription = Subscription(event: string, callback: CallbackId)

  /** One call `callback(msg)` made by a registered handler. */
  datatype Call = Call(callback: CallbackId, message: Value)

  /** How a retried call ended: it found the socket at attempt `attempt`, or it gave up after `attempts` attempts. */
  datatype Attempt = Found(attempt: nat) | Dropped(attempts: nat)

  /** Whether the socket exists at attempt `k`. */
  function SocketAt(present: seq<bool>, k: nat): bool {
    k < |present| && present[k]
  }

  /**
   * The retry rule as a reference definition: attempt `k` with `left`
   * tries remaining either finds the socket, or reschedules itself with
   * `left - 1`, or, at `left == 0`, returns.
   */
  function RetryFrom(present: seq<bool>, k: nat, left: nat): Attempt
    decreases left
  {
    if SocketAt(present, k) then Found(k)
    else if left == 0 then Dropped(k + 1)
    else RetryFrom(present, k + 1, left - 1)
  }

  /** The whole chain of attempts that a call with `tries` makes. */
  function Retry(present: seq<bool>, tries: nat): Attempt {
    RetryFrom(present, 0, tries)
  }

  /** The chain of `setTimeout` reschedules, as a loop whose variant is the remaining `tries`. */
  method RetryChain(present: seq<bool>, tries: nat) returns (r: Attempt)
    ensures r == Retry(present, tries)
    ensures r.Found? ==> r.attempt <= tries && SocketAt(present, r.attempt)
    ensures r.Found? ==> forall j :: 0 <= j < r.attempt ==> !SocketAt(present, j)
    ensures r.Dropped? ==> r.attempts == tries + 1
    ensures r.Dropped? ==> forall j :: 0 <= j <= tries ==> !SocketAt(present, j)
  {
    var k, left := 0, tries;
    while !SocketAt(present, k) && left > 0
      invariant k + left == tries
      invariant forall j :: 0 <= j < k ==> !SocketAt(present, j)
      invariant RetryFrom(present, k, left) == Retry(present, tries)
      decreases left
    {
      k, left := k + 1, left - 1;
    }
    if SocketAt(present, k) {
      r := Found(k);
    } else {
      r := Dropped(k + 1);
    }
  }

  /** Every chain ends within `tries + 1` attempts, whatever the oracle says. */
  lemma {:induction false} RetryBounded(present: seq<bool>, k: nat, left: nat)
    ensures var r := RetryFrom(present, k, left);
            if r.Found? then k <= r.attempt <= k + left else r.attempts == k + left + 1
    decreases left
  {
    if !SocketAt(present, k) && left > 0 {
      RetryBounded(present, k + 1, left - 1);
    }
  }

  /** A socket that exists at the first attempt is used at once. */
  lemma RetryImmediate(present: seq<bool>, tries: nat)
    requires SocketAt(present, 0)
    ensures Retry(present, tries) == Found(0)
  {
  }

  /** With `tries == 0` and no socket the call returns at once: no queueing. */
  lemma RetryExhausted(present: seq<bool>)
    requires !SocketAt(present, 0)
    ensures Retry(present, 0) == Dropped(1)
  {
  }

  /** The callbacks registered for `event`, in registration order. */
  function CallbacksFor(handlers: seq<Subscription>, event: string): seq<CallbackId>
  {
    if handlers == [] then []
    else
      var rest := CallbacksFor(handlers[..|handlers| - 1], event);
      var h := handlers[|handlers| - 1];
      if h.event == event then rest + [h.callback] else rest
  }

  /**
   * What the socket does on receiving `event` with `msg`: every handler
   * registered for `event` calls its callback with `msg` unchanged.
   */
  function Deliver(handlers: seq<Subscription>, event: string, msg: Value): (calls: seq<Call>)
    ensures |calls| == |CallbacksFor(handlers, event)|
    ensures forall i :: 0 <= i < |calls| ==>
      calls[i].message == msg && calls[i].callback == CallbacksFor(handlers, event)[i]
  {
    if handlers == [] then []
    else
      var rest := Deliver(handlers[..|handlers| - 1], event, msg);
      var h := handlers[|handlers| - 1];
      if h.event == event then rest + [Call(h.callback, msg)] else rest
  }

  /** A new registration adds exactly one call, with the message unchanged, to every later delivery of its event and none to other events. */
  lemma DeliverAfterSubscribe(handlers: seq<Subscription>, s: Subscription, event: string, msg: Value)
    ensures Deliver(handlers + [s], event, msg) ==
      Deliver(handlers, event, msg) + (if s.event == event then [Call(s.callback, msg)] else [])
  {
    assert (handlers + [s])[..|handlers|] == handlers;
  }

  /** The module state of `socket.js`, with the effects seen through the socket. */
  class Transport {
    /** The module-level `socket` variable. */
    var socket: Option<SocketId>
    /** Every `socket.emit`, in order. */
    var emitted: seq<Emission>
    /** Every `socket.on` registration, in order. */
    var handlers: seq<Subscription>
    /** Every `socket.disconnect()`, in order. */
    var disconnected: seq<SocketId>

    /** The module as loaded: `let socket;` is `undefined`. */
    constructor ()
      ensures socket == None && emitted == [] && handlers == [] && disconnected == []
    {
      socket, emitted, handlers, disconnected := None, [], [], [];
    }

    /** `getSocket()`. */
    function GetSocket(): Option<SocketId>
      reads this
    {
      socket
    }

    /** `initiateSocket()`: `io(...)` yields the fresh socket `s`, which is stored. */
    method InitiateSocket(s: SocketId)
      modifies this
      ensures GetSocket() == Some(s)
      ensures emitted == old(emitted) && handlers == old(handlers) && disconnected == old(disconnected)
    {
      socket := Some(s);
    }

    /** `disconnectSocket()`: nothing without a socket; otherwise disconnects it and keeps the variable set. */
    method DisconnectSocket()
      modifies this
      ensures old(socket).None? ==> disconnected == old(disconnected)
      ensures old(socket).Some? ==> disconnected == old(disconnected) + [old(socket).value]
      ensures socket == old(socket) && emitted == old(emitted) && handlers == old(handlers)
    {
      if socket.None? {
        return;
      }
      disconnected := disconnected + [socket.value];
    }

    /**
     * `sendEvent(event, data, tries)`: attempt 0 sees the current socket,
     * `later[k - 1]` says whether one exists at the k-th reschedule. Emits
     * exactly once if some attempt finds a socket, and nothing otherwise.
     */
    method SendEvent(event: string, data: Value, later: seq<bool>, tries: nat := DefaultTries) returns (r: Attempt)
      modifies this
      ensures r == Retry([socket.Some?] + later, tries)
      ensures r.Found? ==> emitted == old(emitted) + [Emission(event, data)]
      ensures r.Dropped? ==> emitted == old(emitted) && r.attempts == tries + 1
      ensures socket == old(socket) && handlers == old(handlers) && disconnected == old(disconnected)
    {
      r := RetryChain([socket.Some?] + later, tries);
      RetryBounded([socket.Some?] + later, 0, tries);
      if r.Found? {
        emitted := emitted + [Emission(event, data)];
      }
    }

    /**
     * `subscribeToEvent(event, callback, tries)`: the same retry rule;
     * on success exactly one handler is registered.
     */
    method SubscribeToEvent(event: string, callback: CallbackId, later: seq<bool>, tries: nat := DefaultTries)
      returns (r: Attempt)
      modifies this
      ensures r == Retry([socket.Some?] + later, tries)
      ensures r.Found? ==> handlers == old(handlers) + [Subscription(event, callback)]
      ensures r.Dropped? ==> handlers == old(handlers) && r.attempts == tries + 1
      ensures socket == old(socket) && emitted == old(emitted) && disconnected == old(disconnected)
    {
      r := RetryChain([socket.Some?] + later, tries);
      RetryBounded([socket.Some?] + later, 0, tries);
      if r.Found? {
        handlers := handlers + [Subscription(event, callback)];
      }
    }
  }

  /** With the default budget a call makes at most six attempts. */
  lemma DefaultBudget(present: seq<bool>)
    ensures var r := Retry(present, DefaultTries);
            if r.Found? then r.attempt < 6 else r.attempts == 6
  {
    RetryBounded(present, 0, DefaultTries);
  }
}
