/**
 * The RSC cache: a map from stringified locations to React thenables, the
 * message handler that lets the cache observer delete, clear, enable and
 * disable it over the WebSocket, and the send path with its linear backoff.
 *
 * Host events are methods of their own: the socket changing state, a
 * message arriving, a `setTimeout` timer firing, and the `.then` callback of
 * a fulfilled thenable running. The socket's `send` is an append to
 * `outbox` of the message object as it is before `JSON.stringify`; console
 * errors are appends to `diagnostics`.
 */
module Cache {
  import opened Protocol
  import opened SendPolicy

  /** A retry timer armed by `sendToWebSocket`: its delay and what it resends. */
  datatype Retry<T> = Retry(delay: nat, action: Action, payload: Payload<T>)

  /** A `.then` callback registered by `set`: the key it was set under. */
  datatype Listener<T> = Listener(key: string, thenable: Thenable<T>)

  /** `cache.set(key, value)`, preceded by `cache.clear()` when the cache is disabled. */
  function StoreSet<V>(m: map<string, V>, enabled: bool, key: string, value: V): (r: map<string, V>)
    ensures key in r && r[key] == value
    ensures enabled ==> r.Keys == m.Keys + {key}
    ensures enabled ==> forall k :: k in m && k != key ==> r[k] == m[k]
    ensures !enabled ==> r.Keys == {key}
  {
    (if enabled then m else map[])[key := value]
  }

  /** `cache.has(key)`; a missing key member never matches a string key. */
  predicate HasKey<V>(m: map<string, V>, key: Option<string>)
  {
    key.Some? && key.value in m
  }

  /** `cache.delete(key)`: removes the key if present, and is harmless otherwise. */
  function StoreDelete<V>(m: map<string, V>, key: Option<string>): (r: map<string, V>)
    ensures r.Keys == if key.Some? then m.Keys - {key.value} else m.Keys
    ensures forall k :: k in r ==> r[k] == m[k]
    ensures !HasKey(m, key) ==> r == m
  {
    if key.Some? then m - {key.value} else m
  }

  /** What a give-up outcome reports on the console. */
  function Report(o: SendOutcome): seq<Diagnostic>
  {
    match o
    case GiveUpExhausted => [RetriesExhausted]
    case GiveUpClosed => [ConnectionClosed]
    case _ => []
  }

  class RscCache<T> {
    var cache: map<string, Thenable<T>>
    var isEnabled: bool
    var sendRetries: nat
    var readyState: ReadyState

    /** Message objects sent (before `JSON.stringify`), oldest first. */
    var outbox: seq<Outbound<T>>
    /** Errors reported on the console, oldest first. */
    var diagnostics: seq<Diagnostic>
    /** Armed retry timers that have not fired yet. */
    var timers: seq<Retry<T>>
    /** `.then` callbacks that have not run yet. */
    var listeners: seq<Listener<T>>

    /** Every armed retry waits a backoff delay: 300 to 1200 ms in steps of 100. */
    ghost predicate Valid()
      reads this
    {
      forall i :: 0 <= i < |timers| ==> IsBackoffDelay(timers[i].delay)
    }

    /**
     * The state after one `sendToWebSocket(action, payload)` attempt, made
     * with the counter at `retries` from the given outbox, timers and
     * diagnostics: sent and the counter reset, or a retry armed, or a
     * give-up reported; the counter changes only when the message is sent.
     */
    ghost predicate AfterSend(retries: nat, outboxBefore: seq<Outbound<T>>, timersBefore: seq<Retry<T>>,
                              diagnosticsBefore: seq<Diagnostic>, action: Action, payload: Payload<T>)
      reads this
    {
      var o := SendStep(readyState, retries);
      && sendRetries == (if o == SendNow then 0 else retries)
      && outbox == outboxBefore + (if o == SendNow then [Outbound(MessageId(action), payload)] else [])
      && timers == timersBefore + (if o.RetryAfter? then [Retry(o.delay, action, payload)] else [])
      && diagnostics == diagnosticsBefore + Report(o)
    }

    /** A new cache: empty, enabled, counter 0, socket still connecting. */
    constructor ()
      ensures Valid()
      ensures cache == map[] && isEnabled && sendRetries == 0 && readyState == Connecting
      ensures outbox == [] && diagnostics == [] && timers == [] && listeners == []
    {
      cache := map[];
      isEnabled := true;
      sendRetries := 0;
      readyState := Connecting;
      outbox := [];
      diagnostics := [];
      timers := [];
      listeners := [];
    }

    /** The host moves the socket on (it opens, starts closing, or closes). */
    method SocketStateChanged(s: ReadyState)
      requires Valid()
      requires StateRank(readyState) <= StateRank(s)
      modifies this`readyState
      ensures Valid() && readyState == s
    {
      readyState := s;
    }

    /** `get`: a lookup that changes nothing. */
    method Get(key: string) returns (r: Option<Thenable<T>>)
      ensures key in cache ==> r == Some(cache[key])
      ensures key !in cache ==> r == None
    {
      r := if key in cache then Some(cache[key]) else None;
    }

    /**
     * `set`: store the thenable (after evicting everything if the cache is
     * disabled) and register the callback that publishes once it resolves.
     * Nothing is sent synchronously.
     */
    method Set(key: string, value: Thenable<T>)
      requires Valid()
      modifies this`cache, this`listeners
      ensures Valid()
      ensures cache == StoreSet(old(cache), isEnabled, key, value)
      ensures listeners == old(listeners) + [Listener(key, value)]
    {
      if !isEnabled {
        cache := map[];
      }
      cache := cache[key := value];
      listeners := listeners + [Listener(key, value)];
    }

    /**
     * The `.then` callback of listener `i`, run by the host once its thenable
     * has been fulfilled: publish a `set` message naming the key and carrying
     * a snapshot of the whole cache as it is now.
     */
    method RunListener(i: nat)
      requires Valid()
      requires i < |listeners| && listeners[i].thenable.value.Some?
      modifies this`listeners, this`sendRetries, this`outbox, this`timers, this`diagnostics
      ensures Valid()
      ensures listeners == old(listeners[..i] + listeners[i + 1..])
      ensures AfterSend(old(sendRetries), old(outbox), old(timers), old(diagnostics),
                        SetAction, Payload(Some(old(listeners[i].key)), Snapshot(cache)))
    {
      var l := listeners[i];
      listeners := listeners[..i] + listeners[i + 1..];
      var _ := Send(SetAction, Payload(Some(l.key), Snapshot(cache)));
    }

    /** The message handler registered in the constructor. */
    method Receive(m: Inbound)
      requires Valid()
      modifies this`cache, this`isEnabled, this`sendRetries, this`outbox, this`timers, this`diagnostics
      ensures Valid()
      ensures match Classify(m)
        case Delete(key) =>
          && cache == StoreDelete(old(cache), key)
          && isEnabled == old(isEnabled)
          && AfterSend(old(sendRetries), old(outbox), old(timers),
                       old(diagnostics) + (if HasKey(old(cache), key) then [] else [KeyNotFound]),
                       UpdateAction, Payload(None, Snapshot(cache)))
        case Clear =>
          && cache == map[]
          && isEnabled == old(isEnabled)
          && AfterSend(old(sendRetries), old(outbox), old(timers), old(diagnostics),
                       UpdateAction, Payload(None, map[]))
        case Enable =>
          && isEnabled
          && cache == old(cache) && sendRetries == old(sendRetries) && outbox == old(outbox)
          && timers == old(timers) && diagnostics == old(diagnostics)
        case Disable =>
          && !isEnabled
          && cache == old(cache) && sendRetries == old(sendRetries) && outbox == old(outbox)
          && timers == old(timers) && diagnostics == old(diagnostics)
        case _ =>
          && isEnabled == old(isEnabled)
          && cache == old(cache) && sendRetries == old(sendRetries) && outbox == old(outbox)
          && timers == old(timers) && diagnostics == old(diagnostics)
    {
      match Classify(m)
      case Delete(key) =>
        if !HasKey(cache, key) {
          diagnostics := diagnostics + [KeyNotFound];
        }
        cache := StoreDelete(cache, key);
        var _ := Send(UpdateAction, Payload(None, Snapshot(cache)));
      case Clear =>
        cache := map[];
        var _ := Send(UpdateAction, Payload(None, map[]));
      case Enable =>
        isEnabled := true;
      case Disable =>
        isEnabled := false;
      case _ =>
    }

    /**
     * A retry timer fires: it is disarmed, the shared counter is incremented,
     * and the same message is attempted again.
     */
    method FireTimer(i: nat)
      requires Valid()
      requires i < |timers|
      modifies this`sendRetries, this`outbox, this`timers, this`diagnostics
      ensures Valid()
      ensures AfterSend(old(sendRetries) + 1, old(outbox), old(timers[..i] + timers[i + 1..]), old(diagnostics),
                        old(timers[i].action), old(timers[i].payload))
    {
      var t := timers[i];
      timers := timers[..i] + timers[i + 1..];
      sendRetries := sendRetries + 1;
      var _ := Send(t.action, t.payload);
    }

    /** `sendToWebSocket`: one attempt to send, decided by `SendStep`. */
    method Send(action: Action, payload: Payload<T>) returns (o: SendOutcome)
      requires Valid()
      modifies this`sendRetries, this`outbox, this`timers, this`diagnostics
      ensures Valid()
      ensures o == SendStep(readyState, old(sendRetries))
      ensures AfterSend(old(sendRetries), old(outbox), old(timers), old(diagnostics), action, payload)
    {
      o := SendStep(readyState, sendRetries);
      match o
      case SendNow =>
        sendRetries := 0;
        outbox := outbox + [Outbound(MessageId(action), payload)];
      case RetryAfter(delay) =>
        timers := timers + [Retry(delay, action, payload)];
      case GiveUpExhausted =>
        diagnostics := diagnostics + [RetriesExhausted];
      case GiveUpClosed =>
        diagnostics := diagnostics + [ConnectionClosed];
    }
  }
}
