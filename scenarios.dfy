/**
 * Clients of the RSC cache that drive it through whole event sequences and
 * state what the observer receives at the end. Each one starts from a new
 * cache, so they need no frame of their own.
 */
module Scenarios {
  import opened Protocol
  import opened SendPolicy
  import opened Cache

  /**
   * With the socket open, setting a key and letting its thenable resolve
   * sends exactly one `rsc-cache-set` message naming the key and carrying
   * the whole cache.
   */
  method SetThenResolve<T>(key: string, x: T) returns (got: Option<Thenable<T>>, t: Thenable<T>, sent: seq<Outbound<T>>)
    ensures got == Some(t)
    ensures sent == [Outbound("rsc-cache-set", Payload(Some(key), map[key := Some(x)]))]
  {
    var c := new RscCache<T>();
    c.SocketStateChanged(Open);
    t := new Thenable<T>();
    c.Set(key, t);
    got := c.Get(key);
    t.Fulfil(x);
    c.RunListener(0);
    assert Snapshot(c.cache) == map[key := Some(x)];
    sent := c.outbox;
  }

  /**
   * A delete command for a key the cache does not hold does not fail: it
   * reports the missing key and still publishes one `rsc-cache-update`
   * whose snapshot is the unchanged cache (a pending entry has no value).
   */
  method DeleteAbsentKey<T>(held: string, absent: string) returns (sent: seq<Outbound<T>>, reported: seq<Diagnostic>)
    requires held != absent
    ensures sent == [Outbound("rsc-cache-update", Payload(None, map[held := None]))]
    ensures reported == [KeyNotFound]
  {
    var c := new RscCache<T>();
    c.SocketStateChanged(Open);
    var t := new Thenable<T>();
    c.Set(held, t);
    c.Receive(Inbound("{\"id\":\"rsc-cache-delete\"}", Some(DeleteId), Some(absent)));
    assert Snapshot(c.cache) == map[held := None];
    sent, reported := c.outbox, c.diagnostics;
  }

  /**
   * Clearing twice leaves the cache empty, exactly as clearing once does;
   * each clear publishes an update with an empty snapshot.
   */
  method ClearTwice<T>(key: string, x: T) returns (after: map<string, Thenable<T>>, sent: seq<Outbound<T>>)
    ensures after == map[]
    ensures sent == [Outbound("rsc-cache-update", Payload(None, map[])), Outbound("rsc-cache-update", Payload(None, map[]))]
  {
    var c := new RscCache<T>();
    c.SocketStateChanged(Open);
    var t := new Thenable<T>();
    c.Set(key, t);
    var clear := Inbound("{\"id\":\"rsc-cache-clear\"}", Some(ClearId), None);
    c.Receive(clear);
    c.Receive(clear);
    after, sent := c.cache, c.outbox;
  }

  /**
   * While the cache is disabled every `set` evicts everything before it
   * stores, not only the first one after disabling: the cache never holds
   * more than the entry stored last. Enabling and disabling send nothing.
   */
  method DisabledEvictsOnEverySet<T>(k1: string, k2: string, k3: string) returns (keys: set<string>, sent: seq<Outbound<T>>)
    ensures keys == {k3}
    ensures sent == []
  {
    var c := new RscCache<T>();
    c.SocketStateChanged(Open);
    var t1 := new Thenable<T>();
    c.Set(k1, t1);
    c.Receive(Inbound("{\"id\":\"rsc-cache-disable\"}", Some(DisableId), None));
    var t2 := new Thenable<T>();
    c.Set(k2, t2);
    var t3 := new Thenable<T>();
    c.Set(k3, t3);
    keys, sent := c.cache.Keys, c.outbox;
  }

  /**
   * A message published while the socket stays connecting is retried ten
   * times, after 300, 400, ..., 1200 ms, then dropped with an exhaustion
   * report; nothing is ever sent.
   */
  method RetryUntilExhausted<T>(key: string, x: T) returns (delays: seq<nat>, sent: seq<Outbound<T>>, reported: seq<Diagnostic>)
    ensures delays == [300, 400, 500, 600, 700, 800, 900, 1000, 1100, 1200]
    ensures sent == []
    ensures reported == [RetriesExhausted]
  {
    var c := new RscCache<T>();
    PublishWhileConnecting(c, key, x);
    ghost var p := c.timers[0].payload;
    delays := [];
    while |c.timers| > 0
      invariant c.Valid() && c.readyState == Connecting
      invariant c.sendRetries <= MaxRetries
      invariant c.timers == if c.sendRetries < MaxRetries then [Retry(BaseDelay + DelayStep * c.sendRetries, SetAction, p)] else []
      invariant delays + RetryDelays(Connecting, c.sendRetries) == RetryDelays(Connecting, 0)
      invariant c.outbox == []
      invariant c.diagnostics == if c.sendRetries < MaxRetries then [] else [RetriesExhausted]
      decreases MaxRetries - c.sendRetries
    {
      assert RetryDelays(Connecting, c.sendRetries) == [c.timers[0].delay] + RetryDelays(Connecting, c.sendRetries + 1);
      delays := delays + [c.timers[0].delay];
      c.FireTimer(0);
    }
    FreshBudgetSchedule();
    sent, reported := c.outbox, c.diagnostics;
  }

  /**
   * The retry counter belongs to the cache, not to a message: two messages
   * published while the socket stays connecting share one budget of ten,
   * so between them the timers fire eleven times, not twenty, before both
   * are dropped.
   */
  method SharedRetryBudget<T>(k1: string, k2: string, x: T) returns (firings: nat, sent: seq<Outbound<T>>, reported: seq<Diagnostic>)
    ensures firings == MaxRetries + 1
    ensures sent == []
    ensures reported == [RetriesExhausted, RetriesExhausted]
  {
    var c := new RscCache<T>();
    PublishWhileConnecting(c, k1, x);
    PublishWhileConnecting(c, k2, x);
    firings := FireUntilDropped(c);
    sent, reported := c.outbox, c.diagnostics;
  }

  /**
   * Fires the oldest armed timer until none is left, for two messages that
   * have both just armed their first retry while the socket stays
   * connecting; returns how many timers fired.
   */
  method FireUntilDropped<T>(c: RscCache<T>) returns (firings: nat)
    requires c.Valid() && c.readyState == Connecting
    requires c.sendRetries == 0 && |c.timers| == 2 && c.outbox == [] && c.diagnostics == []
    modifies c
    ensures c.readyState == Connecting && firings == MaxRetries + 1
    ensures c.outbox == [] && c.diagnostics == [RetriesExhausted, RetriesExhausted]
  {
    firings := 0;
    while |c.timers| > 0
      invariant c.Valid() && c.readyState == Connecting
      invariant firings == c.sendRetries <= MaxRetries + 1
      invariant |c.timers| == if c.sendRetries < MaxRetries then 2 else MaxRetries + 1 - c.sendRetries
      invariant c.outbox == []
      invariant c.diagnostics == if c.sendRetries < MaxRetries then [] else if c.sendRetries == MaxRetries then [RetriesExhausted] else [RetriesExhausted, RetriesExhausted]
      decreases MaxRetries + 1 - c.sendRetries
    {
      ghost var before, reportedBefore := c.sendRetries, c.diagnostics;
      ghost var o := SendStep(Connecting, before + 1);
      c.FireTimer(0);
      if before + 1 < MaxRetries {
        assert o.RetryAfter? && |c.timers| == 2;
      } else {
        assert o == GiveUpExhausted && c.diagnostics == reportedBefore + [RetriesExhausted];
      }
      firings := firings + 1;
    }
  }

  /**
   * Sets `key` to a thenable that then resolves to `x`, while the socket is
   * still connecting and the counter is 0: the `.then` callback's publish
   * arms one retry timer and nothing is sent.
   */
  method PublishWhileConnecting<T>(c: RscCache<T>, key: string, x: T)
    requires c.Valid() && c.readyState == Connecting && c.sendRetries == 0
    requires c.outbox == [] && c.diagnostics == [] && c.listeners == []
    modifies c
    ensures c.Valid() && c.readyState == Connecting && c.sendRetries == 0
    ensures c.outbox == [] && c.diagnostics == [] && c.listeners == []
    ensures |c.timers| == |old(c.timers)| + 1
    ensures c.timers[|c.timers| - 1].delay == BaseDelay && c.timers[|c.timers| - 1].action == SetAction
  {
    var t := new Thenable<T>();
    c.Set(key, t);
    t.Fulfil(x);
    assert SendStep(Connecting, 0) == RetryAfter(BaseDelay);
    c.RunListener(0);
  }
}
