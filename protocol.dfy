/**
 * The values that flow through the RSC cache: the deferred React elements it
 * stores, the snapshots it publishes, and the messages it exchanges with the
 * cache observer over the WebSocket (inbound commands, outbound updates).
 */
module Protocol {

  datatype Option<T> = None | Some(value: T)

  /**
   * A React thenable. `value` is what the cache reads through the
   * `elementThenable.value` escape hatch: `None` while the thenable is still
   * pending, `Some(v)` once it has been fulfilled with `v`.
   * Thenables are objects: the cache stores references, so a `get` returns
   * the very instance an earlier `set` stored.
   */
  class Thenable<T> {
    var value: Option<T>

    constructor ()
      ensures value == None
    {
      value := None;
    }

    /** The host fulfils the thenable; a thenable settles at most once. */
    method Fulfil(v: T)
      modifies this
      ensures value == if old(value).None? then Some(v) else old(value)
    {
      if value.None? {
        value := Some(v);
      }
    }
  }

  /**
   * The `fullCache` object built from the cache entries: every key of the
   * cache, mapped to the current `.value` of its thenable. Pending entries
   * are not filtered out; in this object they appear with no value.
   */
  function Snapshot<T>(cache: map<string, Thenable<T>>): (s: map<string, Option<T>>)
    reads cache.Values
    ensures s.Keys == cache.Keys
    ensures forall k :: k in s ==> s[k] == cache[k].value
  {
    map k | k in cache :: cache[k].value
  }

  /** The keys whose thenable has been fulfilled. */
  ghost function ResolvedKeys<T>(cache: map<string, Thenable<T>>): set<string>
    reads cache.Values
  {
    set k | k in cache && cache[k].value.Some?
  }

  /** A snapshot carries a value for exactly the entries that have resolved. */
  lemma SnapshotValuesAreResolved<T>(cache: map<string, Thenable<T>>)
    ensures (set k | k in Snapshot(cache) && Snapshot(cache)[k].Some?) == ResolvedKeys(cache)
  {
    var s := Snapshot(cache);
    assert forall k :: k in s && s[k].Some? <==> k in cache && cache[k].value.Some?;
  }

  // ---------------------------------------------------------------------
  // Outbound messages
  // ---------------------------------------------------------------------

  /** The `action` argument of `sendToWebSocket`. */
  datatype Action = UpdateAction | SetAction

  function ActionName(a: Action): string
  {
    match a
    case UpdateAction => "update"
    case SetAction => "set"
  }

  const OutboundPrefix: string := "rsc-cache-"

  /** The `id` of an outbound message: `'rsc-cache-' + action`. */
  function MessageId(a: Action): (id: string)
    ensures id == OutboundPrefix + ActionName(a)
    ensures id == "rsc-cache-update" || id == "rsc-cache-set"
    ensures a == UpdateAction <==> id == "rsc-cache-update"
  {
    OutboundPrefix + ActionName(a)
  }

  /**
   * The payload object: `updatedKey` is present only on `set` messages,
   * `fullCache` is a snapshot of the cache.
   */
  datatype Payload<T> = Payload(updatedKey: Option<string>, fullCache: map<string, Option<T>>)

  /**
   * The object `{ id, payload }` that is serialised with `JSON.stringify`
   * and then handed to `socket.send`; the serialisation is not modelled.
   */
  datatype Outbound<T> = Outbound(id: string, payload: Payload<T>)

  // ---------------------------------------------------------------------
  // Inbound messages
  // ---------------------------------------------------------------------

  /**
   * A message event from the socket. `data` is the frame's text; `id` and
   * `key` are the members of the object that parsing `data` as JSON yields
   * (`None` when the member is missing or is not a string).
   */
  datatype Inbound = Inbound(data: string, id: Option<string>, key: Option<string>)

  const DeleteId: string := "rsc-cache-delete"
  const ClearId: string := "rsc-cache-clear"
  const EnableId: string := "rsc-cache-enable"
  const DisableId: string := "rsc-cache-disable"

  /** What the message handler makes of an inbound message. */
  datatype Command =
    | Delete(key: Option<string>)
    | Clear
    | Enable
    | Disable
    | Unknown     // an object whose `id` is none of the four commands
    | NotObject   // text that does not start with `{`

  /** `data.startsWith('{')` */
  predicate IsObjectText(data: string)
  {
    |data| > 0 && data[0] == '{'
  }

  /** The id an observer puts on a command, for the four recognised ones. */
  function CommandId(c: Command): Option<string>
  {
    match c
    case Delete(_) => Some(DeleteId)
    case Clear => Some(ClearId)
    case Enable => Some(EnableId)
    case Disable => Some(DisableId)
    case _ => None
  }

  /** The dispatch of the message handler on `startsWith('{')` and `data.id`. */
  function Classify(m: Inbound): (c: Command)
    ensures c == NotObject <==> !IsObjectText(m.data)
    ensures c != NotObject && c != Unknown ==> CommandId(c) == m.id
    ensures c == Unknown <==> IsObjectText(m.data) && m.id !in {Some(DeleteId), Some(ClearId), Some(EnableId), Some(DisableId)}
    ensures c.Delete? ==> c.key == m.key
  {
    if !IsObjectText(m.data) then NotObject
    else if m.id == Some(DeleteId) then Delete(m.key)
    else if m.id == Some(ClearId) then Clear
    else if m.id == Some(EnableId) then Enable
    else if m.id == Some(DisableId) then Disable
    else Unknown
  }

  /**
   * Every recognised command, sent as an object with its own id, is
   * understood as that very command (and a delete keeps its key).
   */
  lemma ClassifyRecognises(c: Command, data: string)
    requires c != NotObject && c != Unknown
    requires IsObjectText(data)
    ensures Classify(Inbound(data, CommandId(c), if c.Delete? then c.key else None)) == c
  {
  }

  // ---------------------------------------------------------------------
  // Diagnostics
  // ---------------------------------------------------------------------

  /** The conditions the cache reports on the console. */
  datatype Diagnostic =
    | KeyNotFound        // a delete command named a key the cache does not hold
    | RetriesExhausted   // a send gave up after the retry budget was used
    | ConnectionClosed   // a send gave up because the socket is neither open nor connecting
}
