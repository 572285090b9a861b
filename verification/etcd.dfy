/**
 Abstract model of the etcd v2 key-value store as the lock sees it: the one
 lock key, its atomic conditional writes, and the watch event each successful
 change produces. The transport, TTL timing and watcher reconnects are not
 modelled; a transport failure is an `Outcome.Fail` with its error code.
 */
module Etcd {
  import opened Wrappers

  /** An owner id; opaque to the lock. */
  type Token = string

  /** etcd v2 error codes used here. */
  const KeyNotFound := 100
  const TestFailed := 101
  const NodeExist := 105

  /** The actions etcd v2 reports on a watch. */
  datatype Action = Get | Set | Create | Update | Delete | Expire | CompareAndSwap | CompareAndDelete

  /** A watch notification: the action, the key's value after it (`node.value`)
      and before it (`prevNode.value`). */
  datatype WatchEvent = WatchEvent(action: Action, value: Option<Token>, prevValue: Option<Token>)

  /** The three conditional requests the lock issues. */
  datatype StoreCall =
    | SetIfAbsent(key: string, value: Token, ttl: int)                    // set with prevExist: false
    | DeleteIfValue(key: string, prevValue: Token)                        // compareAndDelete
    | SetIfValue(key: string, value: Token, ttl: int, prevValue: Token)   // set with prevValue

  /** Writes made by someone other than this instance: another process, an
      operator, or the store itself when a TTL runs out. */
  datatype External = ForeignSet(value: Token) | ForcedDelete | Expiry

  /** How a request completed. */
  datatype Outcome = Ok | Fail(errorCode: int)

  /** The key's new value, the request's outcome and the watch event, if any. */
  datatype Applied = Applied(value: Option<Token>, outcome: Outcome, change: Option<WatchEvent>)

  /** The error etcd reports when a compare guard `prevValue == expected` fails. */
  function CompareError(held: Option<Token>): (code: int)
    ensures held.None? <==> code == KeyNotFound
    ensures held.Some? <==> code == TestFailed
  {
    if held.None? then KeyNotFound else TestFailed
  }

  /** Atomic effect of one conditional request on the value held at the key. */
  function Apply(held: Option<Token>, call: StoreCall): (r: Applied)
    // a request changes the key exactly when it succeeds, and then reports it
    ensures r.outcome.Ok? <==> r.change.Some?
    ensures r.outcome.Fail? ==> r.value == held
    ensures r.change.Some? ==> r.change.value.value == r.value && r.change.value.prevValue == held
    // the guards
    ensures call.SetIfAbsent? ==> (r.outcome.Ok? <==> held.None?)
    ensures call.DeleteIfValue? ==> (r.outcome.Ok? <==> held == Some(call.prevValue))
    ensures call.SetIfValue? ==> (r.outcome.Ok? <==> held == Some(call.prevValue))
    // the new value
    ensures r.outcome.Ok? && call.SetIfAbsent? ==> r.value == Some(call.value)
    ensures r.outcome.Ok? && call.SetIfValue? ==> r.value == Some(call.value)
    ensures r.outcome.Ok? && call.DeleteIfValue? ==> r.value == None
    // the error codes
    ensures r.outcome.Fail? && call.SetIfAbsent? ==> r.outcome.errorCode == NodeExist
    ensures r.outcome.Fail? && !call.SetIfAbsent? ==> r.outcome.errorCode in {KeyNotFound, TestFailed}
  {
    match call
    case SetIfAbsent(_, v, _) =>
      if held.None? then Applied(Some(v), Ok, Some(WatchEvent(Create, Some(v), held)))
      else Applied(held, Fail(NodeExist), None)
    case DeleteIfValue(_, p) =>
      if held == Some(p) then Applied(None, Ok, Some(WatchEvent(CompareAndDelete, None, held)))
      else Applied(held, Fail(CompareError(held)), None)
    case SetIfValue(_, v, _, p) =>
      if held == Some(p) then Applied(Some(v), Ok, Some(WatchEvent(CompareAndSwap, Some(v), held)))
      else Applied(held, Fail(CompareError(held)), None)
  }

  /** Effect of a write this instance did not make. */
  function ApplyExternal(held: Option<Token>, ext: External): (r: Applied)
    ensures r.outcome.Ok? <==> r.change.Some?
    ensures r.change.Some? ==> r.change.value.value == r.value && r.change.value.prevValue == held
    ensures ext.ForeignSet? ==> r.outcome.Ok? && r.value == Some(ext.value)
    ensures !ext.ForeignSet? ==> r.value == None && (r.outcome.Ok? <==> held.Some?)
    ensures r.change.Some? && ext.ForcedDelete? ==> r.change.value.action == Delete
    ensures r.change.Some? && ext.Expiry? ==> r.change.value.action == Expire
  {
    match ext
    case ForeignSet(v) => Applied(Some(v), Ok, Some(WatchEvent(Set, Some(v), held)))
    case ForcedDelete =>
      if held.Some? then Applied(None, Ok, Some(WatchEvent(Delete, None, held)))
      else Applied(None, Fail(KeyNotFound), None)
    case Expiry =>
      if held.Some? then Applied(None, Ok, Some(WatchEvent(Expire, None, held)))
      else Applied(None, Fail(KeyNotFound), None)
  }
}
