# authoritah lock/lease state machine, in Dafny

`Authoritah` (index.js) is an etcd-backed authority lock. Each instance
contends for one store key, `'/authoritah/locks/' + name`, and holds an
immutable owner id plus two flags: `$ready` (it wants the lock) and `$locked`
(it believes it holds the lock). Five pieces of code move the flags:
`$attemptLock` (a conditional create with `prevExist: false`), `ready()`,
`release()` (a compare-and-delete), `extend()` (a set guarded by `prevValue`),
and the watcher's `change` handler.

The model is functional:

- `etcd.dfy` (module `Etcd`) models the one key as `Option<Token>`. `Apply`
  gives the etcd v2 semantics of the three conditional requests: error 105 when
  the key already exists, 100 when it is missing, 101 when the compare fails.
  It also gives the watch event each change produces. `ApplyExternal` does the
  same for writes this instance does not make: a foreign set, a forced delete,
  and TTL expiry.
- `authoritah.dfy` (module `Authoritah`) models the class. Each asynchronous
  operation has a request function and a completion function. The request
  returns a `Step`: the new state, the events emitted synchronously, and either
  the settled reply or the one store request in flight. The completion takes
  the store's `Outcome` and returns a `Completion`. Emitted events are collected
  in a list.
- `system.dfy` (module `System`) drives one instance against the store. Each
  input runs to quiescence, and each watch event is delivered immediately.
  Under that discipline `$locked` always agrees with the store: `Coherent` is
  kept by every operation and by every external write. Four lemmas show how it
  breaks otherwise: when delivery is stopped or delayed, when an outside write
  lands while a create is in flight, and when a delete's reply arrives after a
  new acquisition. A fifth shows that a `release()` overlapping an attempt can
  leave the key held after the release has settled, by an instance that is no
  longer ready.
- `scenarios.dfy` (module `Scenarios`) has end-to-end runs of the situations
  test.js exercises.

Two places where the program's own text promises more than its code does:

- `extend()`. Its doc comment (index.js:158-163) says it "will have no
  effect" when the lock is not ours. The tests at test.js:139-185 are named
  "extend should recover" after an unseen delete or overwrite. The code
  (index.js:174-181) returns the guarded set and never touches `$locked`, so a
  renewal after an unseen loss rejects with error 100 or 101. The model follows
  the code. `Authoritah.ExtendDoesNotRecover` states what happens: the
  rejection is reported, `$locked` stays set, and the next `extend()` sends the
  same failing renewal.
- `lost`. The event's doc comment (index.js:19-23) says it fires when the lock
  is "stolen or expired", and test.js:170-185 calls an overwrite by a plain set
  a stolen key. The handler's `switch` (index.js:57-88) has no case for `set`.
  Such an overwrite clears `$locked` through index.js:55, but emits nothing and
  starts no attempt. The model follows the code; `Scenarios.StealIsSilent`
  states it.

## Model

| member | source | states |
|---|---|---|
| `Etcd.Apply` | index.js:99-182 | the store's answer to each request the class sends: the create succeeds exactly on an empty key and fails with 105 otherwise; the guarded delete and set succeed exactly when the key holds the expected id and fail with 100 or 101 otherwise; a change is reported on the watch exactly when a request succeeds |
| `Etcd.ApplyExternal` | test.js:126-137 | a forced delete or an expiry empties a held key and reports `delete` or `expire` with the old value; a foreign set always succeeds and reports the new value |
| `Authoritah.LockKey` | index.js:49 | the key is the fixed namespace prefix followed by the lock name, and the name can be read back from it |
| `Authoritah.LockKeyInjective` | index.js:49 | two lock names share a store key if and only if they are the same name |
| `Authoritah.New` | index.js:36-50 | the key derives from the name; `ttl` defaults to 15 and `heartbeatInterval` to 2 only when unset, otherwise the given values are kept; a new instance is neither ready nor locked |
| `Authoritah.AttemptLock` | index.js:99-107 | an attempt changes nothing at once and sends a create of the own id, at the own key, with the instance's ttl |
| `Authoritah.AttemptLockDone` | index.js:108-121 | on success `$locked` becomes true, exactly `acquired` is emitted and the result is true; on error 105 exactly `taken` is emitted, the result is false and nothing changes; any other error is rethrown with no event and no change |
| `Authoritah.AttemptLockAgainstStore` | index.js:99-122 | against the store, the attempt resolves true exactly when the key was empty, and then the key holds the own id; otherwise the key and the instance are unchanged and `taken` is emitted |
| `Authoritah.Ready` | index.js:130-135 | `ready()` sets `$ready`, keeps `$locked`, emits exactly `ready`, and sends the attempt's request |
| `Authoritah.ReadyEmitsFirst` | index.js:130-135 | for every store outcome, `ready` comes before every event of the attempt and the promise resolves to the attempt's result |
| `Authoritah.Release` | index.js:142-156 | `release()` always clears `$ready`; it sends a delete guarded by the own id if and only if the lock is held, and otherwise settles at once |
| `Authoritah.ReleaseDone` | index.js:146-152 | only a successful delete clears `$locked`; a failed one is rethrown and changes nothing |
| `Authoritah.ReleaseIdempotent` | index.js:142-156 | once a release has settled successfully, or when nothing was held, a second `release()` sends nothing and changes nothing |
| `Authoritah.ReleaseAgainstStore` | index.js:142-156 | against the store, releasing a held lock empties the key and clears `$locked` exactly when the key still held the own id |
| `Authoritah.Extend` | index.js:165-182 | when not ready `extend()` is exactly `ready()`; when ready but not locked it sends nothing and changes nothing; when ready and locked it sends a set of the own id guarded by the own id, with the same ttl |
| `Authoritah.RenewDone` | index.js:174-181 | the renewal's promise resolves on success and rejects with the store's error otherwise; the flags are untouched |
| `Authoritah.ExtendKeepsFlags` | index.js:170-181 | for a ready instance, `extend()` never changes `$ready` or `$locked` and emits nothing, whatever the store answers |
| `Authoritah.ExtendDoesNotRecover` | index.js:174-181 | a renewal whose guard fails rejects with 100 or 101, leaves `$locked` set, and the next `extend()` sends the same request |
| `Authoritah.OnChange` | index.js:53-89 | after any event `$locked` equals whether the new value is the own id; other actions emit nothing and send nothing; `expire` of the own lease clears `$ready`, emits exactly `lost{expired}` and makes no attempt; any other `expire` emits `expired`; `delete`/`compareAndDelete` emit `lost` exactly when the previous value was the own id; in those two cases an attempt is sent if and only if the instance is ready |
| `Authoritah.TryAgain` | index.js:67-85 | the handler's re-attempt is sent if and only if the instance is ready, after the events it emits |
| `System.Run` | index.js:52-57 | running a request to quiescence, with its own watch event delivered, keeps the identity, only appends events, and never changes `$ready` |
| `System.OnChangeCoherent` | index.js:53-55 | after the handler, `$locked` agrees with the value the event reports, and any request it sends is one of the instance's own |
| `System.RunKeepsCoherence` | index.js:53-88 | when each change's watch event is delivered, `$locked` ends in agreement with the store from any coherent starting step |
| `System.OperationsKeepCoherence` | index.js:130-182 | `ready()`, `release()` and `extend()`, whether each request is delivered, lost before the store, or applied with its reply lost, keep `$locked` true exactly when the store holds the own id |
| `System.ExternalKeepsCoherence` | index.js:53-88 | any outside set (whatever id it writes), a forced delete or an expiry, once delivered, keeps `$locked` true exactly when the store holds the own id |
| `System.TraceKeepsCoherence` | index.js:53-182 | along any sequence of calls and outside writes, each run to quiescence with its watch events delivered before the next input, `$locked` agrees with the store after every step and the key, id and ttl never change |
| `System.LateReplyAfterSteal` | index.js:99-113 | when an outside set lands while the create is in flight, its event clears `$locked`, but the late success reply sets it again and emits `acquired`, so `$locked` disagrees with the store |
| `System.LateDeleteReply` | index.js:142-156 | after `release()` then `ready()`, the delete's event reports `lost` and the re-attempt acquires; the delete's late success reply then clears `$locked` while the store holds the own id |
| `System.ReleaseDuringAttempt` | index.js:130-156 | a `release()` during an in-flight create settles at once with nothing sent; the create then succeeds and the instance holds the key while not ready |
| `System.MissedDeleteLeavesStaleLock` | index.js:165-182 | with the watcher stopped, a forced delete leaves `$locked` set on an empty key, and `extend()` only rejects with 100 |
| `System.DelayedDeliveryTwoLocked` | index.js:58-72 | if the expiry event reaches a ready contender before the old holder, the contender acquires while the holder still has `$locked` set; once the event reaches the holder it emits exactly `lost{expired}` and ends neither ready nor locked, and the contender keeps the key |
| `Scenarios.Contention` | test.js:43-58 | the first of two fresh instances acquires and emits `ready`, `acquired`; the second emits `ready`, `taken`, resolves false and stays unlocked |
| `Scenarios.ExpiryIsLost` | test.js:60-67 | an expired holder emits exactly `lost{expired}` and ends neither ready nor locked |
| `Scenarios.ExtendAfterExpiryReacquires` | test.js:115-124 | after its own expiry, `extend()` emits `ready`, `acquired` and holds the key again |
| `Scenarios.ForcedDeleteReacquires` | test.js:126-137 | a forced delete of a held lock while ready yields `lost` then `acquired`, and the key holds the own id again |
| `Scenarios.ReleaseHandsOver` | test.js:91-100 | the releasing holder's own watcher emits `lost`; a ready contender that sees the delete emits `acquired` and holds the key |
| `Scenarios.ExpiryHandsOver` | test.js:102-113 | when the holder's lease expires it emits `lost{expired}`; a ready contender emits `expired`, then `acquired` |
| `Scenarios.StealIsSilent` | index.js:53-88 | a plain set by another id over a held lock clears `$locked`, keeps `$ready`, emits nothing and starts no attempt |
| `Scenarios.ReadyReplyLost` | index.js:99-135 | when the create is applied but its reply is lost, `ready()` rejects with that error (or reports `taken` for 105), yet the instance's own watch event leaves it holding the key |
| `Scenarios.ReleaseWithoutLock` | index.js:142-156 | releasing an instance that holds nothing sends no request, emits nothing and resolves |

## Left out

- `heartbeat` (index.js:96) is lodash `_.throttle` around `extend()`. Its rate limiting is wall-clock timing inside a foreign library.
- `uuid.v4()` (index.js:50) is replaced by an `id` parameter. Ids of different instances are taken as distinct where a lemma needs it.
- `Math.ceil` on `ttl` (index.js:46) is float rounding. `ttl` is taken as an integer, and `heartbeatInterval` as an integer number of seconds.
- The etcd client is not modelled: the `etcd` option, `promisifyAll`, the transport, and the watcher's reconnect and index handling. A transport failure is an error code given as input.
- TTL timing at the store is not modelled. Expiry is an injected `Expiry` write.
- EventEmitter plumbing is replaced by the list of emitted events.
- The watcher's own attempts and releases have no caller. Their promise results, and any rejection they raise, are dropped, as in the code.
- The order in which a request's response and its watch event arrive is up to the network. `System.Run` runs the completion first.
- Authoritah.OnChange: an event without `prevNode` is treated as "previous value not the own id". In the code, reading `event.prevNode.value` would throw. etcd always sends `prevNode` for `expire`, `delete` and `compareAndDelete`.
- Authoritah.RenewDone: a successful renewal resolves with etcd's response body in the code. The model resolves it with `Unit`.
- `$ready` and `$locked` start `undefined` in the code. The model starts them `false`; every test of them in the code treats the two alike.
- System.TraceKeepsCoherence: covers only inputs that each run to quiescence. Overlapping requests, and outside writes that land while a request is in flight, are not covered. In the code they can leave `$locked` stale, because both reply handlers set it without looking at the store: the create's at index.js:108-110 and the delete's at index.js:150-152. `System.LateReplyAfterSteal` and `System.LateDeleteReply` show one run for each. Overlap can also leak the lock: `System.ReleaseDuringAttempt` shows the key held, with `$locked` in agreement, after `release()` has settled.
- Mutual exclusion across instances is not claimed. The code does not guarantee it when watch delivery is delayed, as `System.DelayedDeliveryTwoLocked` shows.
- Missed-loss recovery in `extend()` is not modelled because the code does not do it (see above).
- A `lost` event for a key overwritten by a plain set is not modelled because the handler does not emit one (see above).
