/**
 The per-instance lock/lease state machine of `Authoritah` (index.js).

 Every asynchronous operation is split in two: a request function returning a
 `Step` (the new state, the events emitted synchronously, and either the reply
 or the one store request now in flight), and a completion function applying
 the store's `Outcome` when that request settles.
 */
module Authoritah {
  import opened Wrappers
  import opened Etcd

  const LockPrefix := "/authoritah/locks/"
  const DefaultTtl := 15
  const DefaultHeartbeatInterval := 2

  /** Constructor options; `None` is a property left undefined. */
  datatype Options = Options(ttl: Option<int>, heartbeatInterval: Option<int>)

  /** One lock instance: its immutable identity and its two flags. */
  datatype Authority = Authority(
    key: string,
    id: Token,
    ttl: int,
    heartbeatInterval: int,
    ready: bool,     // `$ready`: this instance wants the lock
    locked: bool     // `$locked`: this instance believes it holds the lock
  )

  /** The notifications the instance emits. `Lost(true)` carries `{expired: true}`. */
  datatype Event = Ready | Acquired | Taken | Lost(expired: bool) | Expired

  /** What a returned promise resolves to. */
  datatype Value = Flag(flag: bool) | Unit

  /** A settled promise: resolved with a value, or rejected with a store error. */
  datatype Reply = Returned(value: Value) | Raised(errorCode: int)

  /** Either the operation has settled, or it awaits one store request. */
  datatype Next = Settled(reply: Reply) | Awaiting(call: StoreCall)

  datatype Step = Step(auth: Authority, emitted: seq<Event>, next: Next)

  datatype Completion = Completion(auth: Authority, emitted: seq<Event>, reply: Reply)

  /** The fields fixed at construction. */
  predicate SameLock(a: Authority, b: Authority) {
    a.key == b.key && a.id == b.id && a.ttl == b.ttl && a.heartbeatInterval == b.heartbeatInterval
  }

  /** Nothing settled and nothing emitted: a resolved promise with no value. */
  const Resolved := Settled(Returned(Unit))

  /** The conditional create an attempt sends. */
  function CreateCall(a: Authority): StoreCall {
    SetIfAbsent(a.key, a.id, a.ttl)
  }

  /** The guarded delete a release sends. */
  function DeleteCall(a: Authority): StoreCall {
    DeleteIfValue(a.key, a.id)
  }

  /** The guarded renewal an extend sends. */
  function RenewCall(a: Authority): StoreCall {
    SetIfValue(a.key, a.id, a.ttl, a.id)
  }

  // ---------------------------------------------------------------- constructor

  /** The store key for a lock name. */
  function LockKey(name: string): (key: string)
    ensures |key| == |LockPrefix| + |name|
    ensures key[..|LockPrefix|] == LockPrefix
    ensures key[|LockPrefix|..] == name
  {
    LockPrefix + name
  }

  /** Distinct lock names never share a store key. */
  lemma LockKeyInjective(n1: string, n2: string)
    ensures LockKey(n1) == LockKey(n2) <==> n1 == n2
  {
  }

  /** A new instance; `id` stands for the fresh uuid. Unset options take their defaults. */
  function New(name: string, id: Token, options: Options): (a: Authority)
    ensures a.key == LockKey(name) && a.id == id
    ensures options.ttl.None? ==> a.ttl == DefaultTtl
    ensures options.ttl.Some? ==> a.ttl == options.ttl.value
    ensures options.heartbeatInterval.None? ==> a.heartbeatInterval == DefaultHeartbeatInterval
    ensures options.heartbeatInterval.Some? ==> a.heartbeatInterval == options.heartbeatInterval.value
    ensures !a.ready && !a.locked
  {
    Authority(
      LockKey(name),
      id,
      options.ttl.GetOr(DefaultTtl),
      options.heartbeatInterval.GetOr(DefaultHeartbeatInterval),
      false,
      false)
  }

  // ---------------------------------------------------------------- $attemptLock

  /** `$attemptLock` request: the conditional create, nothing changed yet. */
  function AttemptLock(a: Authority): (s: Step)
    ensures s.auth == a && s.emitted == []
    ensures s.next.Awaiting? && s.next.call.SetIfAbsent?
    ensures s.next.call.key == a.key && s.next.call.value == a.id && s.next.call.ttl == a.ttl
  {
    Step(a, [], Awaiting(CreateCall(a)))
  }

  /** `$attemptLock` completion. */
  function AttemptLockDone(a: Authority, outcome: Outcome): (c: Completion)
    ensures SameLock(a, c.auth) && c.auth.ready == a.ready
    ensures outcome.Ok? ==> c.auth.locked && c.emitted == [Acquired] && c.reply == Returned(Flag(true))
    ensures outcome == Fail(NodeExist) ==>
              c.auth == a && c.emitted == [Taken] && c.reply == Returned(Flag(false))
    ensures outcome.Fail? && outcome.errorCode != NodeExist ==>
              c.auth == a && c.emitted == [] && c.reply == Raised(outcome.errorCode)
  {
    match outcome
    case Ok => Completion(a.(locked := true), [Acquired], Returned(Flag(true)))
    case Fail(code) =>
      if code == NodeExist then Completion(a, [Taken], Returned(Flag(false)))
      else Completion(a, [], Raised(code))
  }

  // ---------------------------------------------------------------- ready

  /** `ready()`: want the lock, say so, and make one attempt. */
  function Ready(a: Authority): (s: Step)
    ensures SameLock(a, s.auth) && s.auth.ready && s.auth.locked == a.locked
    ensures s.emitted == [Event.Ready]
    ensures s.next == AttemptLock(s.auth).next
  {
    var r := a.(ready := true);
    var attempt := AttemptLock(r);
    Step(attempt.auth, [Event.Ready] + attempt.emitted, attempt.next)
  }

  // ---------------------------------------------------------------- release

  /** `release()` request. */
  function Release(a: Authority): (s: Step)
    ensures SameLock(a, s.auth) && !s.auth.ready && s.auth.locked == a.locked
    ensures s.emitted == []
    ensures !a.locked ==> s.next == Resolved
    ensures a.locked ==> s.next.Awaiting? && s.next.call == DeleteIfValue(a.key, a.id)
  {
    var r := a.(ready := false);
    if r.locked then Step(r, [], Awaiting(DeleteCall(r))) else Step(r, [], Resolved)
  }

  /** `release()` completion: the flag is cleared only once the delete succeeded. */
  function ReleaseDone(a: Authority, outcome: Outcome): (c: Completion)
    ensures SameLock(a, c.auth) && c.auth.ready == a.ready && c.emitted == []
    ensures outcome.Ok? ==> !c.auth.locked && c.reply == Returned(Unit)
    ensures outcome.Fail? ==> c.auth == a && c.reply == Raised(outcome.errorCode)
  {
    match outcome
    case Ok => Completion(a.(locked := false), [], Returned(Unit))
    case Fail(code) => Completion(a, [], Raised(code))
  }

  // ---------------------------------------------------------------- extend

  /** `extend()` request. */
  function Extend(a: Authority): (s: Step)
    ensures !a.ready ==> s == Ready(a)
    ensures a.ready ==> s.auth == a && s.emitted == []
    ensures a.ready && !a.locked ==> s.next == Resolved
    ensures a.ready && a.locked ==> s.next == Awaiting(SetIfValue(a.key, a.id, a.ttl, a.id))
  {
    if !a.ready then Ready(a)
    else if !a.locked then Step(a, [], Resolved)
    else Step(a, [], Awaiting(RenewCall(a)))
  }

  /** Completion of the renewal: the promise follows the store, the flags do not move. */
  function RenewDone(a: Authority, outcome: Outcome): (c: Completion)
    ensures c.auth == a && c.emitted == []
    ensures outcome.Ok? <==> c.reply.Returned?
    ensures outcome.Fail? ==> c.reply == Raised(outcome.errorCode)
  {
    match outcome
    case Ok => Completion(a, [], Returned(Unit))
    case Fail(code) => Completion(a, [], Raised(code))
  }

  /** The public operations, and the request step each one starts with. */
  datatype Op = ReadyOp | ReleaseOp | ExtendOp

  function Begin(a: Authority, op: Op): Step {
    match op
    case ReadyOp => Ready(a)
    case ReleaseOp => Release(a)
    case ExtendOp => Extend(a)
  }

  /** Routes a settled request to the completion of the operation that sent it. */
  function Complete(a: Authority, call: StoreCall, outcome: Outcome): Completion {
    match call
    case SetIfAbsent(_, _, _) => AttemptLockDone(a, outcome)
    case DeleteIfValue(_, _) => ReleaseDone(a, outcome)
    case SetIfValue(_, _, _, _) => RenewDone(a, outcome)
  }

  /** A step finished by the outcome of its request, if it has one. */
  function Finish(s: Step, outcome: Outcome): Completion {
    match s.next
    case Settled(reply) => Completion(s.auth, s.emitted, reply)
    case Awaiting(call) =>
      var c := Complete(s.auth, call, outcome);
      Completion(c.auth, s.emitted + c.emitted, c.reply)
  }

  // ---------------------------------------------------------------- watcher

  /** The watcher's `change` handler. Its events are emitted synchronously;
      the release or attempt it starts settles later, like any request. */
  function OnChange(a: Authority, ev: WatchEvent): (s: Step)
    ensures SameLock(a, s.auth)
    ensures s.auth.locked == (ev.value == Some(a.id))
    ensures s.next.Awaiting? ==> s.next.call in {CreateCall(a), DeleteCall(a)}
    ensures ev.action !in {Expire, Delete, CompareAndDelete} ==>
              s.auth.ready == a.ready && s.emitted == [] && s.next == Resolved
    ensures ev.action == Expire && ev.prevValue == Some(a.id) ==>
              && !s.auth.ready
              && s.emitted == [Lost(true)]
              && (ev.value != Some(a.id) ==> s.next == Resolved)
    ensures ev.action == Expire && ev.prevValue != Some(a.id) ==>
              s.auth.ready == a.ready && s.emitted == [Expired]
    ensures ev.action in {Delete, CompareAndDelete} ==>
              && s.auth.ready == a.ready
              && (ev.prevValue == Some(a.id) ==> s.emitted == [Lost(false)])
              && (ev.prevValue != Some(a.id) ==> s.emitted == [])
    ensures ev.action in {Delete, CompareAndDelete} || (ev.action == Expire && ev.prevValue != Some(a.id)) ==>
              && (a.ready ==> s.next == Awaiting(SetIfAbsent(a.key, a.id, a.ttl)))
              && (!a.ready ==> s.next == Resolved)
  {
    var b := a.(locked := ev.value == Some(a.id));
    match ev.action
    case Expire =>
      if ev.prevValue == Some(b.id) then
        var r := Release(b);
        Step(r.auth, r.emitted + [Lost(true)], r.next)
      else
        TryAgain(b, [Expired])
    case Delete | CompareAndDelete => TryAgain(b, if ev.prevValue == Some(b.id) then [Lost(false)] else [])
    case _ => Step(b, [], Resolved)
  }

  /** Emits `events`, then attempts the lock again if still ready. */
  function TryAgain(a: Authority, events: seq<Event>): (s: Step)
    ensures s.auth == a && s.emitted == events
    ensures a.ready <==> s.next.Awaiting?
    ensures a.ready ==> s.next == AttemptLock(a).next
    ensures !a.ready ==> s.next == Resolved
  {
    if a.ready then
      var attempt := AttemptLock(a);
      Step(a, events + attempt.emitted, attempt.next)
    else Step(a, events, Resolved)
  }

  // ---------------------------------------------------------------- lemmas

  /** `ready()` emits `ready` before anything the attempt emits, and resolves
      to whatever the attempt resolves to. */
  lemma ReadyEmitsFirst(a: Authority, outcome: Outcome)
    ensures Finish(Ready(a), outcome).emitted
              == [Event.Ready] + AttemptLockDone(a.(ready := true), outcome).emitted
    ensures Finish(Ready(a), outcome).reply == AttemptLockDone(a.(ready := true), outcome).reply
    ensures Finish(Ready(a), outcome).auth.ready
  {
  }

  /** Against the store, an attempt acquires exactly when the key was empty,
      leaves the own id there, and otherwise changes nothing. */
  lemma AttemptLockAgainstStore(a: Authority, held: Option<Token>)
    ensures var ap := Apply(held, CreateCall(a));
            var c := AttemptLockDone(a, ap.outcome);
            && (c.reply == Returned(Flag(true)) <==> held.None?)
            && (c.reply == Returned(Flag(false)) <==> held.Some?)
            && (held.None? ==> ap.value == Some(a.id) && c.auth.locked && c.emitted == [Acquired])
            && (held.Some? ==> ap.value == held && c.auth == a && c.emitted == [Taken])
  {
  }

  /** A second `release()` after the first has settled issues no request and
      changes nothing; when the lock was not held, the first one already did not. */
  lemma ReleaseIdempotent(a: Authority, outcome: Outcome)
    requires outcome.Ok? || !a.locked
    ensures var once := Finish(Release(a), outcome).auth;
            Release(once) == Step(once, [], Resolved)
  {
  }

  /** Releasing a held lock against the store: the guarded delete removes the
      own id exactly when the store still holds it. */
  lemma ReleaseAgainstStore(a: Authority, held: Option<Token>)
    requires a.locked
    ensures var s := Release(a);
            var ap := Apply(held, s.next.call);
            var c := Finish(s, ap.outcome);
            && (held == Some(a.id) ==> ap.value == None && !c.auth.locked && c.reply == Returned(Unit))
            && (held != Some(a.id) ==> ap.value == held && c.auth.locked && c.reply.Raised?)
            && !c.auth.ready
  {
  }

  /** `extend()` never moves the flags of a ready instance, whatever the store does. */
  lemma ExtendKeepsFlags(a: Authority, outcome: Outcome)
    requires a.ready
    ensures Finish(Extend(a), outcome).auth == a
    ensures Finish(Extend(a), outcome).emitted == []
  {
  }

  /** A renewal whose guard fails (the lease went away unseen) is reported as a
      rejection but not reconciled: `$locked` stays set, and the next `extend()`
      sends the very same failing renewal. */
  lemma ExtendDoesNotRecover(a: Authority, held: Option<Token>)
    requires a.ready && a.locked && held != Some(a.id)
    ensures var s := Extend(a);
            var ap := Apply(held, s.next.call);
            var c := Finish(s, ap.outcome);
            && ap.value == held
            && c.auth.locked
            && c.reply == Raised(CompareError(held))
            && Extend(c.auth) == s
  {
  }
}
