/**
 One instance driven against the store with immediate watch delivery: every
 request is applied atomically, its completion runs, and the watch event of
 the change it made is handed to the same instance's `change` handler before
 anything else happens. A request can also fail in transport: either before it
 reaches the store, or after the store applied it, when only the reply is lost
 and the watch event still arrives.

 Under that discipline the cached flag `$locked` always agrees with the store.
 The lemmas after `TraceKeepsCoherence` show what happens without it: a late
 reply (`LateReplyAfterSteal`, `LateDeleteReply`), a stopped watcher
 (`MissedDeleteLeavesStaleLock`) or a delayed event (`DelayedDeliveryTwoLocked`)
 leaves `$locked` out of agreement with the store, and `ReleaseDuringAttempt`
 leaves the key held after `release()` has settled.
 */
module System {
  import opened Wrappers
  import opened Etcd
  import opened Authoritah

  /** The instance, the value at its lock key, everything emitted, and the
      reply of the operation that was run. */
  datatype World = World(auth: Authority, held: Option<Token>, emitted: seq<Event>, reply: Reply)

  /** What happens to one request on the wire. */
  datatype Fault =
    | Delivered                       // the store answers and the answer arrives
    | RequestLost(errorCode: int)     // the request fails before reaching the store
    | ReplyLost(errorCode: int)       // the store applies it, but the caller sees an error

  /** `$locked` is set exactly when the store holds this instance's id. */
  predicate Coherent(a: Authority, held: Option<Token>) {
    a.locked <==> held == Some(a.id)
  }

  /** A request this instance may send: its key, its id. */
  predicate OwnCall(a: Authority, call: StoreCall) {
    call in {CreateCall(a), DeleteCall(a), RenewCall(a)}
  }

  predicate StepCoherent(s: Step, held: Option<Token>) {
    Coherent(s.auth, held) && (s.next.Awaiting? ==> OwnCall(s.auth, s.next.call))
  }

  /** Bounds the chain of requests one operation can set off: a delete's watch
      event can start one attempt, whose own event starts nothing. */
  function Rank(n: Next): nat {
    match n
    case Settled(_) => 0
    case Awaiting(call) => if call.DeleteIfValue? then 2 else 1
  }

  /** Runs a step to quiescence. `faults[i]` is what happens to the i-th
      request; requests beyond the end of `faults` are delivered. */
  function Run(s: Step, held: Option<Token>, faults: seq<Fault>): (w: World)
    ensures SameLock(s.auth, w.auth)
    ensures w.auth.ready == s.auth.ready
    ensures |s.emitted| <= |w.emitted| && w.emitted[..|s.emitted|] == s.emitted
    ensures s.next.Settled? ==> w == World(s.auth, held, s.emitted, s.next.reply)
    decreases Rank(s.next)
  {
    match s.next
    case Settled(reply) => World(s.auth, held, s.emitted, reply)
    case Awaiting(call) =>
      var fault := if faults == [] then Delivered else faults[0];
      var rest := if faults == [] then [] else faults[1..];
      if fault.RequestLost? then
        var c := Complete(s.auth, call, Fail(fault.errorCode));
        World(c.auth, held, s.emitted + c.emitted, c.reply)
      else
        var ap := Apply(held, call);
        var c := Complete(s.auth, call, if fault.ReplyLost? then Fail(fault.errorCode) else ap.outcome);
        match ap.change
        case None => World(c.auth, ap.value, s.emitted + c.emitted, c.reply)
        case Some(ev) =>
          var h := OnChange(c.auth, ev);
          var w := Run(Step(h.auth, s.emitted + c.emitted + h.emitted, h.next), ap.value, rest);
          w.(reply := c.reply)
  }

  /** A public operation run to quiescence. */
  function RunOp(a: Authority, held: Option<Token>, op: Op, faults: seq<Fault>): World {
    Run(Begin(a, op), held, faults)
  }

  /** An external write, its watch event delivered, and whatever that starts. */
  function RunExternal(a: Authority, held: Option<Token>, ext: External, faults: seq<Fault>): World {
    var ap := ApplyExternal(held, ext);
    match ap.change
    case None => World(a, ap.value, [], Returned(Unit))
    case Some(ev) => Run(OnChange(a, ev), ap.value, faults)
  }

  /** The handler leaves the flag agreeing with the value the event reports. */
  lemma OnChangeCoherent(a: Authority, ev: WatchEvent)
    ensures StepCoherent(OnChange(a, ev), ev.value)
  {
  }

  lemma {:induction false} RunKeepsCoherence(s: Step, held: Option<Token>, faults: seq<Fault>)
    requires StepCoherent(s, held)
    ensures Coherent(Run(s, held, faults).auth, Run(s, held, faults).held)
    decreases Rank(s.next)
  {
    match s.next
    case Settled(_) =>
    case Awaiting(call) =>
      var fault := if faults == [] then Delivered else faults[0];
      var rest := if faults == [] then [] else faults[1..];
      if !fault.RequestLost? {
        var ap := Apply(held, call);
        var c := Complete(s.auth, call, if fault.ReplyLost? then Fail(fault.errorCode) else ap.outcome);
        match ap.change
        case None =>
        case Some(ev) =>
          var h := OnChange(c.auth, ev);
          OnChangeCoherent(c.auth, ev);
          RunKeepsCoherence(Step(h.auth, s.emitted + c.emitted + h.emitted, h.next), ap.value, rest);
      }
  }

  /** `ready()`, `release()` and `extend()` keep `$locked` in agreement with the store. */
  lemma OperationsKeepCoherence(a: Authority, held: Option<Token>, op: Op, faults: seq<Fault>)
    requires Coherent(a, held)
    ensures Coherent(RunOp(a, held, op, faults).auth, RunOp(a, held, op, faults).held)
  {
    RunKeepsCoherence(Begin(a, op), held, faults);
  }

  /** So do writes by others, deletes and expiry, once their watch events are
      delivered. */
  lemma ExternalKeepsCoherence(a: Authority, held: Option<Token>, ext: External, faults: seq<Fault>)
    requires Coherent(a, held)
    ensures Coherent(RunExternal(a, held, ext, faults).auth, RunExternal(a, held, ext, faults).held)
  {
    var ap := ApplyExternal(held, ext);
    match ap.change
    case None =>
    case Some(ev) =>
      OnChangeCoherent(a, ev);
      RunKeepsCoherence(OnChange(a, ev), ap.value, faults);
  }

  /** One input to a running instance: a public call, or someone else's write. */
  datatype Input = Call(op: Op, faults: seq<Fault>) | Write(ext: External, faults: seq<Fault>)

  function Perform(w: World, input: Input): World {
    match input
    case Call(op, faults) => RunOp(w.auth, w.held, op, faults)
    case Write(ext, faults) => RunExternal(w.auth, w.held, ext, faults)
  }

  /** The worlds after each input in turn; `r[0]` is the start. */
  function Trace(w: World, inputs: seq<Input>): (r: seq<World>)
    ensures |r| == |inputs| + 1 && r[0] == w
    ensures forall i :: 0 <= i < |inputs| ==> r[i + 1] == Perform(r[i], inputs[i])
    decreases |inputs|
  {
    if inputs == [] then [w]
    else [w] + Trace(Perform(w, inputs[0]), inputs[1..])
  }

  /** Along any sequence of calls and outside writes, each run to quiescence
      with its watch events delivered before the next input, `$locked` agrees
      with the store after every step, and the instance's key, id and ttl never
      change. Inputs that overlap a request in flight are not covered: see
      `LateReplyAfterSteal` and `ReleaseDuringAttempt`. */
  lemma {:induction false} TraceKeepsCoherence(w: World, inputs: seq<Input>)
    requires Coherent(w.auth, w.held)
    ensures forall i :: 0 <= i < |Trace(w, inputs)| ==>
              Coherent(Trace(w, inputs)[i].auth, Trace(w, inputs)[i].held)
              && SameLock(w.auth, Trace(w, inputs)[i].auth)
    decreases |inputs|
  {
    if inputs != [] {
      var next := Perform(w, inputs[0]);
      match inputs[0] {
        case Call(op, faults) =>
          OperationsKeepCoherence(w.auth, w.held, op, faults);
        case Write(ext, faults) =>
          ExternalKeepsCoherence(w.auth, w.held, ext, faults);
      }
      TraceKeepsCoherence(next, inputs[1..]);
      var t := Trace(w, inputs);
      assert t == [w] + Trace(next, inputs[1..]);
      forall i | 0 <= i < |t|
        ensures Coherent(t[i].auth, t[i].held) && SameLock(w.auth, t[i].auth)
      {
        if i > 0 {
          assert t[i] == Trace(next, inputs[1..])[i - 1];
        }
      }
    }
  }

  /** With the watcher stopped, a forced delete goes unseen: `$locked` stays
      set although the store is empty, and `extend()` only reports the failed
      guard. */
  lemma MissedDeleteLeavesStaleLock(a: Authority)
    requires a.ready && a.locked
    ensures var w := RunOp(a, ApplyExternal(Some(a.id), ForcedDelete).value, ExtendOp, []);
            && !Coherent(w.auth, w.held)
            && w.auth == a
            && w.reply == Raised(KeyNotFound)
  {
  }

  /** `Trace` runs each input to quiescence; the code does not. An outside set
      that lands while the create is in flight is reported and clears
      `$locked`, but the create's late success reply sets it again without
      looking: the instance announces `acquired` for a key someone else holds. */
  lemma LateReplyAfterSteal(a: Authority, v: Token)
    requires !a.locked && v != a.id
    ensures var s := Authoritah.Begin(a, ReadyOp);
            var created := Apply(None, s.next.call);
            var stolen := ApplyExternal(created.value, ForeignSet(v));
            var h1 := OnChange(s.auth, created.change.value);
            var h2 := OnChange(h1.auth, stolen.change.value);
            var c := AttemptLockDone(h2.auth, created.outcome);
            && stolen.value == Some(v)
            && !h2.auth.locked
            && c.auth.locked && c.emitted == [Acquired]
            && !Coherent(c.auth, stolen.value)
  {
  }

  /** The same holds for the delete reply. A held, ready instance calls
      `release()` and then `ready()`. The delete lands; its event reports
      `lost` and, the instance being ready again, starts an attempt, which
      acquires. When the delete's success reply finally arrives it clears
      `$locked` without looking, while the store holds the own id. */
  lemma LateDeleteReply(a: Authority)
    requires a.ready && a.locked
    ensures var r := Release(a);
            var s := Authoritah.Begin(r.auth, ReadyOp);
            var deleted := Apply(Some(a.id), r.next.call);
            var h1 := OnChange(s.auth, deleted.change.value);
            var created := Apply(deleted.value, h1.next.call);
            var h2 := OnChange(h1.auth, created.change.value);
            var c1 := AttemptLockDone(h2.auth, created.outcome);
            var c2 := ReleaseDone(c1.auth, deleted.outcome);
            && h1.emitted == [Lost(false)]
            && c1.emitted == [Acquired] && c1.auth.locked
            && created.value == Some(a.id)
            && c2.auth.ready && !c2.auth.locked
            && !Coherent(c2.auth, created.value)
  {
  }

  /** A `release()` called while the create of `ready()` is in flight finds
      `$locked` unset and settles at once; the create then succeeds, and the
      instance holds the key while no longer ready, until the TTL runs out. */
  lemma ReleaseDuringAttempt(a: Authority)
    requires !a.locked
    ensures var s := Authoritah.Begin(a, ReadyOp);
            var r := Release(s.auth);
            var created := Apply(None, s.next.call);
            var c := AttemptLockDone(r.auth, created.outcome);
            var h := OnChange(c.auth, created.change.value);
            && r.next == Resolved
            && created.value == Some(a.id)
            && h.auth.locked && !h.auth.ready
            && h.emitted == [] && h.next == Resolved
  {
  }

  /** Delivery to two instances is not simultaneous: after the holder's lease
      expires, a ready contender that sees the event first acquires while the
      old holder, not yet notified, still has `$locked` set. The window closes
      when the event reaches the holder: it reports `lost{expired}` and clears
      its flags, leaving the contender's lease alone. */
  lemma DelayedDeliveryTwoLocked(holder: Authority, contender: Authority)
    requires holder.key == contender.key && holder.id != contender.id
    requires holder.locked && contender.ready && !contender.locked
    ensures var ap := ApplyExternal(Some(holder.id), Expiry);
            var w := Run(OnChange(contender, ap.change.value), ap.value, []);
            var late := Run(OnChange(holder, ap.change.value), w.held, []);
            && w.auth.locked && w.held == Some(contender.id)
            && late.emitted == [Lost(true)]
            && !late.auth.locked && !late.auth.ready
            && late.held == Some(contender.id)
  {
  }
}
