/**
 End-to-end runs of the situations the repository's tests exercise, each for
 every instance in the stated starting state. The store is one key; when two
 instances share it, the delete or expire event the store reports is handed
 to the other instance explicitly. The `create` events of one instance's
 acquisition are not handed to the other: the handler ignores `create` apart
 from setting `$locked` to false for any other id, which changes no outcome
 here.
 */
module Scenarios {
  import opened Wrappers
  import opened Etcd
  import opened Authoritah
  import opened System

  /** Two fresh instances on one key: the first acquires, the second is told
      the lock is taken and resolves `false`. */
  lemma Contention(a: Authority, b: Authority)
    requires a.key == b.key && a.id != b.id
    requires !a.ready && !a.locked && !b.ready && !b.locked
    ensures var wa := RunOp(a, None, ReadyOp, []);
            var wb := RunOp(b, wa.held, ReadyOp, []);
            && wa.reply == Returned(Flag(true))
            && wa.emitted == [Event.Ready, Acquired]
            && wa.auth.locked && wa.held == Some(a.id)
            && wb.reply == Returned(Flag(false))
            && wb.emitted == [Event.Ready, Taken]
            && !wb.auth.locked && wb.auth.ready && wb.held == Some(a.id)
  {
  }

  /** A holder whose lease expires reports `lost` marked as expired, stops
      being ready, and makes no further attempt. */
  lemma ExpiryIsLost(a: Authority)
    requires a.ready && a.locked
    ensures var w := RunExternal(a, Some(a.id), Expiry, []);
            && w.emitted == [Lost(true)]
            && !w.auth.ready && !w.auth.locked
            && w.held == None
  {
  }

  /** After its lease expired, `extend()` starts over as `ready()` and acquires. */
  lemma ExtendAfterExpiryReacquires(a: Authority)
    requires a.ready && a.locked
    ensures var lost := RunExternal(a, Some(a.id), Expiry, []);
            var w := RunOp(lost.auth, lost.held, ExtendOp, []);
            && w.emitted == [Event.Ready, Acquired]
            && w.auth.ready && w.auth.locked
            && w.held == Some(a.id)
            && w.reply == Returned(Flag(true))
  {
  }

  /** A forced delete of a held lock while ready: `lost`, then `acquired` again
      without a new `ready()`. */
  lemma ForcedDeleteReacquires(a: Authority)
    requires a.ready && a.locked
    ensures var w := RunExternal(a, Some(a.id), ForcedDelete, []);
            && w.emitted == [Lost(false), Acquired]
            && w.auth.ready && w.auth.locked
            && w.held == Some(a.id)
  {
  }

  /** The holder releases; its own watcher reports the compare-and-delete as
      `lost`, and a waiting contender that sees it acquires. */
  lemma ReleaseHandsOver(a: Authority, b: Authority)
    requires a.key == b.key && a.id != b.id
    requires a.ready && a.locked && b.ready && !b.locked
    ensures var wa := RunOp(a, Some(a.id), ReleaseOp, []);
            var ev := Apply(Some(a.id), DeleteCall(a)).change.value;
            var wb := Run(OnChange(b, ev), wa.held, []);
            && wa.held == None
            && !wa.auth.ready && !wa.auth.locked
            && wa.emitted == [Lost(false)]
            && wa.reply == Returned(Unit)
            && wb.emitted == [Acquired]
            && wb.auth.locked && wb.held == Some(b.id)
  {
  }

  /** The holder's lease times out: it reports `lost`, and a ready contender
      reports `expired` and then `acquired`. */
  lemma ExpiryHandsOver(a: Authority, b: Authority)
    requires a.key == b.key && a.id != b.id
    requires a.ready && a.locked && b.ready && !b.locked
    ensures var wa := RunExternal(a, Some(a.id), Expiry, []);
            var ev := ApplyExternal(Some(a.id), Expiry).change.value;
            var wb := Run(OnChange(b, ev), wa.held, []);
            && wa.emitted == [Lost(true)]
            && wb.emitted == [Expired, Acquired]
            && wb.auth.locked && wb.held == Some(b.id)
  {
  }

  /** Releasing an instance that never acquired sends nothing and settles at once. */
  lemma ReleaseWithoutLock(a: Authority, held: Option<Token>)
    requires !a.locked
    ensures var w := RunOp(a, held, ReleaseOp, []);
            && w.held == held && w.emitted == [] && w.reply == Returned(Unit)
            && !w.auth.ready && !w.auth.locked
  {
  }

  /** A plain set by someone else over a held lock (test.js calls this a
      stolen key) clears `$locked` but emits nothing and makes no attempt:
      the handler has no case for `set`. */
  lemma StealIsSilent(a: Authority, v: Token)
    requires a.locked && v != a.id
    ensures var w := RunExternal(a, Some(a.id), ForeignSet(v), []);
            && w.emitted == []
            && !w.auth.locked && w.auth.ready == a.ready
            && w.held == Some(v)
  {
  }

  /** The create reaches an empty key but its reply is lost: `ready()` rejects,
      yet the instance's own watch event leaves it holding the lock. */
  lemma ReadyReplyLost(a: Authority, code: int)
    requires !a.locked
    ensures var w := RunOp(a, None, ReadyOp, [ReplyLost(code)]);
            && (code != NodeExist ==> w.reply == Raised(code) && w.emitted == [Event.Ready])
            && (code == NodeExist ==> w.reply == Returned(Flag(false)) && w.emitted == [Event.Ready, Taken])
            && w.auth.locked && w.auth.ready
            && w.held == Some(a.id)
  {
  }
}
