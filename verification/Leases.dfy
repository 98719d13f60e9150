/** Lock leases on one replica: entries are applied one after the other at times that never go back. */
module Leases {
  import opened Types
  import opened StateMachine

  /** An applied entry with the time at which it was applied. */
  datatype Event = Event(op: Op, now: nat)

  /** The key is used for locking only: no entry writes or deletes it directly. */
  ghost predicate LockKey(events: seq<Event>, key: string) {
    forall i: nat | i < |events| :: !Overwrites(events[i].op, key)
  }

  predicate Overwrites(op: Op, key: string) { (op.Write? || op.Delete?) && op.key == key }

  ghost predicate ClockRises(events: seq<Event>) {
    forall i: nat, j: nat | i <= j < |events| :: events[i].now <= events[j].now
  }

  /** The store after the first n events; it starts empty. */
  function After(events: seq<Event>, n: nat): Kv
    requires n <= |events|
  {
    if n == 0 then map[] else ApplyOp(After(events, n - 1), events[n - 1].op, events[n - 1].now)
  }

  /** Event i gives the lock `key` to its holder. */
  ghost predicate Grants(events: seq<Event>, i: nat, key: string) {
    && i < |events| && events[i].op.TryLock? && events[i].op.key == key
    && var kv := After(events, i);
       key !in kv || AsLock(kv[key]).1 < events[i].now
  }

  /** Event u is the holder's unlock, within the lease, of the lock granted by event i. */
  ghost predicate Releases(events: seq<Event>, i: nat, u: nat, key: string) {
    && i < u < |events| && events[i].op.TryLock? && events[u].op == UnLock(key, events[i].op.holder)
    && events[u].now <= events[i].op.leaseEnd
  }

  ghost predicate Released(events: seq<Event>, i: nat, n: nat, key: string) {
    exists u: nat :: u < n && Releases(events, i, u, key)
  }

  /** No other grant of this lock between events i and n. */
  ghost predicate NoGrantBetween(events: seq<Event>, i: nat, n: nat, key: string) {
    forall j: nat | i < j < n :: !Grants(events, j, key)
  }

  /** The stored holder changes only when the holder unlocks within its lease or another is granted the
      lock strictly after the lease has ended: until then the store keeps the grant. */
  lemma {:induction false} GrantStays(events: seq<Event>, i: nat, n: nat, key: string)
    requires LockKey(events, key) && i < n <= |events| && Grants(events, i, key) && NoGrantBetween(events, i, n, key)
    requires !Released(events, i, n, key)
    ensures key in After(events, n) && After(events, n)[key] == Locked(events[i].op.holder, events[i].op.leaseEnd)
    decreases n
  {
    if n > i + 1 {
      GrantStays(events, i, n - 1, key);
      assert !Grants(events, n - 1, key) && !Releases(events, i, n - 1, key);
      assert !Overwrites(events[n - 1].op, key);
    }
  }

  /** Between two grants of a lock, the first either ended with its lease, strictly before the second,
      or was released by its own holder within the lease. */
  lemma {:induction false} GrantsApart(events: seq<Event>, i: nat, j: nat, key: string)
    requires LockKey(events, key) && ClockRises(events) && i < j && Grants(events, i, key) && Grants(events, j, key)
    ensures events[i].op.leaseEnd < events[j].now || Released(events, i, j, key)
    decreases j - i
  {
    if NoGrantBetween(events, i, j, key) {
      if !Released(events, i, j, key) { GrantStays(events, i, j, key); }
    } else {
      var m: nat :| i < m < j && Grants(events, m, key);
      GrantsApart(events, i, m, key);
      if Released(events, i, m, key) {
        var u: nat :| u < m && Releases(events, i, u, key);
        assert Released(events, i, j, key);
      }
    }
  }

  /** When the holder's possession ends: at its first release, or else with its lease. */
  ghost function PossessionEnd(events: seq<Event>, i: nat, n: nat, key: string): nat
    requires i < |events| && events[i].op.TryLock? && n <= |events|
    decreases n
  {
    if n <= i then events[i].op.leaseEnd
    else if Releases(events, i, n - 1, key) then Min(events[n - 1].now, PossessionEnd(events, i, n - 1, key))
    else PossessionEnd(events, i, n - 1, key)
  }

  lemma {:induction false} PossessionBounds(events: seq<Event>, i: nat, n: nat, key: string, u: nat)
    requires i < |events| && events[i].op.TryLock? && n <= |events|
    ensures PossessionEnd(events, i, n, key) <= events[i].op.leaseEnd
    ensures u < n && Releases(events, i, u, key) ==> PossessionEnd(events, i, n, key) <= events[u].now
    decreases n
  {
    if n > i { PossessionBounds(events, i, n - 1, key, u); }
  }

  /** Leases never overlap: the possession of an earlier grant has ended when the lock is granted again. */
  lemma PossessionsDisjoint(events: seq<Event>, i: nat, j: nat, key: string)
    requires LockKey(events, key) && ClockRises(events) && i < j && Grants(events, i, key) && Grants(events, j, key)
    ensures PossessionEnd(events, i, |events|, key) <= events[j].now
  {
    GrantsApart(events, i, j, key);
    PossessionBounds(events, i, |events|, key, i);
    if Released(events, i, j, key) {
      var u: nat :| u < j && Releases(events, i, u, key);
      PossessionBounds(events, i, |events|, key, u);
      assert events[u].now <= events[j].now;
    }
  }

  /** Whatever is stored under a key was put there by a grant that nothing has ended. */
  lemma {:induction false} HolderWasGranted(events: seq<Event>, n: nat, key: string) returns (i: nat)
    requires LockKey(events, key) && n <= |events| && key in After(events, n)
    ensures i < n && Grants(events, i, key) && NoGrantBetween(events, i, n, key) && !Released(events, i, n, key)
    ensures After(events, n)[key] == Locked(events[i].op.holder, events[i].op.leaseEnd)
    decreases n
  {
    if Grants(events, n - 1, key) {
      i := n - 1;
    } else {
      assert !Overwrites(events[n - 1].op, key);
      i := HolderWasGranted(events, n - 1, key);
      assert !Releases(events, i, n - 1, key);
    }
  }
}
