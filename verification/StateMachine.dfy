/** The state machine behind the log: what applying an entry does to the key-value store. */
module StateMachine {
  import opened Types

  /** A value of the store.  Locks live in the same store as plain values. */
  datatype Cell = Plain(value: string) | Locked(holder: string, leaseEnd: nat)

  type Kv = map<string, Cell>

  /** The store that the apply thread writes. */
  class Table {
    var kv: Kv

    constructor ()
      ensures kv == map[]
    {
      kv := map[];
    }
  }

  /** A stored value read as a lock.  A value that is not a lock reads as an empty one. */
  function AsLock(c: Cell): (string, nat) {
    match c
    case Plain(_) => ("", 0)
    case Locked(holder, leaseEnd) => (holder, leaseEnd)
  }

  /** The store after one entry, at time `now`.  Membership entries do not touch plain keys. */
  function ApplyOp(kv: Kv, op: Op, now: nat): Kv {
    match op
    case Write(key, value) => kv[key := Plain(value)]
    case Delete(key) => kv - {key}
    case TryLock(key, holder, leaseEnd) =>
      if key !in kv || AsLock(kv[key]).1 < now then kv[key := Locked(holder, leaseEnd)] else kv
    case UnLock(key, holder) =>
      if key in kv && AsLock(kv[key]).0 == holder && now <= AsLock(kv[key]).1 then kv - {key} else kv
    case _ => kv
  }

  predicate IsKv(op: Op) { op.Write? || op.Delete? || op.Read? }

  predicate AllKv(ops: seq<Op>) { forall i: nat | i < |ops| :: IsKv(ops[i]) }

  /** The store after a sequence of key-value entries, for which time does not matter. */
  function ApplyAll(kv: Kv, ops: seq<Op>): Kv {
    if ops == [] then kv else ApplyOp(ApplyAll(kv, ops[..|ops| - 1]), ops[|ops| - 1], 0)
  }

  /** The store after the entries of a log at the indices first + 1 to last, each at its own time. */
  function ApplyRange(kv: Kv, log: Log, first: nat, last: nat, clock: nat -> nat): Kv
    requires last <= |log|
    decreases last
  {
    if last <= first then kv else ApplyOp(ApplyRange(kv, log, first, last - 1, clock), log[last - 1].op, clock(last))
  }

  lemma RangeEmpty(kv: Kv, log: Log, first: nat, last: nat, clock: nat -> nat)
    requires last <= |log| && last <= first
    ensures ApplyRange(kv, log, first, last, clock) == kv
  {
  }

  lemma RangeStep(kv: Kv, log: Log, first: nat, last: nat, clock: nat -> nat)
    requires first < last <= |log|
    ensures ApplyRange(kv, log, first, last, clock) == ApplyOp(ApplyRange(kv, log, first, last - 1, clock), log[last - 1].op, clock(last))
  {
  }

  function Ops(log: Log): seq<Op> { seq(|log|, i requires 0 <= i < |log| => log[i].op) }

  lemma {:induction false} RangeIsAll(kv: Kv, log: Log, first: nat, last: nat, clock: nat -> nat)
    requires first <= last <= |log| && AllKv(Ops(log[first..last]))
    ensures ApplyRange(kv, log, first, last, clock) == ApplyAll(kv, Ops(log[first..last]))
    decreases last
  {
    if first < last {
      var ops := Ops(log[first..last]);
      var front := Ops(log[first..last - 1]);
      assert ops[..|ops| - 1] == front;
      forall i: nat | i < |front| ensures IsKv(front[i]) { assert front[i] == ops[i]; }
      RangeIsAll(kv, log, first, last - 1, clock);
      assert IsKv(ops[|ops| - 1]);
    }
  }

  // ---------------------------------------------------------------- replay

  /** The value of a key as the entries leave it, or None where no entry touches the key. */
  function LastTouch(ops: seq<Op>, key: string): Option<Option<Cell>> {
    if ops == [] then None
    else
      match ops[|ops| - 1]
      case Write(k, v) => if k == key then Some(Some(Plain(v))) else LastTouch(ops[..|ops| - 1], key)
      case Delete(k) => if k == key then Some(None) else LastTouch(ops[..|ops| - 1], key)
      case _ => LastTouch(ops[..|ops| - 1], key)
  }

  function Lookup(kv: Kv, key: string): Option<Cell> { if key in kv then Some(kv[key]) else None }

  /** A key holds what the last entry that touches it says, and otherwise what it held before. */
  lemma {:induction false} LastTouchWins(kv: Kv, ops: seq<Op>, key: string)
    requires AllKv(ops)
    ensures Lookup(ApplyAll(kv, ops), key) == match LastTouch(ops, key) case Some(c) => c case None => Lookup(kv, key)
  {
    if ops != [] {
      assert IsKv(ops[|ops| - 1]);
      LastTouchWins(kv, ops[..|ops| - 1], key);
    }
  }

  lemma {:induction false} TouchedByMore(ops: seq<Op>, more: seq<Op>, key: string)
    requires LastTouch(ops, key).Some?
    ensures LastTouch(ops + more, key).Some?
    decreases |more|
  {
    if more == [] {
      assert ops + more == ops;
    } else {
      TouchedByMore(ops, more[..|more| - 1], key);
      assert (ops + more)[..|ops + more| - 1] == ops + more[..|more| - 1];
    }
  }

  /** Tries that stop early, each after some prefix of the batch. */
  function ApplyTries(kv: Kv, ops: seq<Op>, tries: seq<nat>): Kv
    requires forall i: nat | i < |tries| :: tries[i] <= |ops|
  {
    if tries == [] then kv
    else ApplyAll(ApplyTries(kv, ops, tries[..|tries| - 1]), ops[..tries[|tries| - 1]])
  }

  /** Tries change only keys that the batch touches. */
  lemma {:induction false} TriesKeepOthers(kv: Kv, ops: seq<Op>, tries: seq<nat>, key: string)
    requires AllKv(ops) && forall i: nat | i < |tries| :: tries[i] <= |ops|
    requires LastTouch(ops, key).None?
    ensures Lookup(ApplyTries(kv, ops, tries), key) == Lookup(kv, key)
    decreases |tries|
  {
    if tries != [] {
      var front, n := tries[..|tries| - 1], tries[|tries| - 1];
      TriesKeepOthers(kv, ops, front, key);
      LastTouchWins(ApplyTries(kv, ops, front), ops[..n], key);
      assert ops[..n] + ops[n..] == ops;
      if LastTouch(ops[..n], key).Some? { TouchedByMore(ops[..n], ops[n..], key); }
    }
  }

  /** Replay is harmless for key-value entries: after any number of tries that stopped early, applying
      the whole batch gives the same store as applying it once. */
  lemma ReplayIsHarmless(kv: Kv, ops: seq<Op>, tries: seq<nat>)
    requires AllKv(ops) && forall i: nat | i < |tries| :: tries[i] <= |ops|
    ensures ApplyAll(ApplyTries(kv, ops, tries), ops) == ApplyAll(kv, ops)
  {
    var tried := ApplyTries(kv, ops, tries);
    forall key ensures Lookup(ApplyAll(tried, ops), key) == Lookup(ApplyAll(kv, ops), key) {
      LastTouchWins(tried, ops, key);
      LastTouchWins(kv, ops, key);
      if LastTouch(ops, key).None? { TriesKeepOthers(kv, ops, tries, key); }
    }
    SameLookup(ApplyAll(tried, ops), ApplyAll(kv, ops));
  }

  lemma SameLookup(a: Kv, b: Kv)
    requires forall key :: Lookup(a, key) == Lookup(b, key)
    ensures a == b
  {
    forall key ensures key in a <==> key in b { assert Lookup(a, key) == Lookup(b, key); }
    forall key | key in a ensures a[key] == b[key] { assert Lookup(a, key) == Lookup(b, key); }
  }

  /** Locks are not covered: h1 holds the lock; h2 tries and is refused, then h1 unlocks.  A replay of
      the two entries gives the lock to h2. */
  lemma LockReplayDiffers(now: nat)
    ensures var kv := map["l" := Locked("h1", now)];
      var once := ApplyOp(ApplyOp(kv, TryLock("l", "h2", now + 1), now), UnLock("l", "h1"), now);
      var twice := ApplyOp(ApplyOp(once, TryLock("l", "h2", now + 1), now), UnLock("l", "h1"), now);
      once == map[] && twice == map["l" := Locked("h2", now + 1)]
  {
  }
}
