/** Replay of batches that also hold lock entries, where time matters.  A try applies some prefix of the
    batch at one instant and stops; the last try applies the whole batch while the clock goes on. */
module Replay {
  import opened Types
  import opened StateMachine

  /** The store after a batch whose i-th entry, counted from 1, is applied at time clock(i). */
  function ApplyAt(kv: Kv, ops: seq<Op>, clock: nat -> nat): Kv {
    if ops == [] then kv else ApplyOp(ApplyAt(kv, ops[..|ops| - 1], clock), ops[|ops| - 1], clock(|ops|))
  }

  // ---------------------------------------------------------------- one key

  /** What an entry does to one key. */
  function CellStep(c: Option<Cell>, op: Op, key: string, now: nat): Option<Cell> {
    match op
    case Write(k, value) => if k == key then Some(Plain(value)) else c
    case Delete(k) => if k == key then None else c
    case TryLock(k, holder, leaseEnd) => if k == key && Free(c, now) then Some(Locked(holder, leaseEnd)) else c
    case UnLock(k, holder) =>
      if k == key && c.Some? && AsLock(c.value).0 == holder && now <= AsLock(c.value).1 then None else c
    case _ => c
  }

  predicate Free(c: Option<Cell>, now: nat) { c.None? || AsLock(c.value).1 < now }

  function CellRun(c: Option<Cell>, ops: seq<Op>, key: string, clock: nat -> nat): Option<Cell> {
    if ops == [] then c else CellStep(CellRun(c, ops[..|ops| - 1], key, clock), ops[|ops| - 1], key, clock(|ops|))
  }

  lemma {:induction false} OneKey(kv: Kv, ops: seq<Op>, key: string, clock: nat -> nat)
    ensures Lookup(ApplyAt(kv, ops, clock), key) == CellRun(Lookup(kv, key), ops, key, clock)
  {
    if ops != [] { OneKey(kv, ops[..|ops| - 1], key, clock); }
  }

  predicate Sets(op: Op, key: string) { (op.Write? || op.Delete?) && op.key == key }

  /** Some entry writes or deletes the key outright. */
  ghost predicate Overwritten(ops: seq<Op>, key: string) { exists i: nat :: i < |ops| && Sets(ops[i], key) }

  ghost predicate Unlocked(ops: seq<Op>, key: string) {
    exists i: nat :: i < |ops| && ops[i].UnLock? && ops[i].key == key
  }

  /** What a key ends up as does not depend on its past if the batch overwrites it. */
  lemma {:induction false} OverwriteDecides(c: Option<Cell>, d: Option<Cell>, ops: seq<Op>, key: string, clock: nat -> nat)
    requires Overwritten(ops, key)
    ensures CellRun(c, ops, key, clock) == CellRun(d, ops, key, clock)
  {
    var front, op := ops[..|ops| - 1], ops[|ops| - 1];
    if !Sets(op, key) {
      var i: nat :| i < |ops| && Sets(ops[i], key);
      assert Sets(front[i], key);
      OverwriteDecides(c, d, front, key, clock);
    }
  }

  lemma {:induction false} SameFrom(c: Option<Cell>, d: Option<Cell>, ops: seq<Op>, n: nat, key: string, clock: nat -> nat)
    requires n <= |ops| && CellRun(c, ops[..n], key, clock) == CellRun(d, ops[..n], key, clock)
    ensures CellRun(c, ops, key, clock) == CellRun(d, ops, key, clock)
    decreases |ops|
  {
    if n == |ops| {
      assert ops[..n] == ops;
    } else {
      assert ops[..|ops| - 1][..n] == ops[..n];
      SameFrom(c, d, ops[..|ops| - 1], n, key, clock);
    }
  }

  /** Only locking happens to the key. */
  ghost predicate OnlyTried(ops: seq<Op>, key: string) {
    forall i: nat | i < |ops| :: !Sets(ops[i], key) && !(ops[i].UnLock? && ops[i].key == key)
  }

  /** At one instant a lock that is taken stays taken. */
  lemma {:induction false} TakenStays(c: Option<Cell>, ops: seq<Op>, j: nat, n: nat, key: string, at: nat)
    requires OnlyTried(ops, key) && j <= n <= |ops| && !Free(CellRun(c, ops[..j], key, _ => at), at)
    ensures CellRun(c, ops[..n], key, _ => at) == CellRun(c, ops[..j], key, _ => at)
    decreases n
  {
    if j < n {
      TakenStays(c, ops, j, n - 1, key, at);
      assert ops[..n][..n - 1] == ops[..n - 1];
    }
  }

  /** Side by side after j entries of the last try: once without and once after an earlier try that ended
      in d.  They are equal, or the lock is still d in one and where the earlier try was in the other. */
  lemma {:induction false} SideBySide(c: Option<Cell>, ops: seq<Op>, n: nat, j: nat, key: string, at: nat, clock: nat -> nat)
    requires OnlyTried(ops, key) && j <= n <= |ops| && (forall i :: at <= clock(i))
    ensures var d := CellRun(c, ops[..n], key, _ => at);
      var x, y := CellRun(d, ops[..j], key, clock), CellRun(c, ops[..j], key, clock);
      x == y || (x == d && y == CellRun(c, ops[..j], key, _ => at))
    decreases j
  {
    if j > 0 {
      SideBySide(c, ops, n, j - 1, key, at, clock);
      assert ops[..j][..j - 1] == ops[..j - 1];
      assert !Sets(ops[j - 1], key) && at <= clock(j);
      if !Free(CellRun(c, ops[..j - 1], key, _ => at), at) { TakenStays(c, ops, j - 1, n, key, at); }
    }
  }

  lemma TryIsHarmlessForKey(c: Option<Cell>, ops: seq<Op>, n: nat, key: string, at: nat, clock: nat -> nat)
    requires n <= |ops| && (forall i :: at <= clock(i)) && (Overwritten(ops, key) || !Unlocked(ops, key))
    ensures CellRun(CellRun(c, ops[..n], key, _ => at), ops, key, clock) == CellRun(c, ops, key, clock)
  {
    var d := CellRun(c, ops[..n], key, _ => at);
    if Overwritten(ops, key) {
      OverwriteDecides(c, d, ops, key, clock);
    } else {
      assert OnlyTried(ops, key);
      SideBySide(c, ops, n, n, key, at, clock);
      SameFrom(c, d, ops, n, key, clock);
    }
  }

  // ---------------------------------------------------------------- the batch

  /** A try: how many entries it applied, and when. */
  datatype Try = Try(count: nat, at: nat)

  function ApplyTries(kv: Kv, ops: seq<Op>, tries: seq<Try>): Kv
    requires forall i: nat | i < |tries| :: tries[i].count <= |ops|
  {
    if tries == [] then kv
    else
      var last := tries[|tries| - 1];
      ApplyAt(ApplyTries(kv, ops, tries[..|tries| - 1]), ops[..last.count], _ => last.at)
  }

  /** Replay is harmless for batches of any entries in which every key that is unlocked is also written or
      deleted: any number of tries, each at an instant before the last one, change nothing. */
  lemma {:induction false} ReplayWithLocks(kv: Kv, ops: seq<Op>, tries: seq<Try>, clock: nat -> nat)
    requires forall i: nat | i < |tries| :: tries[i].count <= |ops| && forall j :: tries[i].at <= clock(j)
    requires forall key :: Overwritten(ops, key) || !Unlocked(ops, key)
    ensures ApplyAt(ApplyTries(kv, ops, tries), ops, clock) == ApplyAt(kv, ops, clock)
    decreases |tries|
  {
    if tries != [] {
      var front, last := tries[..|tries| - 1], tries[|tries| - 1];
      var before := ApplyTries(kv, ops, front);
      var after := ApplyAt(before, ops[..last.count], _ => last.at);
      forall key ensures Lookup(ApplyAt(after, ops, clock), key) == Lookup(ApplyAt(before, ops, clock), key) {
        OneKey(before, ops[..last.count], key, _ => last.at);
        OneKey(after, ops, key, clock);
        OneKey(before, ops, key, clock);
        TryIsHarmlessForKey(Lookup(before, key), ops, last.count, key, last.at, clock);
      }
      SameLookup(ApplyAt(after, ops, clock), ApplyAt(before, ops, clock));
      ReplayWithLocks(kv, ops, front, clock);
    }
  }

  /** One instant per try is needed: when h0's lease ends between the two entries of a try, the second
      of them is granted, and stays; without that try the first is granted. */
  lemma TimePassesInATry(now: nat)
    ensures var kv := map["l" := Locked("h0", now)];
      var a, b := TryLock("l", "h1", now + 9), TryLock("l", "h2", now + 9);
      var tried := ApplyOp(ApplyOp(kv, a, now), b, now + 1);
      var late := now + 2;
      && ApplyOp(ApplyOp(tried, a, late), b, late) == map["l" := Locked("h2", now + 9)]
      && ApplyOp(ApplyOp(kv, a, late), b, late) == map["l" := Locked("h1", now + 9)]
  {
  }
}
