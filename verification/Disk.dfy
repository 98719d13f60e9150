/** The log store on values: log and meta entries in one ordered key-value map, what each operation of
    the log and of the meta data does to it, and what a restart reads back. */
module Disk {
  import opened Types
  import opened Keys

  /** What a key stands for; serialisation is taken as the identity. */
  datatype Value = LogEntry(entry: Entry) | Word(number: nat) | Port(port: int) | Text(text: string)

  type Db = map<Key, Value>

  /** The keys outside the meta data are exactly those of the indices 1 to n. */
  ghost predicate Layout(kv: Db, n: nat) {
    && n < INDEX_BOUND
    && (forall k | k in kv && k !in META_KEYS :: k in IndexKeySet(n))
    && (forall i: nat | 1 <= i <= n :: IndexKey(i) in kv && kv[IndexKey(i)].LogEntry?)
  }

  /** The log that the store holds. */
  ghost function LogOf(kv: Db, n: nat): Log
    requires Layout(kv, n)
  {
    seq(n, i requires 0 <= i < n => kv[IndexKey(i + 1)].entry)
  }

  ghost function MetaOf(kv: Db): Db { map k | k in kv && k in META_KEYS :: kv[k] }

  /** The meta keys that exist hold values of their kinds. */
  ghost predicate MetaTyped(kv: Db) {
    && (forall k | k in {LAST_APPLIED_KEY, COMMIT_INDEX_KEY, CURRENT_TERM_KEY} :: k in kv ==> kv[k].Word?)
    && (VOTED_FOR_IP_KEY in kv ==> kv[VOTED_FOR_IP_KEY].Text?)
    && (VOTED_FOR_PORT_KEY in kv ==> kv[VOTED_FOR_PORT_KEY].Port?)
  }

  /** A number among the meta data; one that is missing reads as 0. */
  ghost function WordAt(kv: Db, k: Key): nat
    requires k in kv ==> kv[k].Word?
  {
    if k in kv then kv[k].number else 0
  }

  /** The saved vote; one that is missing reads as the empty address. */
  ghost function VoteAt(kv: Db): (string, int)
    requires MetaTyped(kv)
  {
    (if VOTED_FOR_IP_KEY in kv then kv[VOTED_FOR_IP_KEY].text else "", if VOTED_FOR_PORT_KEY in kv then kv[VOTED_FOR_PORT_KEY].port else 0)
  }

  ghost predicate SameAt(kv: Db, kv': Db, k: Key) { (k in kv <==> k in kv') && (k in kv ==> kv'[k] == kv[k]) }

  lemma MetaDistinct()
    ensures forall i: nat, j: nat | i < j < 5 :: META_ORDER[i] != META_ORDER[j]
    ensures CURRENT_TERM_KEY != COMMIT_INDEX_KEY && CURRENT_TERM_KEY != LAST_APPLIED_KEY && COMMIT_INDEX_KEY != LAST_APPLIED_KEY
    ensures VOTED_FOR_IP_KEY !in {LAST_APPLIED_KEY, COMMIT_INDEX_KEY, CURRENT_TERM_KEY, VOTED_FOR_PORT_KEY}
    ensures VOTED_FOR_PORT_KEY !in {LAST_APPLIED_KEY, COMMIT_INDEX_KEY, CURRENT_TERM_KEY, VOTED_FOR_IP_KEY}
  {
    forall i: nat, j: nat | i < j < 5 ensures META_ORDER[i] != META_ORDER[j] {
      MetaSorted(i, j);
      Total(META_ORDER[i], META_ORDER[j]);
    }
    var m := META_ORDER;
    assert m[0] != m[1] && m[0] != m[2] && m[1] != m[2] && m[0] != m[3] && m[1] != m[3] && m[2] != m[3];
    assert m[0] != m[4] && m[1] != m[4] && m[2] != m[4] && m[3] != m[4];
  }

  /** Writing a value where there is none. */
  ghost function Fill(kv: Db, k: Key, v: Value): Db { if k in kv then kv else kv[k := v] }

  lemma FillSame(kv: Db, k: Key, v: Value)
    requires k in kv ==> kv[k] == v
    ensures kv[k := v] == Fill(kv, k, v)
  {
  }

  lemma FillAll(kv0: Db, kv1: Db, kv2: Db, kv3: Db, kv4: Db, kv5: Db)
    requires MetaTyped(kv0)
    requires kv1 == Fill(kv0, CURRENT_TERM_KEY, Word(0)) && kv2 == Fill(kv1, VOTED_FOR_IP_KEY, Text(""))
    requires kv3 == Fill(kv2, VOTED_FOR_PORT_KEY, Port(0)) && kv4 == Fill(kv3, COMMIT_INDEX_KEY, Word(0))
    requires kv5 == Fill(kv4, LAST_APPLIED_KEY, Word(0))
    ensures MetaTyped(kv5) && META_KEYS <= kv5.Keys
    ensures forall k | k !in META_KEYS :: SameAt(kv0, kv5, k)
    ensures META_KEYS <= kv0.Keys ==> kv5 == kv0
    ensures WordAt(kv5, CURRENT_TERM_KEY) == WordAt(kv0, CURRENT_TERM_KEY)
    ensures WordAt(kv5, COMMIT_INDEX_KEY) == WordAt(kv0, COMMIT_INDEX_KEY)
    ensures WordAt(kv5, LAST_APPLIED_KEY) == WordAt(kv0, LAST_APPLIED_KEY) && VoteAt(kv5) == VoteAt(kv0)
  {
    MetaDistinct();
  }

  lemma SameLayout(kv: Db, kv': Db, n: nat)
    requires Layout(kv, n) && forall k | k !in META_KEYS :: SameAt(kv, kv', k)
    ensures Layout(kv', n) && LogOf(kv', n) == LogOf(kv, n)
  {
    forall i: nat | 1 <= i <= n ensures SameAt(kv, kv', IndexKey(i)) { KeyNotMeta(i); }
    forall k | k in kv' && k !in META_KEYS ensures k in IndexKeySet(n) { assert SameAt(kv, kv', k); }
  }

  lemma SameMeta(kv: Db, kv': Db)
    requires MetaOf(kv') == MetaOf(kv) && MetaTyped(kv)
    ensures MetaTyped(kv') && (META_KEYS <= kv.Keys ==> META_KEYS <= kv'.Keys)
    ensures WordAt(kv', CURRENT_TERM_KEY) == WordAt(kv, CURRENT_TERM_KEY) && WordAt(kv', COMMIT_INDEX_KEY) == WordAt(kv, COMMIT_INDEX_KEY)
    ensures WordAt(kv', LAST_APPLIED_KEY) == WordAt(kv, LAST_APPLIED_KEY)
  {
    forall k | k in META_KEYS ensures SameAt(kv, kv', k) {
      assert k in MetaOf(kv) <==> k in MetaOf(kv');
      if k in kv { assert MetaOf(kv)[k] == MetaOf(kv')[k]; }
    }
  }

  lemma KeyApart(i: nat, j: nat)
    requires i < Power(8) && j < Power(8) && i != j
    ensures IndexKey(i) != IndexKey(j)
  {
    BigEndianRoundTrip(i, 8);
    BigEndianRoundTrip(j, 8);
  }

  lemma KeyNotMeta(i: nat)
    ensures IndexKey(i) !in META_KEYS
  {
  }

  // ---------------------------------------------------------------- appending

  function Put(kv: Db, n: nat, e: Entry): Db { kv[IndexKey(n + 1) := LogEntry(e)] }

  lemma PutLayout(kv: Db, n: nat, e: Entry)
    requires Layout(kv, n) && n + 1 < INDEX_BOUND
    ensures Layout(Put(kv, n, e), n + 1) && LogOf(Put(kv, n, e), n + 1) == LogOf(kv, n) + [e]
    ensures MetaOf(Put(kv, n, e)) == MetaOf(kv)
  {
    var kv' := Put(kv, n, e);
    BoundFits();
    KeyNotMeta(n + 1);
    forall i: nat | 1 <= i <= n ensures IndexKey(i) in kv' && kv'[IndexKey(i)] == kv[IndexKey(i)] { KeyApart(i, n + 1); }
    forall k | k in kv' && k !in META_KEYS ensures k in IndexKeySet(n + 1) {
      if k in kv { assert k in IndexKeySet(n); }
    }
  }

  /** The write batch for entries that follow index n. */
  function Batch(n: nat, entries: seq<Entry>): Db {
    if entries == [] then map[]
    else Put(Batch(n, entries[..|entries| - 1]), n + |entries| - 1, entries[|entries| - 1])
  }

  lemma BatchSnoc(kv: Db, n: nat, entries: seq<Entry>)
    requires entries != []
    ensures var front := entries[..|entries| - 1];
      kv + Batch(n, entries) == Put(kv + Batch(n, front), n + |front|, entries[|entries| - 1])
  {
  }

  /** Appending is concatenation, and leaves the meta data alone. */
  lemma {:induction false} AppendLayout(kv: Db, n: nat, entries: seq<Entry>)
    requires Layout(kv, n) && n + |entries| < INDEX_BOUND
    ensures Layout(kv + Batch(n, entries), n + |entries|)
    ensures LogOf(kv + Batch(n, entries), n + |entries|) == LogOf(kv, n) + entries
    ensures MetaOf(kv + Batch(n, entries)) == MetaOf(kv)
  {
    if entries == [] {
      assert kv + map[] == kv;
    } else {
      hide Layout, LogOf, MetaOf;
      var front, e := entries[..|entries| - 1], entries[|entries| - 1];
      AppendLayout(kv, n, front);
      PutLayout(kv + Batch(n, front), n + |front|, e);
      BatchSnoc(kv, n, entries);
      assert entries == front + [e];
      hide Batch, Put;
    }
  }

  // ---------------------------------------------------------------- truncation

  /** The keys of the indices from `index` to n. */
  function Suffix(index: nat, n: nat): set<Key>
    decreases n
  {
    if n < index || n == 0 then {} else Suffix(index, n - 1) + {IndexKey(n)}
  }

  lemma RemoveLayout(kv: Db, n: nat)
    requires Layout(kv, n) && n > 0
    ensures Layout(kv - {IndexKey(n)}, n - 1) && LogOf(kv - {IndexKey(n)}, n - 1) == LogOf(kv, n)[..n - 1]
    ensures MetaOf(kv - {IndexKey(n)}) == MetaOf(kv)
  {
    var kv' := kv - {IndexKey(n)};
    BoundFits();
    KeyNotMeta(n);
    forall i: nat | 1 <= i <= n - 1 ensures IndexKey(i) in kv' { KeyApart(i, n); }
    forall k | k in kv' && k !in META_KEYS ensures k in IndexKeySet(n - 1) {
      assert k in IndexKeySet(n);
      var i: nat :| 1 <= i <= n && k == IndexKey(i);
      assert i != n;
    }
  }

  /** Truncating keeps the entries before the index, and leaves the meta data alone. */
  lemma {:induction false} TruncateLayout(kv: Db, n: nat, index: nat)
    requires Layout(kv, n) && index >= 1
    ensures var m := Min(n, index - 1);
      && Layout(kv - Suffix(index, n), m) && LogOf(kv - Suffix(index, n), m) == LogOf(kv, n)[..m]
      && MetaOf(kv - Suffix(index, n)) == MetaOf(kv)
    decreases n
  {
    if n < index {
      assert kv - {} == kv;
    } else {
      assert |LogOf(kv, n)| == n;
      hide Layout, LogOf, MetaOf, IndexKey;
      RemoveLayout(kv, n);
      TruncateLayout(kv - {IndexKey(n)}, n - 1, index);
      assert kv - Suffix(index, n) == kv - {IndexKey(n)} - Suffix(index, n - 1);
      assert LogOf(kv, n)[..n - 1][..index - 1] == LogOf(kv, n)[..index - 1];
    }
  }

  /** The layout determines the last index. */
  lemma LayoutUnique(kv: Db, m: nat, n: nat)
    requires Layout(kv, m) && Layout(kv, n)
    ensures m == n
  {
    BoundFits();
    if m != n {
      var hi, lo := Max(m, n), Min(m, n);
      KeyNotMeta(hi);
      assert IndexKey(hi) in kv && IndexKey(hi) in IndexKeySet(lo);
      var i: nat :| 1 <= i <= lo && IndexKey(hi) == IndexKey(i);
      KeyApart(i, hi);
    }
  }

  // ---------------------------------------------------------------- reopening

  /** The last index that opening the store finds: from the last key five keys back.  Every key of the
      store has at least the eight bytes that are decoded. */
  function Reopened(kv: Db): nat
    requires forall k | k in kv :: |k| >= 8
  {
    match BackFrom(kv.Keys, Last(kv.Keys), 5)
    case None => 0
    case Some(k) => BackInStore(kv.Keys, Last(kv.Keys), 5); KeyIndex(k)
  }

  lemma {:induction false} BackInStore(keys: set<Key>, at: Option<Key>, steps: nat)
    requires at.Some? ==> at.value in keys
    ensures BackFrom(keys, at, steps).Some? ==> BackFrom(keys, at, steps).value in keys
    decreases steps
  {
    if steps > 0 { BackInStore(keys, Prev(keys, at), steps - 1); }
  }

  lemma KeyLengths(kv: Db, n: nat)
    requires Layout(kv, n)
    ensures forall k | k in kv :: |k| >= 8
  {
    forall k | k in kv ensures |k| >= 8 {
      if k !in META_KEYS {
        assert k in IndexKeySet(n);
        var i: nat :| 1 <= i <= n && k == IndexKey(i);
      }
    }
  }

  /** A store that holds all five meta keys gives the last index back. */
  lemma ReopenFindsLast(kv: Db, n: nat)
    requires Layout(kv, n) && META_KEYS <= kv.Keys
    ensures (forall k | k in kv :: |k| >= 8) && Reopened(kv) == n
  {
    KeyLengths(kv, n);
    forall k ensures k in kv.Keys <==> k in IndexKeySet(n) + META_KEYS {
    }
    FiveBack(kv.Keys, n);
    if n > 0 { IndexKeys(n, n); }
  }

  /** Where the iterator can end: with five keys of the store behind it. */
  lemma EndsBeforeFive(kv: Db, n: nat)
    requires Layout(kv, n)
    ensures var r := BackFrom(kv.Keys, Last(kv.Keys), 5);
      r.Some? ==> r.value in kv && |Beyond(kv.Keys, r.value)| == 5
  {
    if kv.Keys == {} {
      NoneStays({}, 5);
    } else if BackFrom(kv.Keys, Last(kv.Keys), 5).Some? {
      LastHasNoneBeyond(kv.Keys);
      BackCounts(kv.Keys, Last(kv.Keys).value, 5);
    }
  }

  lemma FewMetaKeys(kv: Db)
    requires !(META_KEYS <= kv.Keys)
    ensures |kv.Keys * META_KEYS| <= 4
  {
    MetaCount();
    var k :| k in META_KEYS && k !in kv;
    SubsetSize(kv.Keys * META_KEYS, META_KEYS - {k});
  }

  lemma MetaCount()
    ensures |META_KEYS| <= 5
  {
    var t := {LAST_APPLIED_KEY} + ({COMMIT_INDEX_KEY} + ({CURRENT_TERM_KEY} + ({VOTED_FOR_IP_KEY} + {VOTED_FOR_PORT_KEY})));
    assert META_KEYS == t;
    UnionSize({VOTED_FOR_IP_KEY}, {VOTED_FOR_PORT_KEY});
    UnionSize({CURRENT_TERM_KEY}, {VOTED_FOR_IP_KEY} + {VOTED_FOR_PORT_KEY});
    UnionSize({COMMIT_INDEX_KEY}, {CURRENT_TERM_KEY} + ({VOTED_FOR_IP_KEY} + {VOTED_FOR_PORT_KEY}));
    UnionSize({LAST_APPLIED_KEY}, {COMMIT_INDEX_KEY} + ({CURRENT_TERM_KEY} + ({VOTED_FOR_IP_KEY} + {VOTED_FOR_PORT_KEY})));
  }

  lemma UnionSize(a: set<Key>, b: set<Key>)
    ensures |a + b| <= |a| + |b|
  {
    assert |a + b| == |a| + |b| - |a * b|;
  }

  /** Behind a key that is not before the last log index there are only meta keys other than itself. */
  lemma BeyondIsMeta(kv: Db, n: nat, r: Key)
    requires Layout(kv, n) && r in kv && (n == 0 || r == IndexKey(n) || r in META_KEYS)
    ensures Beyond(kv.Keys, r) <= kv.Keys * META_KEYS - {r}
  {
    forall x | x in Beyond(kv.Keys, r) ensures x in META_KEYS && x != r {
      Total(r, r);
      if x !in META_KEYS {
        assert x in IndexKeySet(n);
        var i: nat :| 1 <= i <= n && x == IndexKey(i);
        if r in META_KEYS {
          IndexBeforeMeta(i, r);
          Total(x, r);
        } else {
          IndexKeys(n, i);
        }
      }
    }
  }

  /** Opening finds the last index exactly when the log is empty or no meta key is missing. */
  lemma ReopenExactly(kv: Db, n: nat)
    requires Layout(kv, n)
    ensures (forall k | k in kv :: |k| >= 8) && (Reopened(kv) == n <==> n == 0 || META_KEYS <= kv.Keys)
  {
    KeyLengths(kv, n);
    if META_KEYS <= kv.Keys {
      ReopenFindsLast(kv, n);
    } else {
      EndsBeforeFive(kv, n);
      FewMetaKeys(kv);
      var r := BackFrom(kv.Keys, Last(kv.Keys), 5);
      if r.Some? { EndsLower(kv, n, r.value); }
    }
  }

  /** With a meta key missing, the iterator ends before the last log index. */
  lemma EndsLower(kv: Db, n: nat, r: Key)
    requires Layout(kv, n) && r in kv && |Beyond(kv.Keys, r)| == 5 && |kv.Keys * META_KEYS| <= 4
    ensures exists i: nat :: 1 <= i < n && r == IndexKey(i) && |r| == 8 && KeyIndex(r) == i
  {
    if n == 0 || r == IndexKey(n) || r in META_KEYS {
      BeyondIsMeta(kv, n, r);
      SubsetSize(Beyond(kv.Keys, r), kv.Keys * META_KEYS);
    }
    assert r in IndexKeySet(n);
    var i: nat :| 1 <= i <= n && r == IndexKey(i);
    IndexKeys(i, i);
  }

  // ---------------------------------------------------------------- histories

  /** What can happen to an open store.  A write batch either takes effect or fails as a whole. */
  datatype DiskOp =
    | AppendOp(entries: seq<Entry>, ok: bool)
    | TruncateOp(index: nat)
    | MetaOp(key: Key, value: Value)

  predicate OpOk(op: DiskOp) {
    match op
    case AppendOp(_, _) => true
    case TruncateOp(index) => index >= 1
    case MetaOp(key, _) => key in META_KEYS
  }

  /** The store with the index of its last log entry, as kept in memory. */
  datatype DiskState = OnDisk(kv: Db, last: nat)

  function DiskStep(d: DiskState, op: DiskOp): DiskState
    requires OpOk(op)
  {
    match op
    case AppendOp(entries, ok) => if ok then OnDisk(d.kv + Batch(d.last, entries), d.last + |entries|) else d
    case TruncateOp(index) => OnDisk(d.kv - Suffix(index, d.last), Min(d.last, index - 1))
    case MetaOp(key, value) => d.(kv := d.kv[key := value])
  }

  /** The same operation on a plain sequence. */
  function LogStep(log: Log, op: DiskOp): Log
    requires OpOk(op)
  {
    match op
    case AppendOp(entries, ok) => if ok then log + entries else log
    case TruncateOp(index) => log[..Min(|log|, index - 1)]
    case MetaOp(_, _) => log
  }

  function DiskRun(d: DiskState, ops: seq<DiskOp>): DiskState
    requires forall op | op in ops :: OpOk(op)
  {
    if ops == [] then d else DiskStep(DiskRun(d, ops[..|ops| - 1]), ops[|ops| - 1])
  }

  function LogRun(log: Log, ops: seq<DiskOp>): Log
    requires forall op | op in ops :: OpOk(op)
  {
    if ops == [] then log else LogStep(LogRun(log, ops[..|ops| - 1]), ops[|ops| - 1])
  }

  /** The indices stay below the bound all along. */
  ghost predicate InBounds(log: Log, ops: seq<DiskOp>)
    requires forall op | op in ops :: OpOk(op)
  {
    forall i: nat | i <= |ops| :: |LogRun(log, ops[..i])| < INDEX_BOUND
  }

  lemma MetaLayout(kv: Db, n: nat, key: Key, value: Value)
    requires Layout(kv, n) && key in META_KEYS
    ensures Layout(kv[key := value], n) && LogOf(kv[key := value], n) == LogOf(kv, n)
  {
    var kv' := kv[key := value];
    forall i: nat | 1 <= i <= n ensures IndexKey(i) in kv' && kv'[IndexKey(i)] == kv[IndexKey(i)] { KeyNotMeta(i); }
  }

  lemma DiskStepRefines(d: DiskState, op: DiskOp)
    requires Layout(d.kv, d.last) && META_KEYS <= d.kv.Keys && OpOk(op)
    requires |LogStep(LogOf(d.kv, d.last), op)| < INDEX_BOUND
    ensures var d' := DiskStep(d, op);
      && Layout(d'.kv, d'.last) && META_KEYS <= d'.kv.Keys
      && LogOf(d'.kv, d'.last) == LogStep(LogOf(d.kv, d.last), op)
      && MetaOf(d'.kv) == if op.MetaOp? then MetaOf(d.kv)[op.key := op.value] else MetaOf(d.kv)
  {
    match op {
      case AppendOp(entries, ok) => if ok { AppendLayout(d.kv, d.last, entries); }
      case TruncateOp(index) =>
        TruncateLayout(d.kv, d.last, index);
        MetaKept(d.kv, d.kv - Suffix(index, d.last));
      case MetaOp(key, value) => MetaLayout(d.kv, d.last, key, value);
    }
  }

  lemma MetaKept(kv: Db, kv': Db)
    requires MetaOf(kv') == MetaOf(kv) && META_KEYS <= kv.Keys
    ensures META_KEYS <= kv'.Keys
  {
    forall k | k in META_KEYS ensures k in kv' { assert k in MetaOf(kv); }
  }

  /** After any history of appends, failed appends, truncations and meta writes the store refines the
      plain sequence, and reopening it finds exactly the last index. */
  lemma {:induction false} HistoryReopens(d: DiskState, ops: seq<DiskOp>)
    requires Layout(d.kv, d.last) && META_KEYS <= d.kv.Keys
    requires (forall op | op in ops :: OpOk(op)) && InBounds(LogOf(d.kv, d.last), ops)
    ensures var d' := DiskRun(d, ops);
      && Layout(d'.kv, d'.last) && META_KEYS <= d'.kv.Keys
      && LogOf(d'.kv, d'.last) == LogRun(LogOf(d.kv, d.last), ops)
      && (forall k | k in d'.kv :: |k| >= 8) && Reopened(d'.kv) == d'.last
    decreases |ops|
  {
    if ops == [] {
      ReopenFindsLast(d.kv, d.last);
    } else {
      var front, op, log := ops[..|ops| - 1], ops[|ops| - 1], LogOf(d.kv, d.last);
      forall i: nat | i <= |front| ensures |LogRun(log, front[..i])| < INDEX_BOUND { assert front[..i] == ops[..i]; }
      HistoryReopens(d, front);
      assert ops[..|ops|] == ops;
      var d1 := DiskRun(d, front);
      DiskStepRefines(d1, op);
      ReopenFindsLast(DiskStep(d1, op).kv, DiskStep(d1, op).last);
    }
  }

  /** The last value written to a meta key, if any. */
  function LastMeta(ops: seq<DiskOp>, key: Key): Option<Value> {
    if ops == [] then None
    else
      var op := ops[|ops| - 1];
      if op.MetaOp? && op.key == key then Some(op.value) else LastMeta(ops[..|ops| - 1], key)
  }

  /** After any history a meta key holds what was last written to it, and otherwise what it held before. */
  lemma {:induction false} HistoryKeepsMeta(d: DiskState, ops: seq<DiskOp>, key: Key)
    requires Layout(d.kv, d.last) && META_KEYS <= d.kv.Keys && key in META_KEYS
    requires (forall op | op in ops :: OpOk(op)) && InBounds(LogOf(d.kv, d.last), ops)
    ensures key in DiskRun(d, ops).kv
    ensures DiskRun(d, ops).kv[key] == match LastMeta(ops, key) case Some(v) => v case None => d.kv[key]
    decreases |ops|
  {
    HistoryReopens(d, ops);
    if ops != [] {
      var front, op, log := ops[..|ops| - 1], ops[|ops| - 1], LogOf(d.kv, d.last);
      forall i: nat | i <= |front| ensures |LogRun(log, front[..i])| < INDEX_BOUND { assert front[..i] == ops[..i]; }
      HistoryReopens(d, front);
      HistoryKeepsMeta(d, front, key);
      assert ops[..|ops|] == ops;
      var d1 := DiskRun(d, front);
      DiskStepRefines(d1, op);
      MetaAt(d1.kv, key);
      MetaAt(DiskStep(d1, op).kv, key);
    }
  }

  lemma MetaAt(kv: Db, key: Key)
    requires key in META_KEYS && key in kv
    ensures key in MetaOf(kv) && MetaOf(kv)[key] == kv[key]
  {
  }
}
