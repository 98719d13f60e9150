/** Keys of the log store: byte strings in lexicographic order, the big-endian encoding of log indices
    and the five meta keys that share the store with the log. */
module Keys {
  import opened Types

  type Byte = b: int | 0 <= b < 256

  type Key = seq<Byte>

  // ---------------------------------------------------------------- order

  predicate Less(a: Key, b: Key) {
    if b == [] then false
    else if a == [] then true
    else if a[0] != b[0] then a[0] < b[0]
    else Less(a[1..], b[1..])
  }

  lemma {:induction false} Total(a: Key, b: Key)
    ensures a == b || Less(a, b) || Less(b, a)
    ensures !(Less(a, b) && Less(b, a)) && !Less(a, a)
  {
    if a != [] && b != [] && a[0] == b[0] { Total(a[1..], b[1..]); }
    if a != [] { Total(a[1..], a[1..]); }
  }

  lemma {:induction false} Transitive(a: Key, b: Key, c: Key)
    requires Less(a, b) && Less(b, c)
    ensures Less(a, c)
  {
    if a != [] && a[0] == b[0] && b[0] == c[0] { Transitive(a[1..], b[1..], c[1..]); }
  }

  predicate IsLast(keys: set<Key>, m: Key) {
    m in keys && forall k | k in keys :: k == m || Less(k, m)
  }

  lemma {:induction false} LastExists(keys: set<Key>)
    requires keys != {}
    ensures exists m :: IsLast(keys, m)
    decreases |keys|
  {
    var k :| k in keys;
    var rest := keys - {k};
    if rest == {} {
      assert keys == {k};
      assert IsLast(keys, k);
    } else {
      LastExists(rest);
      var m :| IsLast(rest, m);
      Total(k, m);
      var top := if Less(m, k) then k else m;
      forall x | x in keys ensures x == top || Less(x, top) {
        if x != k && x != m && top == k { Transitive(x, m, k); }
      }
      assert IsLast(keys, top);
    }
  }

  lemma LastUnique(keys: set<Key>, a: Key, b: Key)
    requires IsLast(keys, a) && IsLast(keys, b)
    ensures a == b
  {
    Total(a, b);
  }

  /** The greatest key, where an iterator stands after seeking the last entry. */
  function Last(keys: set<Key>): (r: Option<Key>)
    ensures r.None? <==> keys == {}
    ensures r.Some? ==> IsLast(keys, r.value)
  {
    if keys == {} then None
    else
      LastExists(keys);
      assert forall a, b | IsLast(keys, a) && IsLast(keys, b) :: a == b by {
        forall a, b | IsLast(keys, a) && IsLast(keys, b) ensures a == b { LastUnique(keys, a, b); }
      }
      var m :| IsLast(keys, m);
      Some(m)
  }

  /** One step back of an iterator; an iterator that has left the store stays outside. */
  function Prev(keys: set<Key>, at: Option<Key>): (r: Option<Key>) {
    if at.None? then None else Last(set k | k in keys && Less(k, at.value))
  }

  lemma LastIs(keys: set<Key>, m: Key)
    requires IsLast(keys, m)
    ensures Last(keys) == Some(m)
  {
    LastUnique(keys, Last(keys).value, m);
  }

  // ---------------------------------------------------------------- log indices

  function Power(w: nat): (r: nat)
    ensures r >= 1
  {
    if w == 0 then 1 else 256 * Power(w - 1)
  }

  /** The last `w` bytes of n, most significant first. */
  function BigEndian(n: nat, w: nat): (s: Key)
    ensures |s| == w
  {
    if w == 0 then [] else BigEndian(n / 256, w - 1) + [n % 256]
  }

  function FromBigEndian(s: Key): nat {
    if s == [] then 0 else 256 * FromBigEndian(s[..|s| - 1]) + s[|s| - 1]
  }

  lemma {:induction false} BigEndianRoundTrip(n: nat, w: nat)
    requires n < Power(w)
    ensures FromBigEndian(BigEndian(n, w)) == n
  {
    if w > 0 {
      BigEndianRoundTrip(n / 256, w - 1);
      var s := BigEndian(n, w);
      assert s[..|s| - 1] == BigEndian(n / 256, w - 1);
    }
  }

  /** The other way round: every byte string is the encoding of what it decodes to. */
  lemma {:induction false} FromBigEndianRoundTrip(s: Key)
    ensures FromBigEndian(s) < Power(|s|) && BigEndian(FromBigEndian(s), |s|) == s
  {
    if s != [] {
      var t, b := s[..|s| - 1], s[|s| - 1];
      FromBigEndianRoundTrip(t);
      assert s == t + [b];
      assert (256 * FromBigEndian(t) + b) / 256 == FromBigEndian(t);
    }
  }

  lemma {:induction false} LessSnoc(a: Key, b: Key, x: Byte, y: Byte)
    requires |a| == |b|
    ensures Less(a + [x], b + [y]) <==> Less(a, b) || (a == b && x < y)
  {
    if a != [] {
      assert (a + [x])[1..] == a[1..] + [x] && (b + [y])[1..] == b[1..] + [y];
      if a[0] == b[0] {
        LessSnoc(a[1..], b[1..], x, y);
        assert a == [a[0]] + a[1..] && b == [b[0]] + b[1..];
      }
    } else {
      assert a == b == [];
    }
  }

  /** The encoding preserves and reflects the order. */
  lemma {:induction false} BigEndianOrder(m: nat, n: nat, w: nat)
    requires m < Power(w) && n < Power(w)
    ensures Less(BigEndian(m, w), BigEndian(n, w)) <==> m < n
  {
    if w > 0 {
      BigEndianOrder(m / 256, n / 256, w - 1);
      LessSnoc(BigEndian(m / 256, w - 1), BigEndian(n / 256, w - 1), m % 256, n % 256);
      if BigEndian(m / 256, w - 1) == BigEndian(n / 256, w - 1) {
        BigEndianRoundTrip(m / 256, w - 1);
        BigEndianRoundTrip(n / 256, w - 1);
      }
    }
  }

  lemma {:induction false} FirstByte(n: nat, w: nat)
    requires w >= 1 && n < Power(w)
    ensures BigEndian(n, w)[0] == n / Power(w - 1)
  {
    if w > 1 {
      FirstByte(n / 256, w - 1);
      DivDiv(n, Power(w - 2));
      assert BigEndian(n, w)[0] == BigEndian(n / 256, w - 1)[0];
    }
  }

  lemma MulMono(a: int, b: int, p: nat)
    ensures a <= b ==> a * p <= b * p
  {
    if a <= b { assert b * p == a * p + (b - a) * p; }
  }

  lemma DivIs(n: nat, p: nat, q: nat, r: nat)
    requires p >= 1 && n == q * p + r && r < p
    ensures n / p == q
  {
    assert n / p * p == q * p + r - n % p;
    MulMono(n / p + 1, q, p);
    MulMono(q + 1, n / p, p);
  }

  lemma DivDiv(n: nat, p: nat)
    requires p >= 1
    ensures n / 256 / p == n / (256 * p)
  {
    var q, r := n / (256 * p), n % (256 * p);
    assert n == 256 * (q * p) + r;
    DivIs(n / 256, p, q, r / 256);
  }

  /** UintToBitStr: the key of a log index. */
  function IndexKey(index: nat): Key { BigEndian(index, 8) }

  /** BitStrToUint reads the first eight bytes. */
  function KeyIndex(key: Key): nat
    requires |key| >= 8
  {
    FromBigEndian(key[..8])
  }

  /** Indices below this bound have a first byte below that of 'A'. */
  const INDEX_BOUND: nat := 0x41 * Power(7)

  lemma BoundFits()
    ensures INDEX_BOUND < Power(8)
  {
  }

  lemma IndexKeys(i: nat, j: nat)
    requires i < INDEX_BOUND && j < INDEX_BOUND
    ensures KeyIndex(IndexKey(i)) == i && (Less(IndexKey(i), IndexKey(j)) <==> i < j)
    ensures IndexKey(i) == IndexKey(j) ==> i == j
    ensures IndexKey(i)[0] < 0x41
  {
    BoundFits();
    assert IndexKey(i)[..8] == IndexKey(i) && IndexKey(j)[..8] == IndexKey(j);
    BigEndianRoundTrip(i, 8);
    BigEndianRoundTrip(j, 8);
    BigEndianOrder(i, j, 8);
    FirstByte(i, 8);
    DivBelow(i, Power(7));
  }

  lemma DivBelow(n: nat, p: nat)
    requires p >= 1 && n < 0x41 * p
    ensures n / p < 0x41
  {
    MulMono(0x41, n / p, p);
  }

  // ---------------------------------------------------------------- meta keys

  function ByteOf(c: char): Byte
    requires c as int < 256
  {
    c as int
  }

  function Ascii(s: string): (r: Key)
    requires forall i: nat | i < |s| :: s[i] as int < 256
    ensures |r| == |s| && forall i: nat | i < |s| :: r[i] == s[i] as int
  {
    seq(|s|, i requires 0 <= i < |s| => ByteOf(s[i]))
  }

  const LAST_APPLIED_KEY: Key := Ascii("APPLYINDEX")
  const COMMIT_INDEX_KEY: Key := Ascii("COMMITINDEX")
  const CURRENT_TERM_KEY: Key := Ascii("CURRENTTERM")
  const VOTED_FOR_IP_KEY: Key := Ascii("VOTEFORIP")
  const VOTED_FOR_PORT_KEY: Key := Ascii("VOTEFORPORT")

  const META_KEYS: set<Key> := {LAST_APPLIED_KEY, COMMIT_INDEX_KEY, CURRENT_TERM_KEY, VOTED_FOR_IP_KEY, VOTED_FOR_PORT_KEY}

  /** Two strings that first differ at i are ordered as their bytes there. */
  lemma {:induction false} LessAt(a: Key, b: Key, i: nat)
    requires i < |a| && i < |b| && a[..i] == b[..i] && a[i] < b[i]
    ensures Less(a, b)
  {
    if i > 0 {
      assert a[0] == a[..i][0] == b[..i][0] == b[0];
      assert a[1..][..i - 1] == a[..i][1..] == b[..i][1..] == b[1..][..i - 1];
      LessAt(a[1..], b[1..], i - 1);
    }
  }

  lemma MetaOrder()
    ensures Less(LAST_APPLIED_KEY, COMMIT_INDEX_KEY) && Less(COMMIT_INDEX_KEY, CURRENT_TERM_KEY)
    ensures Less(CURRENT_TERM_KEY, VOTED_FOR_IP_KEY) && Less(VOTED_FOR_IP_KEY, VOTED_FOR_PORT_KEY)
  {
    LessAt(LAST_APPLIED_KEY, COMMIT_INDEX_KEY, 0);
    LessAt(COMMIT_INDEX_KEY, CURRENT_TERM_KEY, 1);
    LessAt(CURRENT_TERM_KEY, VOTED_FOR_IP_KEY, 0);
    assert VOTED_FOR_IP_KEY[..7] == VOTED_FOR_PORT_KEY[..7];
    LessAt(VOTED_FOR_IP_KEY, VOTED_FOR_PORT_KEY, 7);
  }

  /** Every index key sorts before every meta key. */
  lemma IndexBeforeMeta(i: nat, k: Key)
    requires i < INDEX_BOUND && k in META_KEYS
    ensures Less(IndexKey(i), k) && IndexKey(i) != k
  {
    IndexKeys(i, i);
    LessAt(IndexKey(i), k, 0);
  }

  function IndexKeySet(n: nat): set<Key> {
    set i: nat | 1 <= i <= n :: IndexKey(i)
  }

  /** The meta keys in their order. */
  const META_ORDER: seq<Key> := [LAST_APPLIED_KEY, COMMIT_INDEX_KEY, CURRENT_TERM_KEY, VOTED_FOR_IP_KEY, VOTED_FOR_PORT_KEY]

  lemma {:induction false} MetaSorted(i: nat, j: nat)
    requires i < j < 5
    ensures Less(META_ORDER[i], META_ORDER[j])
    decreases j
  {
    MetaOrder();
    if i + 1 < j {
      MetaSorted(i, j - 1);
      Transitive(META_ORDER[i], META_ORDER[j - 1], META_ORDER[j]);
    }
  }

  lemma InMetaOrder(k: Key) returns (i: nat)
    requires k in META_KEYS
    ensures i < 5 && k == META_ORDER[i]
  {
    i := if k == LAST_APPLIED_KEY then 0 else if k == COMMIT_INDEX_KEY then 1 else if k == CURRENT_TERM_KEY then 2
         else if k == VOTED_FOR_IP_KEY then 3 else 4;
  }

  lemma MetaTop(keys: set<Key>, n: nat, j: nat)
    requires n < INDEX_BOUND && j < 5 && META_ORDER[j] in keys
    requires forall k | k in keys :: k in IndexKeySet(n) || exists i: nat :: i <= j && k == META_ORDER[i]
    ensures Last(keys) == Some(META_ORDER[j])
  {
    forall k | k in keys ensures k == META_ORDER[j] || Less(k, META_ORDER[j]) {
      if k in IndexKeySet(n) {
        var i: nat :| 1 <= i <= n && k == IndexKey(i);
        IndexBeforeMeta(i, META_ORDER[j]);
      } else {
        var i: nat :| i <= j && k == META_ORDER[i];
        if i < j { MetaSorted(i, j); }
      }
    }
    LastIs(keys, META_ORDER[j]);
  }

  lemma OneBack(keys: set<Key>, n: nat, j: nat)
    requires n < INDEX_BOUND && keys == IndexKeySet(n) + META_KEYS && 1 <= j < 5
    ensures Prev(keys, Some(META_ORDER[j])) == Some(META_ORDER[j - 1])
  {
    var below := set k | k in keys && Less(k, META_ORDER[j]);
    MetaSorted(j - 1, j);
    forall k | k in below ensures k in IndexKeySet(n) || exists i: nat :: i <= j - 1 && k == META_ORDER[i] {
      if k in META_KEYS {
        var i := InMetaOrder(k);
        Total(k, META_ORDER[j]);
        if i > j { MetaSorted(j, i); }
      }
    }
    MetaTop(below, n, j - 1);
  }

  lemma LastBack(keys: set<Key>, n: nat)
    requires n < INDEX_BOUND && keys == IndexKeySet(n) + META_KEYS
    ensures Prev(keys, Some(META_ORDER[0])) == if n == 0 then None else Some(IndexKey(n))
  {
    var below := set k | k in keys && Less(k, META_ORDER[0]);
    forall k | k in below ensures k in IndexKeySet(n) {
      if k in META_KEYS {
        var i := InMetaOrder(k);
        Total(k, META_ORDER[0]);
        if i > 0 { MetaSorted(0, i); }
      }
    }
    if n > 0 {
      IndexBeforeMeta(n, META_ORDER[0]);
      forall k | k in below ensures k == IndexKey(n) || Less(k, IndexKey(n)) {
        var i: nat :| 1 <= i <= n && k == IndexKey(i);
        IndexKeys(i, n);
      }
      LastIs(below, IndexKey(n));
    } else {
      assert below == {};
    }
  }

  function BackFrom(keys: set<Key>, at: Option<Key>, steps: nat): Option<Key>
    decreases steps
  {
    if steps == 0 then at else BackFrom(keys, Prev(keys, at), steps - 1)
  }

  lemma {:induction false} BackToLog(keys: set<Key>, n: nat, j: nat)
    requires n < INDEX_BOUND && keys == IndexKeySet(n) + META_KEYS && j < 5
    ensures BackFrom(keys, Some(META_ORDER[j]), j + 1) == if n == 0 then None else Some(IndexKey(n))
  {
    if j == 0 {
      LastBack(keys, n);
    } else {
      OneBack(keys, n, j);
      BackToLog(keys, n, j - 1);
    }
  }

  /** The keys after a given one. */
  ghost function Beyond(keys: set<Key>, k: Key): set<Key> { set x | x in keys && Less(k, x) }

  lemma BeyondPrev(keys: set<Key>, k: Key)
    requires k in keys && Prev(keys, Some(k)).Some?
    ensures Prev(keys, Some(k)).value in keys
    ensures Beyond(keys, Prev(keys, Some(k)).value) == Beyond(keys, k) + {k} && k !in Beyond(keys, k)
  {
    var below := set x | x in keys && Less(x, k);
    var p := Prev(keys, Some(k)).value;
    assert IsLast(below, p);
    Total(k, k);
    forall x | x in keys ensures Less(p, x) <==> x == k || Less(k, x) {
      Total(x, k);
      Total(p, x);
      if Less(k, x) { Transitive(p, k, x); }
    }
  }

  /** Wherever an iterator stands after some steps back, it has that many more keys behind it. */
  lemma {:induction false} BackCounts(keys: set<Key>, k: Key, steps: nat)
    requires k in keys && BackFrom(keys, Some(k), steps).Some?
    ensures var r := BackFrom(keys, Some(k), steps).value;
      r in keys && |Beyond(keys, r)| == |Beyond(keys, k)| + steps
    decreases steps
  {
    if steps > 0 {
      var p := Prev(keys, Some(k));
      if p.None? {
        NoneStays(keys, steps - 1);
      } else {
        BeyondPrev(keys, k);
        BackCounts(keys, p.value, steps - 1);
      }
    }
  }

  lemma {:induction false} NoneStays(keys: set<Key>, steps: nat)
    ensures BackFrom(keys, None, steps) == None
    decreases steps
  {
    if steps > 0 { NoneStays(keys, steps - 1); }
  }

  lemma LastHasNoneBeyond(keys: set<Key>)
    requires keys != {}
    ensures Last(keys).Some? && Last(keys).value in keys && Beyond(keys, Last(keys).value) == {}
  {
    var m := Last(keys).value;
    forall x | x in keys ensures !Less(m, x) { Total(x, m); }
  }

  /** Where "last key, then five back" ends, in a store with the log indices 1 to n and all meta keys. */
  lemma FiveBack(keys: set<Key>, n: nat)
    requires n < INDEX_BOUND && keys == IndexKeySet(n) + META_KEYS
    ensures BackFrom(keys, Last(keys), 5) == if n == 0 then None else Some(IndexKey(n))
  {
    forall k | k in keys ensures k in IndexKeySet(n) || exists i: nat :: i <= 4 && k == META_ORDER[i] {
      if k in META_KEYS { var i := InMetaOrder(k); }
    }
    MetaTop(keys, n, 4);
    BackToLog(keys, n, 4);
  }
}
