/** Counting match indices: collect, sort, take the middle. */
module Quorum {
  import opened Types
  import opened Protocol
  import opened Elections

  /** How many values are at least k. */
  ghost function AtLeast(s: seq<nat>, k: nat): (r: nat)
    ensures r <= |s|
  {
    if s == [] then 0 else AtLeast(s[..|s| - 1], k) + if s[|s| - 1] >= k then 1 else 0
  }

  lemma {:induction false} AtLeastConcat(a: seq<nat>, b: seq<nat>, k: nat)
    ensures AtLeast(a + b, k) == AtLeast(a, k) + AtLeast(b, k)
    decreases |b|
  {
    if b == [] {
      assert a + b == a;
    } else {
      AtLeastConcat(a, b[..|b| - 1], k);
      assert (a + b)[..|a + b| - 1] == a + b[..|b| - 1];
    }
  }

  /** The count does not depend on the order. */
  lemma {:induction false} AtLeastPermuted(s: seq<nat>, t: seq<nat>, k: nat)
    requires multiset(s) == multiset(t)
    ensures AtLeast(s, k) == AtLeast(t, k)
    decreases |s|
  {
    if s == [] {
      assert |multiset(t)| == 0;
    } else {
      var front: seq<nat>, x := s[..|s| - 1], s[|s| - 1];
      var i := FindIn(t, x) by { assert s[|s| - 1] in multiset(s); }
      var before: seq<nat>, after: seq<nat> := t[..i], t[i + 1..];
      assert s == front + [x] && t == before + ([x] + after);
      SameWithout(front, before, after, x);
      AtLeastPermuted(front, before + after, k);
      hide AtLeast;
      AtLeastConcat(before, [x] + after, k);
      AtLeastConcat([x], after, k);
      AtLeastConcat(before, after, k);
      AtLeastConcat(front, [x], k);
    }
  }

  lemma SameWithout(front: seq<nat>, before: seq<nat>, after: seq<nat>, x: nat)
    requires multiset(front + [x]) == multiset(before + ([x] + after))
    ensures multiset(front) == multiset(before + after)
  {
    assert multiset(front) == multiset(front + [x]) - multiset{x};
    assert multiset(before + after) == multiset(before + ([x] + after)) - multiset{x};
  }

  lemma FindIn(t: seq<nat>, x: nat) returns (i: nat)
    requires x in multiset(t)
    ensures i < |t| && t[i] == x
  {
    i :| i < |t| && t[i] == x;
  }

  ghost predicate Ordered(s: seq<nat>) {
    forall i: nat, j: nat | i <= j < |s| :: s[i] <= s[j]
  }

  lemma {:induction false} AllAtLeast(s: seq<nat>, k: nat)
    ensures (forall i: nat | i < |s| :: s[i] >= k) ==> AtLeast(s, k) == |s|
    ensures (forall i: nat | i < |s| :: s[i] < k) ==> AtLeast(s, k) == 0
  {
    if s != [] { AllAtLeast(s[..|s| - 1], k); }
  }

  /** In sorted order, more than half of the values and the leader's own log reach k exactly when the
      middle value does. */
  lemma MiddleDecides(s: seq<nat>, k: nat)
    requires Ordered(s) && |s| >= 1
    ensures 2 * (1 + AtLeast(s, k)) > |s| + 1 <==> s[|s| / 2] >= k
  {
    var mid := |s| / 2;
    hide AtLeast;
    if s[mid] >= k { UpperHalf(s, k, mid); } else { LowerHalf(s, k, mid); }
  }

  lemma UpperHalf(s: seq<nat>, k: nat, mid: nat)
    requires Ordered(s) && mid < |s| && s[mid] >= k
    ensures AtLeast(s, k) >= |s| - mid
  {
    var high: seq<nat> := s[mid..];
    assert s == s[..mid] + high;
    AtLeastConcat(s[..mid], high, k);
    AllAtLeast(high, k);
  }

  lemma LowerHalf(s: seq<nat>, k: nat, mid: nat)
    requires Ordered(s) && mid < |s| && s[mid] < k
    ensures AtLeast(s, k) <= |s| - mid - 1
  {
    var low: seq<nat> := s[..mid + 1];
    assert s == low + s[mid + 1..];
    AtLeastConcat(low, s[mid + 1..], k);
    AllAtLeast(low, k);
  }

  /** An index that splits what is held from what is not is the quorum index. */
  lemma {:induction false} QuorumIndexIs(matched: map<NodeId, nat>, hi: nat, q: nat)
    requires q <= hi && (forall k: nat | k <= hi :: Held(matched, k) <==> k <= q)
    ensures QuorumIndex(matched, hi) == q
  {
    if hi > q { QuorumIndexIs(matched, hi - 1, q); }
  }

  /** The values agree with the match indices on every count. */
  ghost predicate Counts(values: seq<nat>, matched: map<NodeId, nat>, peers: set<NodeId>) {
    && peers <= matched.Keys && |values| == |peers|
    && forall k: nat :: AtLeast(values, k) == |Holders(matched, peers, k)|
  }

  ghost function Holders(matched: map<NodeId, nat>, peers: set<NodeId>, k: nat): set<NodeId>
    requires peers <= matched.Keys
  {
    set p | p in peers && matched[p] >= k
  }

  lemma CountsOneMore(values: seq<nat>, matched: map<NodeId, nat>, peers: set<NodeId>, p: NodeId)
    requires Counts(values, matched, peers) && p in matched && p !in peers
    ensures Counts(values + [matched[p]], matched, peers + {p})
  {
    forall k: nat ensures AtLeast(values + [matched[p]], k) == |Holders(matched, peers + {p}, k)| {
      assert (values + [matched[p]])[..|values|] == values;
      var was, now := Holders(matched, peers, k), Holders(matched, peers + {p}, k);
      assert AtLeast(values, k) == |was|;
      if matched[p] >= k { assert now == was + {p}; } else { assert now == was; }
    }
  }

  ghost predicate OrderedTo(a: array<nat>, n: nat)
    requires n <= a.Length
    reads a
  {
    forall i: nat, j: nat | i <= j < n :: a[i] <= a[j]
  }

  method Swap(a: array<nat>, j: nat)
    requires 1 <= j < a.Length
    modifies a
    ensures multiset(a[..]) == multiset(old(a[..])) && a[j] == old(a[j - 1]) && a[j - 1] == old(a[j])
    ensures forall x: nat | x < a.Length && x != j && x != j - 1 :: a[x] == old(a[x])
  {
    a[j - 1], a[j] := a[j], a[j - 1];
  }

  /** Exchanges neighbours until the element that was at i is in its place. */
  method Insert(a: array<nat>, i: nat)
    requires i < a.Length && OrderedTo(a, i)
    modifies a
    ensures multiset(a[..]) == multiset(old(a[..])) && OrderedTo(a, i + 1)
  {
    var j: nat := i;
    while j > 0 && a[j - 1] > a[j]
      invariant j <= i && multiset(a[..]) == multiset(old(a[..]))
      invariant forall x: nat, y: nat | x <= y <= i && x != j && y != j :: a[x] <= a[y]
      invariant forall y: nat | j < y <= i :: a[j] <= a[y]
    {
      Swap(a, j);
      j := j - 1;
    }
  }

  method Sort(a: array<nat>)
    modifies a
    ensures multiset(a[..]) == multiset(old(a[..])) && Ordered(a[..])
  {
    var i := 0;
    while i < a.Length
      invariant i <= a.Length && multiset(a[..]) == multiset(old(a[..])) && OrderedTo(a, i)
    {
      Insert(a, i);
      i := i + 1;
    }
  }

  /** The greatest index that a strict majority of the peers and the leader hold. */
  ghost predicate GreatestHeld(matched: map<NodeId, nat>, q: nat) {
    Held(matched, q) && forall k: nat | k > q :: !Held(matched, k)
  }

  /** QuorumMatchIndex: the greatest index that a strict majority of the peers and the leader hold.  Any
      bound on the match indices gives the same quorum index. */
  method QuorumMatchIndex(matched: map<NodeId, nat>, ghost hi: nat) returns (q: nat)
    requires matched.Keys != {}
    ensures GreatestHeld(matched, q)
    ensures (forall p | p in matched :: matched[p] <= hi) ==> q == QuorumIndex(matched, hi)
  {
    var values := Collect(matched);
    ghost var unsorted := values[..];
    Sort(values);
    q := values[values.Length / 2];
    forall k: nat ensures Held(matched, k) <==> k <= q { HeldIsCount(unsorted, values[..], matched, k); }
    if forall p | p in matched :: matched[p] <= hi {
      MiddleIsBounded(unsorted, values[..], matched, hi);
      QuorumIndexIs(matched, hi, q);
    }
  }

  method Collect(matched: map<NodeId, nat>) returns (values: array<nat>)
    ensures fresh(values) && values.Length == |matched| && Counts(values[..], matched, matched.Keys)
  {
    values := new nat[|matched|];
    var left, i := matched.Keys, 0;
    while left != {}
      invariant left <= matched.Keys && i + |left| == |matched| == values.Length
      invariant Counts(values[..i], matched, matched.Keys - left)
      decreases left
    {
      var p :| p in left;
      ghost var done := matched.Keys - left;
      CountsOneMore(values[..i], matched, done, p);
      ghost var was := values[..i];
      values[i] := matched[p];
      assert values[..i + 1] == was + [matched[p]];
      left := left - {p};
      assert matched.Keys - left == done + {p};
      i := i + 1;
    }
    assert values[..i] == values[..] && matched.Keys - left == matched.Keys;
  }

  /** Counting in the sorted values decides what is held. */
  lemma HeldIsCount(unsorted: seq<nat>, sorted: seq<nat>, matched: map<NodeId, nat>, k: nat)
    requires Counts(unsorted, matched, matched.Keys) && multiset(sorted) == multiset(unsorted) && Ordered(sorted) && |sorted| >= 1
    ensures Held(matched, k) <==> k <= sorted[|sorted| / 2]
  {
    AtLeastPermuted(sorted, unsorted, k);
    MiddleDecides(sorted, k);
    assert |sorted| == |multiset(sorted)| == |multiset(unsorted)| == |unsorted| == |matched|;
    assert AtLeast(unsorted, k) == |Holders(matched, matched.Keys, k)|;
    assert Holders(matched, matched.Keys, k) == set p | p in matched && matched[p] >= k;
  }

  lemma MiddleIsBounded(unsorted: seq<nat>, sorted: seq<nat>, matched: map<NodeId, nat>, hi: nat)
    requires Counts(unsorted, matched, matched.Keys) && multiset(sorted) == multiset(unsorted) && Ordered(sorted) && |sorted| >= 1
    requires forall p | p in matched :: matched[p] <= hi
    ensures sorted[|sorted| / 2] <= hi
  {
    HeldIsCount(unsorted, sorted, matched, hi + 1);
    assert (set p | p in matched && matched[p] >= hi + 1) == {};
  }

  /** The holders of the quorum index, with the leader, meet every set of voters that CheckAndVote accepts. */
  lemma QuorumMeetsVoters(cfg: Config, l: NodeId, matched: map<NodeId, nat>, k: nat, voters: set<NodeId>)
    requires l in cfg.members && matched.Keys == cfg.members - {l} && Held(matched, k)
    requires voters <= cfg.members && |voters| > |cfg.members| / 2
    ensures exists v :: v in voters && (v == l || (v in matched && matched[v] >= k))
  {
    var holders := set p | p in matched && matched[p] >= k;
    assert |matched| == |matched.Keys| == |cfg.members| - 1;
    MajoritiesMeet(cfg, holders + {l}, voters);
  }
}
