/** Commit and apply: what a node may commit is locked, so no two nodes ever disagree on it and no
    log is ever cut inside it. */
module Commits {
  import opened Types
  import opened Protocol
  import opened Cluster
  import opened Elections
  import opened Logs
  import opened Replication
  import opened Steps
  import opened Locks

  /** The rule that a leader only commits entries of its own term by counting replicas.  The code
      tests the last entry of the acknowledged batch instead of the entry it commits; in clusters of
      at most four members that is enough. */
  ghost predicate CommitRuleStep(cfg: Config, s: State, step: Step)
    requires Enabled(cfg, s, step)
  {
    step.Exchange? && |cfg.members| > 4 ==>
      var l := s.nodes[step.l];
      var l' := LeaderAfter(cfg, s, step.l, step.p, step.replyLost);
      l.commit < l'.commit <= |l.log| ==> TermAt(l.log, l'.commit) == l.term
  }

  // ---------------------------------------------------------------- locked entries

  ghost function Keepers(s: State, h: History, t: nat, b: nat): set<NodeId> {
    set q | q in s.nodes && StoredUpTo(h, t, q) >= b
  }

  /** Enough nodes stored the entry in its term to meet every majority. */
  ghost predicate Locked(s: State, h: History, t: nat, b: nat) {
    Point(h, t, b) && 2 * |Keepers(s, h, t, b)| >= |s.nodes|
  }

  lemma LockedIsOpen(s: State, h: History, t: nat, b: nat)
    requires Locked(s, h, t, b)
    ensures Open(s, h, t, b)
  {
    SubsetSize(Keepers(s, h, t, b), Support(s, h, t, b));
  }

  lemma LockedStays(s: State, h: History, s': State, h': History, t: nat, b: nat)
    requires Locked(s, h, t, b) && s'.nodes.Keys == s.nodes.Keys && Grows(h.termLog, h'.termLog) && StoredGrows(h, h')
    ensures Locked(s', h', t, b)
  {
    PointAfter(h, h', t, b);
    forall q | q in Keepers(s, h, t, b) ensures q in Keepers(s', h', t, b) {
      assert StoredUpTo(h, t, q) <= StoredUpTo(h', t, q);
    }
    SubsetSize(Keepers(s, h, t, b), Keepers(s', h', t, b));
    assert |s'.nodes| == |s'.nodes.Keys| == |s.nodes.Keys| == |s.nodes|;
  }

  /** The logs of two terms with locked entries agree on the locked part of the earlier one. */
  lemma LockedAgree(cfg: Config, s: State, h: History, t: nat, b: nat, t2: nat, b2: nat)
    requires SafeInv(cfg, s, h) && Locked(s, h, t, b) && Locked(s, h, t2, b2) && t <= t2
    ensures Agree(h.termLog[t], h.termLog[t2], b)
  {
    hide ElectionInv, PeersOk, AuthorsOk, LogsOk, CandLogsOk, StoredOk, HoldOk, BackOk;
    LockedIsOpen(s, h, t, b);
    if t < t2 { AuthorHolds(cfg, s, h, t, b, t2); }
  }

  // ---------------------------------------------------------------- safe prefixes

  ghost predicate Covered(s: State, h: History, term: nat, log: Log, i: nat, t: nat, b: nat) {
    t <= term && Locked(s, h, t, b) && i <= b && Agree(log, h.termLog[t], i)
  }

  /** The first i entries of a log are locked in a term that its node has reached. */
  ghost predicate Safe(s: State, h: History, term: nat, log: Log, i: nat) {
    i == 0 || exists t: nat, b: nat :: Covered(s, h, term, log, i, t, b)
  }

  ghost predicate CommitsOk(s: State, h: History) {
    forall n | n in s.nodes ::
      && Safe(s, h, s.nodes[n].term, s.nodes[n].log, s.nodes[n].commit)
      && Safe(s, h, s.nodes[n].term, s.nodes[n].log, s.nodes[n].applied)
  }

  lemma SafeLength(s: State, h: History, term: nat, log: Log, i: nat)
    requires Safe(s, h, term, log, i)
    ensures i <= |log|
  {
  }

  lemma SafeStays(s: State, h: History, s': State, h': History, term: nat, log: Log, i: nat, term': nat, log': Log)
    requires Safe(s, h, term, log, i) && s'.nodes.Keys == s.nodes.Keys && Grows(h.termLog, h'.termLog) && StoredGrows(h, h')
    requires term <= term' && Agree(log, log', i)
    ensures Safe(s', h', term', log', i)
  {
    if i > 0 {
      var t: nat, b: nat :| Covered(s, h, term, log, i, t, b);
      LockedStays(s, h, s', h', t, b);
      AgreePrefix(log, h.termLog[t], h'.termLog[t], i);
      AgreeTrans(log, log', log, i);
      AgreeTrans(log', log, h'.termLog[t], i);
      assert Covered(s', h', term', log', i, t, b);
    }
  }

  lemma SafeLess(s: State, h: History, term: nat, log: Log, i: nat, log': Log, j: nat)
    requires Safe(s, h, term, log, i) && j <= i && Agree(log, log', j)
    ensures Safe(s, h, term, log', j)
  {
    if j > 0 {
      var t: nat, b: nat :| Covered(s, h, term, log, i, t, b);
      AgreeLess(log, h.termLog[t], i, j);
      AgreeTrans(log, log', log, j);
      AgreeTrans(log', log, h.termLog[t], j);
      assert Covered(s, h, term, log', j, t, b);
    }
  }

  /** Two safe prefixes never disagree. */
  lemma SafeAgree(cfg: Config, s: State, h: History, term: nat, log: Log, i: nat, term2: nat, log2: Log, i2: nat)
    requires SafeInv(cfg, s, h) && Safe(s, h, term, log, i) && Safe(s, h, term2, log2, i2)
    ensures Agree(log, log2, Min(i, i2))
  {
    hide SafeInv;
    var k := Min(i, i2);
    if k > 0 {
      var t: nat, b: nat :| Covered(s, h, term, log, i, t, b);
      var t2: nat, b2: nat :| Covered(s, h, term2, log2, i2, t2, b2);
      if t <= t2 { LockedAgree(cfg, s, h, t, b, t2, b2); AgreeLess(h.termLog[t], h.termLog[t2], b, k); }
      else { LockedAgree(cfg, s, h, t2, b2, t, b); AgreeLess(h.termLog[t2], h.termLog[t], b2, k); }
      AgreeLess(log, h.termLog[t], i, k);
      AgreeLess(log2, h.termLog[t2], i2, k);
    }
  }

  /** A leader agrees with every safe prefix of a node that has not gone beyond its term. */
  lemma LeaderAgrees(cfg: Config, s: State, h: History, l: NodeId, term: nat, log: Log, i: nat)
    requires SafeInv(cfg, s, h) && Safe(s, h, term, log, i)
    requires l in s.nodes && s.nodes[l].role == Leader && term <= s.nodes[l].term
    ensures Agree(log, s.nodes[l].log, i)
  {
    hide CoreInv;
    if i > 0 {
      var t: nat, b: nat :| Covered(s, h, term, log, i, t, b);
      LockedIsOpen(s, h, t, b);
      LeaderHolds(cfg, s, h, t, b, l);
      AgreeLess(h.termLog[t], s.nodes[l].log, b, i);
      AgreeTrans(log, h.termLog[t], s.nodes[l].log, i);
    }
  }

  // ---------------------------------------------------------------- a leader's commit index

  lemma {:induction false} QuorumIndexHeld(matched: map<NodeId, nat>, hi: nat)
    ensures QuorumIndex(matched, hi) <= hi
    ensures QuorumIndex(matched, hi) == 0 || Held(matched, QuorumIndex(matched, hi))
  {
    if hi != 0 && !Held(matched, hi) { QuorumIndexHeld(matched, hi - 1); }
  }

  /** A leader whose log holds an entry of its own term is that term's author and keeps its entries. */
  lemma LeaderKeeps(cfg: Config, s: State, h: History, l: NodeId, q: nat)
    requires SafeInv(cfg, s, h) && l in s.nodes && s.nodes[l].role == Leader
    requires 1 <= q <= |s.nodes[l].log| && s.nodes[l].log[q - 1].term == s.nodes[l].term
    ensures Point(h, s.nodes[l].term, q) && h.termLog[s.nodes[l].term] == s.nodes[l].log
    ensures StoredUpTo(h, s.nodes[l].term, l) >= q
  {
    hide ElectionInv, LogInv, PeersOk, HoldOk, BackOk;
    LogAt(cfg, s, h, l);
    assert Agree(s.nodes[l].log, h.termLog[s.nodes[l].log[q - 1].term], q);
    LeaderOwns(cfg, s, h, l);
  }

  lemma PeerKeeps(cfg: Config, s: State, h: History, l: NodeId, p: NodeId, q: nat)
    requires SafeInv(cfg, s, h) && l in s.nodes && s.nodes[l].role == Leader
    requires 1 <= q <= |s.nodes[l].log| && s.nodes[l].log[q - 1].term == s.nodes[l].term
    requires p in s.nodes[l].matched && s.nodes[l].matched[p] >= q
    ensures p in s.nodes && p != l && StoredUpTo(h, s.nodes[l].term, p) >= q
  {
    hide ElectionInv, LogInv, PeersOk, LockInv;
    LogAt(cfg, s, h, l);
    NodeAt(cfg, s, h, l);
    OnePair(cfg, s, h, l, p);
  }

  /** Counting replicas of an entry of the leader's own term locks it. */
  lemma CountLocks(cfg: Config, s: State, h: History, l: NodeId, q: nat)
    requires SafeInv(cfg, s, h) && l in s.nodes && s.nodes[l].role == Leader
    requires 1 <= q <= |s.nodes[l].log| && s.nodes[l].log[q - 1].term == s.nodes[l].term
    requires Held(s.nodes[l].matched, q)
    ensures Locked(s, h, s.nodes[l].term, q)
  {
    hide CoreInv, LockInv;
    var matched := s.nodes[l].matched;
    var holders := set p | p in matched && matched[p] >= q;
    LeaderKeeps(cfg, s, h, l, q);
    forall p | p in holders ensures p in Keepers(s, h, s.nodes[l].term, q) && p != l {
      PeerKeeps(cfg, s, h, l, p, q);
    }
    assert |{l} + holders| == 1 + |holders|;
    SubsetSize({l} + holders, Keepers(s, h, s.nodes[l].term, q));
    PeerCount(cfg, s, h, l);
  }

  lemma PeerCount(cfg: Config, s: State, h: History, l: NodeId)
    requires SafeInv(cfg, s, h) && l in s.nodes
    ensures |s.nodes[l].matched| + 1 == |s.nodes|
  {
    hide ElectionInv, LogInv, PeersOk, LockInv;
    NodeAt(cfg, s, h, l);
    assert s.nodes[l].matched.Keys == s.nodes.Keys - {l};
    assert |s.nodes.Keys - {l}| == |s.nodes.Keys| - 1;
    assert |s.nodes[l].matched| == |s.nodes[l].matched.Keys| && |s.nodes| == |s.nodes.Keys|;
  }

  /** In a small cluster the leader and the acknowledging peer together meet every majority. */
  lemma PairLocks(cfg: Config, s: State, h: History, l: NodeId, p: NodeId, q: nat)
    requires SafeInv(cfg, s, h) && l in s.nodes && s.nodes[l].role == Leader && |s.nodes| <= 4
    requires 1 <= q <= |s.nodes[l].log| && s.nodes[l].log[q - 1].term == s.nodes[l].term
    requires p in s.nodes[l].matched && s.nodes[l].matched[p] >= q
    ensures Locked(s, h, s.nodes[l].term, q)
  {
    hide CoreInv, LockInv;
    LeaderKeeps(cfg, s, h, l, q);
    PeerKeeps(cfg, s, h, l, p, q);
    assert {l, p} <= Keepers(s, h, s.nodes[l].term, q);
    SubsetSize({l, p}, Keepers(s, h, s.nodes[l].term, q));
  }

  /** Whenever a leader's commit index rises, the part it now commits is locked. */
  lemma AdvanceLocks(cfg: Config, s: State, h: History, l: NodeId, p: NodeId, e: nat, q: nat)
    requires SafeInv(cfg, s, h) && l in s.nodes && s.nodes[l].role == Leader
    requires 1 <= e <= |s.nodes[l].log| && s.nodes[l].log[e - 1].term == s.nodes[l].term
    requires p in s.nodes[l].matched && s.nodes[l].matched[p] == e
    requires 1 <= q <= |s.nodes[l].log| && Held(s.nodes[l].matched, q)
    requires |s.nodes| <= 4 || s.nodes[l].log[q - 1].term == s.nodes[l].term
    ensures Safe(s, h, s.nodes[l].term, s.nodes[l].log, q)
  {
    hide SafeInv;
    var t, log := s.nodes[l].term, s.nodes[l].log;
    LeaderKeeps(cfg, s, h, l, e);
    LeaderSorted(cfg, s, h, l);
    if log[q - 1].term == t {
      CountLocks(cfg, s, h, l, q);
      assert Covered(s, h, t, log, q, t, q);
    } else {
      PairLocks(cfg, s, h, l, p, e);
      assert Covered(s, h, t, log, q, t, e);
    }
  }

  lemma LeaderSorted(cfg: Config, s: State, h: History, l: NodeId)
    requires SafeInv(cfg, s, h) && l in s.nodes
    ensures Sorted(s.nodes[l].log, s.nodes[l].term)
  {
    hide ElectionInv, LogInv, PeersOk, LockInv;
    LogAt(cfg, s, h, l);
  }

  // ---------------------------------------------------------------- every step

  /** A node never loses what it committed or applied, and never applies less. */
  ghost predicate Kept(n: Node, n': Node) {
    n.applied <= n'.applied && Agree(n.log, n'.log, n.applied) && Agree(n.log, n'.log, n.commit)
  }

  ghost predicate NodeSafe(s: State, h: History, n: Node) {
    Safe(s, h, n.term, n.log, n.commit) && Safe(s, h, n.term, n.log, n.applied)
  }

  lemma KeepSafe(s: State, h: History, s': State, h': History, n: Node, n': Node)
    requires NodeSafe(s, h, n) && s'.nodes.Keys == s.nodes.Keys && Grows(h.termLog, h'.termLog) && StoredGrows(h, h')
    requires n.term <= n'.term && n.log <= n'.log && n'.commit == n.commit
    requires n'.applied == n.applied || (n'.applied == n.commit && n.applied <= n'.applied)
    ensures NodeSafe(s', h', n') && Kept(n, n')
  {
    SafeLength(s, h, n.term, n.log, n.commit);
    SafeLength(s, h, n.term, n.log, n.applied);
    assert n'.log[..n.commit] == n.log[..n.commit] && n'.log[..n.applied] == n.log[..n.applied];
    SafeStays(s, h, s', h', n.term, n.log, n.commit, n'.term, n'.log);
    SafeStays(s, h, s', h', n.term, n.log, n.applied, n'.term, n'.log);
  }

  ghost predicate AllKept(s: State, s': State) {
    s'.nodes.Keys == s.nodes.Keys && forall n | n in s.nodes :: Kept(s.nodes[n], s'.nodes[n])
  }

  /** Steps that leave every log alone or extend it, and advance no commit index. */
  lemma LocalCommits(s: State, h: History, s': State, h': History)
    requires CommitsOk(s, h) && Forward(s, s') && Grows(h.termLog, h'.termLog) && StoredGrows(h, h')
    requires forall n | n in s.nodes :: LocalNode(s.nodes[n], s'.nodes[n])
    ensures CommitsOk(s', h') && AllKept(s, s')
  {
    forall n | n in s.nodes ensures NodeSafe(s', h', s'.nodes[n]) && Kept(s.nodes[n], s'.nodes[n]) {
      assert NodeForward(s.nodes[n], s'.nodes[n]);
      KeepSafe(s, h, s', h', s.nodes[n], s'.nodes[n]);
    }
  }

  /** The receiver of an exchange keeps its safe prefixes. */
  lemma ReceiverKeeps(cfg: Config, s: State, h: History, l: NodeId, p: NodeId, m: AppendRequest, f': Node, i: nat)
    requires l in s.nodes && s.nodes[l].role == Leader && p in s.nodes && p in s.nodes[l].next
    requires SafeInv(cfg, s, h) && Safe(s, h, s.nodes[p].term, s.nodes[p].log, i)
    requires EndsGood(cfg.limits, h, s.nodes[l], p, s.nodes[p], m, f') && s.nodes[p].term <= s.nodes[l].term
    ensures Agree(s.nodes[p].log, f'.log, i)
  {
    hide SafeInv, Safe;
    LeaderAgrees(cfg, s, h, l, s.nodes[p].term, s.nodes[p].log, i);
    assert Agree(f'.log, s.nodes[l].log, i);
  }

  /** The receiver's commit index is at most what the leader has committed. */
  lemma ReceiverCommit(s: State, h: History, l: Node, f: Node, m: AppendRequest, f': Node)
    requires Safe(s, h, l.term, l.log, l.commit) && m.leaderCommit == l.commit && m.term == l.term && f.term <= l.term
    requires f' == HandleAppend(f, m) && (Fits(f.log, m) ==> f'.log <= l.log)
    ensures f'.term == l.term || f.term == l.term
    ensures f'.commit == f.commit || Safe(s, h, l.term, f'.log, f'.commit)
    ensures f'.applied == f.applied
  {
    if f'.commit != f.commit {
      assert f'.commit == Min(l.commit, |f'.log|);
      assert l.log[..f'.commit] == f'.log[..f'.commit];
      SafeLess(s, h, l.term, l.log, l.commit, f'.log, f'.commit);
    }
  }

  /** When and how far a processed reply moves the leader's commit index. */
  lemma SenderCommit(l: Node, p: NodeId, m: AppendRequest, r: AppendReply, l': Node)
    requires p in l.next && l' == HandleAppendReply(l, p, m, r)
    ensures l'.applied == l.applied && l'.log == l.log
    ensures l'.commit == l.commit ||
      (&& l'.role == Leader && l.role == Leader && l'.term == l.term && r.success && m.entries != [] && LastTerm(m.entries) == l.term
       && p in l'.matched && l'.matched[p] == m.prevIndex + |m.entries|
       && l.commit < l'.commit == QuorumIndex(l'.matched, |l.log|))
  {
  }

  lemma ExchangeReceiver(cfg: Config, s: State, h: History, l: NodeId, p: NodeId, lost: bool, m: AppendRequest, s': State, h': History)
    requires SafeInv(cfg, s, h) && CommitsOk(s, h) && IsExchange(cfg, s, h, l, p, lost, m, s', h')
    requires EndsGood(cfg.limits, h, s.nodes[l], p, s.nodes[p], m, s'.nodes[p]) && Forward(s, s')
    ensures NodeSafe(s', h', s'.nodes[p]) && Kept(s.nodes[p], s'.nodes[p])
  {
    hide SafeInv, Safe;
    var F, F', L := s.nodes[p], s'.nodes[p], s.nodes[l];
    assert NodeForward(F, F') && NodeSafe(s, h, F) && NodeSafe(s, h, L);
    if F.term <= L.term {
      ReceiverKeeps(cfg, s, h, l, p, m, F', F.commit);
      ReceiverKeeps(cfg, s, h, l, p, m, F', F.applied);
      ReceiverCommit(s, h, L, F, m, F');
      hide IsExchange, EndsGood, HandleAppend, CommitsOk, Forward;
      AcceptedSafe(s, h, s', h', L.term, F, F');
    } else {
      assert F' == F;
      hide IsExchange, EndsGood, HandleAppend, CommitsOk, Forward;
      SafeLength(s, h, F.term, F.log, F.commit);
      SafeLength(s, h, F.term, F.log, F.applied);
      AcceptedSafe(s, h, s', h', F.term, F, F');
    }
  }

  lemma AcceptedSafe(s: State, h: History, s': State, h': History, t: nat, f: Node, f': Node)
    requires NodeSafe(s, h, f) && s'.nodes.Keys == s.nodes.Keys && Grows(h.termLog, h'.termLog) && StoredGrows(h, h')
    requires f.term <= f'.term && t <= f'.term && Agree(f.log, f'.log, f.commit) && Agree(f.log, f'.log, f.applied)
    requires f'.applied == f.applied && (f'.commit == f.commit || Safe(s, h, t, f'.log, f'.commit))
    ensures NodeSafe(s', h', f') && Kept(f, f')
  {
    hide Safe;
    SafeStays(s, h, s', h', f.term, f.log, f.commit, f'.term, f'.log);
    SafeStays(s, h, s', h', f.term, f.log, f.applied, f'.term, f'.log);
    if f'.commit != f.commit {
      SafeLength(s, h, t, f'.log, f'.commit);
      SafeStays(s, h, s', h', t, f'.log, f'.commit, f'.term, f'.log);
    }
  }

  lemma ExchangeSender(cfg: Config, s: State, h: History, l: NodeId, p: NodeId, lost: bool, m: AppendRequest, s': State, h': History)
    requires SafeInv(cfg, s', h') && CommitsOk(s, h) && IsExchange(cfg, s, h, l, p, lost, m, s', h')
    requires Serves(cfg.limits, s.nodes[l], p, m) && Forward(s, s')
    requires s.nodes[l].commit < s'.nodes[l].commit <= |s.nodes[l].log| ==>
      |s.nodes| <= 4 || TermAt(s.nodes[l].log, s'.nodes[l].commit) == s.nodes[l].term
    ensures NodeSafe(s', h', s'.nodes[l]) && Kept(s.nodes[l], s'.nodes[l])
  {
    hide SafeInv, Safe;
    var L, L' := s.nodes[l], s'.nodes[l];
    assert NodeForward(L, L') && NodeSafe(s, h, L);
    if !lost { SenderCommit(L, p, m, AppendReplyOf(s.nodes[p], m), L'); }
    hide HandleAppendReply, HandleAppend, CommitsOk;
    SenderStays(s, h, s', h', L, L');
    if L'.commit != L.commit {
      SenderAdvance(cfg, s, h, l, p, lost, m, s', h');
    }
  }

  lemma SenderStays(s: State, h: History, s': State, h': History, n: Node, n': Node)
    requires NodeSafe(s, h, n) && s'.nodes.Keys == s.nodes.Keys && Grows(h.termLog, h'.termLog) && StoredGrows(h, h')
    requires n.term <= n'.term && n'.log == n.log && n'.applied == n.applied
    ensures Safe(s', h', n'.term, n'.log, n.commit) && Safe(s', h', n'.term, n'.log, n'.applied) && Kept(n, n')
  {
    hide Safe;
    SafeLength(s, h, n.term, n.log, n.commit);
    SafeLength(s, h, n.term, n.log, n.applied);
    SafeStays(s, h, s', h', n.term, n.log, n.commit, n'.term, n'.log);
    SafeStays(s, h, s', h', n.term, n.log, n.applied, n'.term, n'.log);
  }

  lemma SenderAdvance(cfg: Config, s: State, h: History, l: NodeId, p: NodeId, lost: bool, m: AppendRequest, s': State, h': History)
    requires SafeInv(cfg, s', h') && IsExchange(cfg, s, h, l, p, lost, m, s', h')
    requires Serves(cfg.limits, s.nodes[l], p, m) && s'.nodes[l].commit != s.nodes[l].commit
    requires s.nodes[l].commit < s'.nodes[l].commit <= |s.nodes[l].log| ==>
      |s.nodes| <= 4 || TermAt(s.nodes[l].log, s'.nodes[l].commit) == s.nodes[l].term
    ensures Safe(s', h', s'.nodes[l].term, s'.nodes[l].log, s'.nodes[l].commit)
  {
    hide SafeInv, Safe;
    var L, L' := s.nodes[l], s'.nodes[l];
    SenderCommit(L, p, m, AppendReplyOf(s.nodes[p], m), L');
    hide HandleAppendReply, HandleAppend;
    QuorumIndexHeld(L'.matched, |L.log|);
    assert L.log[m.prevIndex + |m.entries| - 1] == m.entries[|m.entries| - 1];
    assert |s'.nodes| == |s'.nodes.Keys| == |s.nodes.Keys| == |s.nodes|;
    AdvanceLocks(cfg, s', h', l, p, m.prevIndex + |m.entries|, L'.commit);
  }

  lemma ExchangeCommits(cfg: Config, s: State, h: History, l: NodeId, p: NodeId, lost: bool, s': State, h': History)
    requires SafeInv(cfg, s, h) && CommitsOk(s, h) && Enabled(cfg, s, Exchange(l, p, lost)) && CommitRuleStep(cfg, s, Exchange(l, p, lost))
    requires s' == Do(cfg, s, Exchange(l, p, lost)) && h' == Record(cfg, s, h, Exchange(l, p, lost))
    ensures CommitsOk(s', h') && AllKept(s, s')
  {
    hide SafeInv, Safe;
    var m := MessageTo(cfg, s, l, p);
    ExchangeStep(cfg, s, h, l, p, lost, s', h');
    MemberCount(cfg, s, h);
    ExchangeReceiver(cfg, s, h, l, p, lost, m, s', h');
    ExchangeSender(cfg, s, h, l, p, lost, m, s', h');
    hide HandleAppendReply, HandleAppend, CommitRuleStep, EndsGood, Do, Record;
    forall n | n in s.nodes ensures NodeSafe(s', h', s'.nodes[n]) && Kept(s.nodes[n], s'.nodes[n]) {
      if n != l && n != p {
        assert NodeSafe(s, h, s.nodes[n]);
        SenderStays(s, h, s', h', s.nodes[n], s.nodes[n]);
      }
    }
  }

  lemma MemberCount(cfg: Config, s: State, h: History)
    requires SafeInv(cfg, s, h)
    ensures |s.nodes| == |cfg.members| && s.nodes.Keys == cfg.members
  {
    hide LogInv, PeersOk, LockInv;
    assert |s.nodes| == |s.nodes.Keys|;
  }

  /** Every step of a run with timely replies that obeys the commit rule keeps all commits safe. */
  lemma StepCommits(cfg: Config, s: State, h: History, step: Step)
    requires SafeInv(cfg, s, h) && CommitsOk(s, h) && Enabled(cfg, s, step)
    requires TimelyStep(s, step) && CommitRuleStep(cfg, s, step)
    ensures SafeInv(cfg, Do(cfg, s, step), Record(cfg, s, h, step))
    ensures CommitsOk(Do(cfg, s, step), Record(cfg, s, h, step)) && AllKept(s, Do(cfg, s, step))
  {
    hide SafeInv, CommitsOk, AllKept, Forward;
    var s', h' := Do(cfg, s, step), Record(cfg, s, h, step);
    StepSafe(cfg, s, h, step);
    if step.Exchange? {
      ExchangeCommits(cfg, s, h, step.l, step.p, step.replyLost, s', h');
    } else {
      KeysKept(s, s');
      hide CommitRuleStep;
      forall n | n in s.nodes ensures LocalNode(s.nodes[n], s'.nodes[n]) { LocalStepOf(cfg, s, step, n); }
      hide Do, Record, Enabled;
      LocalCommits(s, h, s', h');
    }
  }

  lemma KeysKept(s: State, s': State)
    requires Forward(s, s')
    ensures s'.nodes.Keys == s.nodes.Keys
  {
  }

  /** What a step other than an exchange can do to a node's log, commit and applied index. */
  ghost predicate LocalNode(n: Node, n': Node) {
    && n.log <= n'.log && n'.commit == n.commit
    && (n'.applied == n.applied || (n'.applied == n.commit && n.applied <= n'.applied))
  }

  lemma LocalStepOf(cfg: Config, s: State, step: Step, n: NodeId)
    requires Enabled(cfg, s, step) && !step.Exchange? && n in s.nodes
    ensures n in Do(cfg, s, step).nodes && LocalNode(s.nodes[n], Do(cfg, s, step).nodes[n])
  {
    if step.TakeReply? { TakeReplyVotes(|cfg.members|, step.reply, s.nodes[step.reply.candidate]); }
  }
}
