/** Leader completeness without counting: an entry that a blocking set of nodes held while they were in
    the entry's own term is in the log of every later leader, whether or not any leader ever learned that
    they held it. */
module Completeness {
  import opened Types
  import opened Protocol
  import opened Cluster
  import opened Elections
  import opened Logs
  import opened Replication
  import opened Steps
  import opened Locks
  import opened Commits
  import opened Safety

  /** A log that ends in the node's current term was stored in it. */
  ghost predicate NodeStored(h: History, self: NodeId, n: Node) {
    LastTerm(n.log) == n.term ==> |n.log| <= StoredUpTo(h, n.term, self)
  }

  ghost predicate AllStored(s: State, h: History) {
    forall n | n in s.nodes :: NodeStored(h, n, s.nodes[n])
  }

  lemma SortedLast(log: Log, t: nat, k: nat)
    requires Sorted(log, t) && 1 <= k <= |log| && log[k - 1].term == t
    ensures LastTerm(log) == t
  {
  }

  lemma LaterTermEnds(log: Log, t: nat, t': nat)
    requires Sorted(log, t) && t < t'
    ensures LastTerm(log) != t'
  {
  }

  /** A node whose log does not change: its term is the same, or it has left the term its log ends in. */
  lemma SameLogStored(h: History, h': History, self: NodeId, n: Node, n': Node)
    requires NodeStored(h, self, n) && Sorted(n.log, n.term) && n.term <= n'.term && n'.log == n.log && StoredGrows(h, h')
    ensures NodeStored(h', self, n')
  {
    assert StoredUpTo(h, n.term, self) <= StoredUpTo(h', n.term, self);
    if n.term < n'.term { LaterTermEnds(n.log, n.term, n'.term); }
  }

  /** The receiver of a message, whatever it does with it. */
  lemma ReceiverStored(h: History, h': History, self: NodeId, f: Node, m: AppendRequest)
    requires NodeStored(h, self, f) && Sorted(f.log, f.term) && StoredGrows(h, h')
    requires f.term <= m.term && Fits(f.log, m) && LastTerm(LogAfter(f.log, m)) == m.term ==> |LogAfter(f.log, m)| <= StoredUpTo(h', m.term, self)
    ensures NodeStored(h', self, HandleAppend(f, m))
  {
    var f' := HandleAppend(f, m);
    assert StoredUpTo(h, f.term, self) <= StoredUpTo(h', f.term, self);
    if f.term <= m.term && !Fits(f.log, m) && f'.log != [] && LastTerm(f'.log) == m.term {
      assert f'.log <= f.log && f.log[|f'.log| - 1].term == m.term;
      SortedLast(f.log, f.term, |f'.log|);
    }
  }

  lemma StepStored(cfg: Config, s: State, h: History, step: Step)
    requires SafeInv(cfg, s, h) && Enabled(cfg, s, step) && TimelyStep(s, step) && AllStored(s, h)
    ensures AllStored(Do(cfg, s, step), Record(cfg, s, h, step))
  {
    hide SafeInv, Do, Record, NodeStored;
    var s', h' := Do(cfg, s, step), Record(cfg, s, h, step);
    StepLater(cfg, s, h, step);
    forall n | n in s'.nodes ensures NodeStored(h', n, s'.nodes[n]) {
      NodeStep(cfg, s, h, step, n);
    }
  }

  lemma SortedNow(cfg: Config, s: State, h: History, n: NodeId)
    requires SafeInv(cfg, s, h) && n in s.nodes
    ensures Sorted(s.nodes[n].log, s.nodes[n].term) && Canon(h.termLog, s.nodes[n].log)
  {
    hide ElectionInv, LogInv, PeersOk, LockInv;
    LogAt(cfg, s, h, n);
  }

  lemma NodeStep(cfg: Config, s: State, h: History, step: Step, n: NodeId)
    requires SafeInv(cfg, s, h) && Enabled(cfg, s, step) && n in s.nodes && NodeStored(h, n, s.nodes[n])
    requires Later(s, h, Do(cfg, s, step), Record(cfg, s, h, step))
    ensures n in Do(cfg, s, step).nodes && NodeStored(Record(cfg, s, h, step), n, Do(cfg, s, step).nodes[n])
  {
    var s', h' := Do(cfg, s, step), Record(cfg, s, h, step);
    SortedNow(cfg, s, h, n);
    StepElectionOf(cfg, s, h, step);
    hide SafeInv;
    assert NodeForward(s.nodes[n], s'.nodes[n]);
    if step.Exchange? && step.p == n {
      var m := MessageTo(cfg, s, step.l, n);
      StoredAtReceiver(cfg, s, h, step.l, n, step.replyLost);
      ReceiverStored(h, h', n, s.nodes[n], m);
    } else if step.Client? && step.n == n {
    } else {
      LogUnchanged(cfg, s, step, n);
      SameLogStored(h, h', n, s.nodes[n], s'.nodes[n]);
    }
  }

  lemma LogUnchanged(cfg: Config, s: State, step: Step, n: NodeId)
    requires Enabled(cfg, s, step) && n in s.nodes && !(step.Exchange? && step.p == n) && !(step.Client? && step.n == n)
    ensures n in Do(cfg, s, step).nodes && Do(cfg, s, step).nodes[n].log == s.nodes[n].log
  {
    if step.Exchange? {
      var m := MessageTo(cfg, s, step.l, step.p);
      ReplyKeepsEntries(s.nodes[step.l], step.p, m, AppendReplyOf(s.nodes[step.p], m));
      hide HandleAppendReply, HandleAppend;
    }
  }

  lemma StoredAtReceiver(cfg: Config, s: State, h: History, l: NodeId, p: NodeId, lost: bool)
    requires Enabled(cfg, s, Exchange(l, p, lost)) && l != p
    ensures var m, h' := MessageTo(cfg, s, l, p), Record(cfg, s, h, Exchange(l, p, lost));
      && Do(cfg, s, Exchange(l, p, lost)).nodes[p] == HandleAppend(s.nodes[p], m)
      && (s.nodes[p].term <= m.term && Fits(s.nodes[p].log, m) && LastTerm(LogAfter(s.nodes[p].log, m)) == m.term ==>
            |LogAfter(s.nodes[p].log, m)| <= StoredUpTo(h', m.term, p))
  {
    hide HandleAppend, HandleAppendReply, LogAfter, Fits, AppendRequestOf;
  }

  lemma {:induction false} RunStored(cfg: Config, states: seq<State>, steps: seq<Step>, i: nat)
    requires TimelyRun(cfg, states, steps) && i <= |steps|
    ensures AllStored(states[i], HistoryAt(cfg, states, steps, i))
  {
    hide SafeInv, Do, Enabled, Record, TimelyStep, AllStored;
    if i == 0 {
      InitStored(cfg);
    } else {
      RunStored(cfg, states, steps, i - 1);
      RunSafe(cfg, states, steps, i - 1);
      StepStored(cfg, states[i - 1], HistoryAt(cfg, states, steps, i - 1), steps[i - 1]);
    }
  }

  lemma InitStored(cfg: Config)
    ensures AllStored(Init(cfg), NO_HISTORY)
  {
    assert forall n | n in Init(cfg).nodes :: Init(cfg).nodes[n] == InitNode(cfg, n);
  }

  // ---------------------------------------------------------------- acknowledged entries

  /** Who held the entry in its term is on record, and the entry is the author's. */
  lemma HeldIsOnRecord(cfg: Config, states: seq<State>, steps: seq<Step>, j: nat, p: NodeId, t: nat, log: Log, k: nat)
    requires TimelyRun(cfg, states, steps) && j <= |steps| && AckAt(states, j, p, t, log, k)
    requires 1 <= k <= |log| && log[k - 1].term == t
    ensures var h := HistoryAt(cfg, states, steps, j);
      p in cfg.members && Point(h, t, k) && Agree(log, h.termLog[t], k) && StoredUpTo(h, t, p) >= k
  {
    hide SafeInv, Do, Enabled, TimelyStep, HistoryAt;
    var h, n := HistoryAt(cfg, states, steps, j), states[j].nodes[p];
    RunSafe(cfg, states, steps, j);
    RunStored(cfg, states, steps, j);
    MemberCount(cfg, states[j], h);
    SortedNow(cfg, states[j], h, p);
    AgreeAt(n.log, log, k, k - 1);
    SortedLast(n.log, t, k);
    assert NodeStored(h, p, n);
    CanonPoint(h, n.log, t, k);
    AgreeTrans(n.log, log, n.log, k);
    AgreeTrans(log, n.log, h.termLog[t], k);
  }

  lemma CanonPoint(h: History, log: Log, t: nat, k: nat)
    requires Canon(h.termLog, log) && 1 <= k <= |log| && log[k - 1].term == t
    ensures Point(h, t, k) && Agree(log, h.termLog[t], k)
  {
    AgreeAt(log, h.termLog[t], k, k - 1);
  }

  /** The entry is locked once at least half of the members have acknowledged it. */
  lemma AcknowledgedLocks(cfg: Config, states: seq<State>, steps: seq<Step>, i: nat, a: set<NodeId>, t: nat, log: Log, k: nat)
    requires TimelyRun(cfg, states, steps) && i <= |steps| && AllAcknowledged(states, i, a, t, log, k)
    requires 1 <= k <= |log| && log[k - 1].term == t && a != {} && 2 * |a| >= |cfg.members|
    ensures var h := HistoryAt(cfg, states, steps, i);
      Locked(states[i], h, t, k) && Agree(log, h.termLog[t], k)
  {
    hide SafeInv, Do, Enabled, TimelyStep, HistoryAt, Acknowledged;
    var h, s := HistoryAt(cfg, states, steps, i), states[i];
    RunSafe(cfg, states, steps, i);
    MemberCount(cfg, s, h);
    forall p | p in a ensures p in Keepers(s, h, t, k) && Point(h, t, k) && Agree(log, h.termLog[t], k) {
      StaysOnRecord(cfg, states, steps, i, p, t, log, k);
    }
    SubsetSize(a, Keepers(s, h, t, k));
    var p :| p in a;
    assert |s.nodes| == |s.nodes.Keys|;
  }

  lemma StaysOnRecord(cfg: Config, states: seq<State>, steps: seq<Step>, i: nat, p: NodeId, t: nat, log: Log, k: nat)
    requires TimelyRun(cfg, states, steps) && i <= |steps| && Acknowledged(states, i, p, t, log, k)
    requires 1 <= k <= |log| && log[k - 1].term == t
    ensures var h := HistoryAt(cfg, states, steps, i);
      p in cfg.members && Point(h, t, k) && Agree(log, h.termLog[t], k) && StoredUpTo(h, t, p) >= k
  {
    hide SafeInv, Do, Enabled, TimelyStep, HistoryAt;
    var j: nat :| j <= i && AckAt(states, j, p, t, log, k);
    HeldIsOnRecord(cfg, states, steps, j, p, t, log, k);
    RunLater(cfg, states, steps, j, i);
    var hj, hi := HistoryAt(cfg, states, steps, j), HistoryAt(cfg, states, steps, i);
    assert StoredUpTo(hj, t, p) <= StoredUpTo(hi, t, p);
    PointAfter(hj, hi, t, k);
    AgreePrefix(log, hj.termLog[t], hi.termLog[t], k);
  }

  /** Leader completeness: an entry that at least half of the members held while in its own term, at
      moments up to i, is with all before it in the log of every leader of a later term, at any moment. */
  lemma AcknowledgedIsComplete(cfg: Config, states: seq<State>, steps: seq<Step>, i: nat, j: nat, a: set<NodeId>, t: nat, log: Log, k: nat, m: NodeId)
    requires TimelyRun(cfg, states, steps) && i <= |steps| && j <= |steps| && AllAcknowledged(states, i, a, t, log, k)
    requires 1 <= k <= |log| && log[k - 1].term == t && 2 * |a| >= |cfg.members|
    requires m in states[j].nodes && states[j].nodes[m].role == Leader && t < states[j].nodes[m].term
    ensures Agree(log, states[j].nodes[m].log, k)
  {
    hide SafeInv, Later, Do, Enabled, TimelyStep, HistoryAt;
    var hi, hj := HistoryAt(cfg, states, steps, i), HistoryAt(cfg, states, steps, j);
    RunSafe(cfg, states, steps, i);
    RunSafe(cfg, states, steps, j);
    NotEmpty(cfg, states, steps, j, m, a);
    AcknowledgedLocks(cfg, states, steps, i, a, t, log, k);
    if i <= j {
      RunLater(cfg, states, steps, i, j);
      LockedInLaterLeader(cfg, states[i], hi, states[j], hj, t, k, m);
    } else {
      RunLater(cfg, states, steps, j, i);
      LockedInEarlierLeader(cfg, states[j], hj, states[i], hi, t, k, m);
    }
    AgreeTrans(log, hi.termLog[t], states[j].nodes[m].log, k);
  }

  lemma NotEmpty(cfg: Config, states: seq<State>, steps: seq<Step>, j: nat, m: NodeId, a: set<NodeId>)
    requires TimelyRun(cfg, states, steps) && j <= |steps| && m in states[j].nodes && 2 * |a| >= |cfg.members|
    ensures a != {}
  {
    hide SafeInv, Do, Enabled, TimelyStep, HistoryAt;
    RunSafe(cfg, states, steps, j);
    MemberCount(cfg, states[j], HistoryAt(cfg, states, steps, j));
    SubsetSize({m}, cfg.members);
  }
}
