/** The main results about runs of a cluster.  Every theorem is about all runs, of any length, of a
    cluster with any number of members, in which replies to vote requests are timely. */
module Safety {
  import opened Types
  import opened Protocol
  import opened Cluster
  import opened Elections
  import opened Logs
  import opened Replication
  import opened Steps
  import opened Locks
  import opened Commits

  ghost predicate TimelyRun(cfg: Config, states: seq<State>, steps: seq<Step>) {
    IsRun(cfg, states, steps) && Timely(states, steps)
  }

  /** Run hypothesis for clusters of five and more members: each advance of a leader's commit index
      lands on an entry of the leader's own term. */
  ghost predicate ObeysCommitRule(cfg: Config, states: seq<State>, steps: seq<Step>)
    requires IsRun(cfg, states, steps)
  {
    forall i | 0 <= i < |steps| :: CommitRuleStep(cfg, states[i], steps[i])
  }

  /** The history of the first i steps of a run. */
  ghost function HistoryAt(cfg: Config, states: seq<State>, steps: seq<Step>, i: nat): History
    requires IsRun(cfg, states, steps) && i <= |steps|
  {
    if i == 0 then NO_HISTORY
    else Record(cfg, states[i - 1], HistoryAt(cfg, states, steps, i - 1), steps[i - 1])
  }

  lemma {:induction false} RunSafe(cfg: Config, states: seq<State>, steps: seq<Step>, i: nat)
    requires TimelyRun(cfg, states, steps) && i <= |steps|
    ensures SafeInv(cfg, states[i], HistoryAt(cfg, states, steps, i))
  {
    hide SafeInv, Do, Enabled, Record, TimelyStep;
    if i == 0 {
      InitSafe(cfg);
    } else {
      RunSafe(cfg, states, steps, i - 1);
      StepSafe(cfg, states[i - 1], HistoryAt(cfg, states, steps, i - 1), steps[i - 1]);
    }
  }

  lemma {:induction false} RunCommits(cfg: Config, states: seq<State>, steps: seq<Step>, i: nat)
    requires TimelyRun(cfg, states, steps) && ObeysCommitRule(cfg, states, steps) && i <= |steps|
    ensures SafeInv(cfg, states[i], HistoryAt(cfg, states, steps, i))
    ensures CommitsOk(states[i], HistoryAt(cfg, states, steps, i))
  {
    hide SafeInv, CommitsOk, AllKept, Do, Enabled, Record, TimelyStep, CommitRuleStep;
    if i == 0 {
      InitSafe(cfg);
      InitCommits(cfg);
    } else {
      RunCommits(cfg, states, steps, i - 1);
      StepCommits(cfg, states[i - 1], HistoryAt(cfg, states, steps, i - 1), steps[i - 1]);
    }
  }

  lemma InitCommits(cfg: Config)
    ensures CommitsOk(Init(cfg), NO_HISTORY)
  {
    assert forall n | n in Init(cfg).nodes :: Init(cfg).nodes[n] == InitNode(cfg, n);
  }

  // ---------------------------------------------------------------- elections

  /** At every moment at most one node leads a term. */
  lemma OneLeaderAtATime(cfg: Config, states: seq<State>, steps: seq<Step>, i: nat, a: NodeId, b: NodeId)
    requires TimelyRun(cfg, states, steps) && i <= |steps|
    requires a in states[i].nodes && b in states[i].nodes
    requires states[i].nodes[a].role == Leader && states[i].nodes[b].role == Leader
    requires states[i].nodes[a].term == states[i].nodes[b].term
    ensures a == b
  {
    hide LogInv, PeersOk, LockInv, ElectionInv;
    RunSafe(cfg, states, steps, i);
    OneLeaderNow(cfg, states[i], HistoryAt(cfg, states, steps, i), a, b);
  }

  // ---------------------------------------------------------------- logs

  /** Log matching: logs that hold entries with the same index and term are identical up to that index. */
  lemma LogMatching(cfg: Config, states: seq<State>, steps: seq<Step>, i: nat, a: NodeId, b: NodeId, k: nat)
    requires TimelyRun(cfg, states, steps) && i <= |steps|
    requires a in states[i].nodes && b in states[i].nodes
    requires 1 <= k <= |states[i].nodes[a].log| && k <= |states[i].nodes[b].log|
    requires states[i].nodes[a].log[k - 1].term == states[i].nodes[b].log[k - 1].term
    ensures states[i].nodes[a].log[..k] == states[i].nodes[b].log[..k]
  {
    hide LogInv, PeersOk, LockInv, ElectionInv;
    var h := HistoryAt(cfg, states, steps, i);
    RunSafe(cfg, states, steps, i);
    LogAt(cfg, states[i], h, a);
    LogAt(cfg, states[i], h, b);
    CanonAgree(h.termLog, states[i].nodes[a].log, states[i].nodes[b].log, k);
  }

  // ---------------------------------------------------------------- commit and apply

  /** What a node applied stays in its log, and it never applies less. */
  lemma {:induction false} AppliedStays(cfg: Config, states: seq<State>, steps: seq<Step>, i: nat, j: nat, n: NodeId)
    requires TimelyRun(cfg, states, steps) && ObeysCommitRule(cfg, states, steps) && i <= j <= |steps|
    requires n in cfg.members
    ensures n in states[i].nodes && n in states[j].nodes && states[i].nodes[n].applied <= states[j].nodes[n].applied
    ensures Agree(states[i].nodes[n].log, states[j].nodes[n].log, states[i].nodes[n].applied)
    decreases j
  {
    hide SafeInv, CommitsOk, AllKept, NodeSafe, Do, Enabled, Record, HistoryAt, TimelyStep, CommitRuleStep;
    RunCommits(cfg, states, steps, j);
    NodeIsSafe(cfg, states[j], HistoryAt(cfg, states, steps, j), n);
    if i < j {
      AppliedStays(cfg, states, steps, i, j - 1, n);
      RunCommits(cfg, states, steps, j - 1);
      StepCommits(cfg, states[j - 1], HistoryAt(cfg, states, steps, j - 1), steps[j - 1]);
      KeptTrans(states[j - 1], states[j], n, states[i].nodes[n].log, states[i].nodes[n].applied);
    }
  }

  lemma NodeIsSafe(cfg: Config, s: State, h: History, n: NodeId)
    requires SafeInv(cfg, s, h) && CommitsOk(s, h) && n in cfg.members
    ensures n in s.nodes && NodeSafe(s, h, s.nodes[n])
    ensures s.nodes[n].applied <= |s.nodes[n].log| && s.nodes[n].commit <= |s.nodes[n].log|
  {
    hide SafeInv, Safe;
    MemberCount(cfg, s, h);
    var m := s.nodes[n];
    assert NodeSafe(s, h, m);
    SafeLength(s, h, m.term, m.log, m.applied);
    SafeLength(s, h, m.term, m.log, m.commit);
  }

  lemma KeptTrans(s: State, s': State, n: NodeId, log: Log, i: nat)
    requires AllKept(s, s') && n in s.nodes && Agree(log, s.nodes[n].log, i) && i <= s.nodes[n].applied
    ensures Agree(log, s'.nodes[n].log, i) && s.nodes[n].applied <= s'.nodes[n].applied
  {
    assert Kept(s.nodes[n], s'.nodes[n]);
    AgreeLess(s.nodes[n].log, s'.nodes[n].log, s.nodes[n].applied, i);
    AgreeTrans(log, s.nodes[n].log, s'.nodes[n].log, i);
  }

  /** The entries that node n handed to its state machine in the first i steps, in order. */
  ghost function AppliedBy(cfg: Config, states: seq<State>, steps: seq<Step>, i: nat, n: NodeId): seq<Entry>
    requires IsRun(cfg, states, steps) && i <= |steps|
  {
    if i == 0 then []
    else
      var before := AppliedBy(cfg, states, steps, i - 1, n);
      if steps[i - 1] == Apply(n) then
        var m := states[i - 1].nodes[n];
        if m.applied < m.commit <= |m.log| then before + m.log[m.applied..m.commit] else before
      else before
  }

  lemma {:induction false} AppliedIsPrefix(cfg: Config, states: seq<State>, steps: seq<Step>, i: nat, n: NodeId)
    requires TimelyRun(cfg, states, steps) && ObeysCommitRule(cfg, states, steps) && i <= |steps| && n in cfg.members
    ensures n in states[i].nodes && states[i].nodes[n].applied <= |states[i].nodes[n].log|
    ensures AppliedBy(cfg, states, steps, i, n) == states[i].nodes[n].log[..states[i].nodes[n].applied]
    decreases i
  {
    hide SafeInv, CommitsOk, AllKept, NodeSafe, Record, Do, Enabled, Agree, ApplyCommitted, HistoryAt, CommitRuleStep, TimelyStep;
    RunCommits(cfg, states, steps, i);
    NodeIsSafe(cfg, states[i], HistoryAt(cfg, states, steps, i), n);
    if i == 0 {
      assert states[0].nodes[n] == InitNode(cfg, n);
    } else {
      AppliedIsPrefix(cfg, states, steps, i - 1, n);
      AppliedStays(cfg, states, steps, i - 1, i, n);
      CommitBounded(cfg, states, steps, i - 1, n);
      OnlyApplyApplies(cfg, states[i - 1], steps[i - 1], n);
      PrefixStep(AppliedBy(cfg, states, steps, i - 1, n), states[i - 1].nodes[n], states[i].nodes[n], steps[i - 1] == Apply(n));
    }
  }

  lemma CommitBounded(cfg: Config, states: seq<State>, steps: seq<Step>, i: nat, n: NodeId)
    requires TimelyRun(cfg, states, steps) && ObeysCommitRule(cfg, states, steps) && i <= |steps| && n in cfg.members
    ensures n in states[i].nodes && states[i].nodes[n].commit <= |states[i].nodes[n].log|
  {
    hide SafeInv, CommitsOk, NodeSafe, Do, Enabled;
    RunCommits(cfg, states, steps, i);
    NodeIsSafe(cfg, states[i], HistoryAt(cfg, states, steps, i), n);
  }

  lemma PrefixStep(before: seq<Entry>, a: Node, b: Node, apply: bool)
    requires a.applied <= |a.log| && a.commit <= |a.log| && b.applied <= |b.log| && before == a.log[..a.applied]
    requires if apply then b == ApplyCommitted(a) else b.applied == a.applied && Agree(a.log, b.log, a.applied)
    ensures b.log[..b.applied] == if apply && a.applied < a.commit then before + a.log[a.applied..a.commit] else before
  {
  }

  lemma OnlyApplyApplies(cfg: Config, s: State, step: Step, n: NodeId)
    requires Enabled(cfg, s, step) && n in s.nodes
    ensures var n' := Do(cfg, s, step).nodes[n];
      if step == Apply(n) then n' == ApplyCommitted(s.nodes[n]) else n'.applied == s.nodes[n].applied
  {
  }

  /** State machine safety: the sequences of entries that any two nodes applied, up to any two
      moments of a run, never differ at an index. */
  lemma StateMachineSafety(cfg: Config, states: seq<State>, steps: seq<Step>, i: nat, j: nat, a: NodeId, b: NodeId)
    requires TimelyRun(cfg, states, steps) && ObeysCommitRule(cfg, states, steps) && i <= |steps| && j <= |steps|
    requires a in cfg.members && b in cfg.members
    ensures AppliedBy(cfg, states, steps, i, a) <= AppliedBy(cfg, states, steps, j, b)
         || AppliedBy(cfg, states, steps, j, b) <= AppliedBy(cfg, states, steps, i, a)
  {
    hide SafeInv, CommitsOk, Safe, AppliedBy;
    var last := if i <= j then j else i;
    AppliedIsPrefix(cfg, states, steps, i, a);
    AppliedIsPrefix(cfg, states, steps, j, b);
    AppliedStays(cfg, states, steps, i, last, a);
    AppliedStays(cfg, states, steps, j, last, b);
    RunCommits(cfg, states, steps, last);
    var h, x, y := HistoryAt(cfg, states, steps, last), states[last].nodes[a], states[last].nodes[b];
    NodeIsSafe(cfg, states[last], h, a);
    NodeIsSafe(cfg, states[last], h, b);
    SafeAgree(cfg, states[last], h, x.term, x.log, x.applied, y.term, y.log, y.applied);
    PrefixesCompare(states[i].nodes[a].log, states[i].nodes[a].applied, x.log,
                    states[j].nodes[b].log, states[j].nodes[b].applied, y.log, Min(x.applied, y.applied));
  }

  lemma PrefixesCompare(a: Log, i: nat, x: Log, b: Log, j: nat, y: Log, k: nat)
    requires Agree(a, x, i) && Agree(b, y, j) && Agree(x, y, k) && Min(i, j) <= k
    ensures a[..i] <= b[..j] || b[..j] <= a[..i]
  {
    var m := Min(i, j);
    AgreeLess(a, x, i, m);
    AgreeLess(b, y, j, m);
    AgreeLess(x, y, k, m);
    assert a[..i][..m] == a[..m] && b[..j][..m] == b[..m];
  }

  // ---------------------------------------------------------------- what a run keeps

  ghost predicate AuthorsKept(h: History, h': History) {
    forall t | t in h.author :: t in h'.author && h'.author[t] == h.author[t]
  }

  ghost predicate Later(s: State, h: History, s': State, h': History) {
    && Forward(s, s') && Extends(h.candLog, h'.candLog) && Grows(h.termLog, h'.termLog)
    && StoredGrows(h, h') && AuthorsKept(h, h')
  }

  lemma LaterTrans(a: State, ha: History, b: State, hb: History, c: State, hc: History)
    requires Later(a, ha, b, hb) && Later(b, hb, c, hc)
    ensures Later(a, ha, c, hc)
  {
    ForwardTrans(a, b, c);
    forall t, n ensures StoredUpTo(ha, t, n) <= StoredUpTo(hc, t, n) {
      assert StoredUpTo(ha, t, n) <= StoredUpTo(hb, t, n) <= StoredUpTo(hc, t, n);
    }
    hide Forward, StoredGrows;
    forall t | t in ha.termLog ensures t in hc.termLog && ha.termLog[t] <= hc.termLog[t] {
      assert ha.termLog[t] <= hb.termLog[t] <= hc.termLog[t];
    }
  }

  lemma StepAuthors(cfg: Config, s: State, h: History, step: Step)
    requires SafeInv(cfg, s, h) && Enabled(cfg, s, step)
    ensures AuthorsKept(h, Record(cfg, s, h, step))
  {
    hide ElectionInv, PeersOk, LockInv, LogInv;
    if step.Client? {
      NodeAt(cfg, s, h, step.n);
      if s.nodes[step.n].term in h.author {
        AuthorHasLog(cfg, s, h, s.nodes[step.n].term);
        LeaderOwns(cfg, s, h, step.n);
      }
    }
  }

  lemma AuthorHasLog(cfg: Config, s: State, h: History, t: nat)
    requires LogInv(cfg, s, h) && t in h.author
    ensures t in h.termLog
  {
  }

  lemma {:induction false} RunLater(cfg: Config, states: seq<State>, steps: seq<Step>, i: nat, j: nat)
    requires TimelyRun(cfg, states, steps) && i <= j <= |steps|
    ensures Later(states[i], HistoryAt(cfg, states, steps, i), states[j], HistoryAt(cfg, states, steps, j))
    decreases j
  {
    hide SafeInv, Later, Record, Init;
    var hi := HistoryAt(cfg, states, steps, i);
    if i == j {
      LaterRefl(states[i], hi);
    } else {
      RunLater(cfg, states, steps, i, j - 1);
      RunSafe(cfg, states, steps, j - 1);
      StepLater(cfg, states[j - 1], HistoryAt(cfg, states, steps, j - 1), steps[j - 1]);
      LaterTrans(states[i], hi, states[j - 1], HistoryAt(cfg, states, steps, j - 1), states[j], HistoryAt(cfg, states, steps, j));
    }
  }

  lemma LaterRefl(s: State, h: History)
    ensures Later(s, h, s, h)
  {
  }

  lemma StepLater(cfg: Config, s: State, h: History, step: Step)
    requires SafeInv(cfg, s, h) && Enabled(cfg, s, step) && TimelyStep(s, step)
    ensures Later(s, h, Do(cfg, s, step), Record(cfg, s, h, step))
  {
    hide SafeInv, Forward, Do, Record;
    StepSafe(cfg, s, h, step);
    StepAuthors(cfg, s, h, step);
  }

  /** Terms never go down in a run with timely replies. */
  lemma TermsNeverGoDown(cfg: Config, states: seq<State>, steps: seq<Step>, i: nat, j: nat, n: NodeId)
    requires TimelyRun(cfg, states, steps) && i <= j <= |steps| && n in cfg.members
    ensures n in states[i].nodes && n in states[j].nodes && states[i].nodes[n].term <= states[j].nodes[n].term
  {
    hide SafeInv;
    RunSafe(cfg, states, steps, i);
    MemberCount(cfg, states[i], HistoryAt(cfg, states, steps, i));
    RunLater(cfg, states, steps, i, j);
    assert NodeForward(states[i].nodes[n], states[j].nodes[n]);
  }

  // ---------------------------------------------------------------- leader completeness

  /** An entry that a strict majority acknowledged to its own term's leader is in the log of every
      leader of a later term, whether that leader is elected before or after the acknowledgement. */
  lemma LeaderCompleteness(cfg: Config, states: seq<State>, steps: seq<Step>, i: nat, l: NodeId, k: nat, j: nat, m: NodeId)
    requires TimelyRun(cfg, states, steps) && i <= |steps| && j <= |steps|
    requires l in states[i].nodes && states[i].nodes[l].role == Leader
    requires 1 <= k <= |states[i].nodes[l].log| && states[i].nodes[l].log[k - 1].term == states[i].nodes[l].term
    requires Held(states[i].nodes[l].matched, k)
    requires m in states[j].nodes && states[j].nodes[m].role == Leader && states[i].nodes[l].term < states[j].nodes[m].term
    ensures Agree(states[i].nodes[l].log, states[j].nodes[m].log, k)
  {
    hide SafeInv, Later;
    var hi, hj, t := HistoryAt(cfg, states, steps, i), HistoryAt(cfg, states, steps, j), states[i].nodes[l].term;
    RunSafe(cfg, states, steps, i);
    RunSafe(cfg, states, steps, j);
    LeaderKeeps(cfg, states[i], hi, l, k);
    CountLocks(cfg, states[i], hi, l, k);
    if i <= j {
      RunLater(cfg, states, steps, i, j);
      LockedInLaterLeader(cfg, states[i], hi, states[j], hj, t, k, m);
    } else {
      RunLater(cfg, states, steps, j, i);
      LockedInEarlierLeader(cfg, states[j], hj, states[i], hi, t, k, m);
    }
  }

  lemma LockedInLaterLeader(cfg: Config, s: State, h: History, s': State, h': History, t: nat, k: nat, m: NodeId)
    requires SafeInv(cfg, s', h') && Locked(s, h, t, k) && Later(s, h, s', h')
    requires m in s'.nodes && s'.nodes[m].role == Leader && t < s'.nodes[m].term
    ensures Agree(h.termLog[t], s'.nodes[m].log, k)
  {
    hide CoreInv;
    LockedStays(s, h, s', h', t, k);
    LockedIsOpen(s', h', t, k);
    LeaderHolds(cfg, s', h', t, k, m);
    assert h'.termLog[t][..k] == h.termLog[t][..k];
  }

  lemma LockedInEarlierLeader(cfg: Config, s: State, h: History, s': State, h': History, t: nat, k: nat, m: NodeId)
    requires SafeInv(cfg, s, h) && SafeInv(cfg, s', h') && Locked(s', h', t, k) && Later(s, h, s', h')
    requires m in s.nodes && s.nodes[m].role == Leader && t < s.nodes[m].term
    ensures Agree(h'.termLog[t], s.nodes[m].log, k)
  {
    hide ElectionInv, LogInv, PeersOk, StoredOk, HoldOk, BackOk;
    var c := Key(s.nodes[m].term, m);
    LeaderLog(cfg, s, h, m);
    LeaderMajority(cfg, s, h, m);
    NodeAt(cfg, s', h', m);
    ForwardMajority(cfg, s, s', c.term, m);
    LockedIsOpen(s', h', t, k);
    WinnerHolds(cfg, s', h', t, k, c);
    AgreePrefix(h'.termLog[t], h'.candLog[c], s.nodes[m].log, k);
  }

  lemma LeaderMajority(cfg: Config, s: State, h: History, m: NodeId)
    requires ElectionInv(cfg, s, h) && m in s.nodes && s.nodes[m].role == Leader
    ensures Majority(cfg, Voters(s, s.nodes[m].term, m))
  {
  }

  // ---------------------------------------------------------------- one author per term

  /** Client entries of one term are all appended by the same node, even though a term can change leaders. */
  lemma UniqueAuthor(cfg: Config, states: seq<State>, steps: seq<Step>, i: nat, j: nat, a: NodeId, b: NodeId, opA: Op, opB: Op)
    requires TimelyRun(cfg, states, steps) && i < j < |steps|
    requires steps[i] == Client(a, opA) && steps[j] == Client(b, opB)
    requires states[i].nodes[a].term == states[j].nodes[b].term
    ensures a == b
  {
    hide ElectionInv, LogInv, PeersOk, LockInv, Forward, Grows, StoredGrows, Extends;
    var h, hj, t := HistoryAt(cfg, states, steps, i + 1), HistoryAt(cfg, states, steps, j), states[i].nodes[a].term;
    RunSafe(cfg, states, steps, j);
    RunLater(cfg, states, steps, i + 1, j);
    assert t in h.author && h.author[t] == a;
    NodeAt(cfg, states[j], hj, b);
    AuthorHasLog(cfg, states[j], hj, t);
    LeaderOwns(cfg, states[j], hj, b);
  }

  ghost predicate Appended(states: seq<State>, steps: seq<Step>, i: nat, e: Entry)
    requires i < |states| && i < |steps|
  {
    exists a, op :: steps[i] == Client(a, op) && a in states[i].nodes && e == Entry(states[i].nodes[a].term, op)
  }

  /** Every entry in any log was appended by a client step of the leader of the entry's term. */
  lemma {:induction false} EntryOrigin(cfg: Config, states: seq<State>, steps: seq<Step>, j: nat, n: NodeId, x: nat)
    requires IsRun(cfg, states, steps) && j <= |steps|
    requires n in states[j].nodes && x < |states[j].nodes[n].log|
    ensures exists i: nat :: i < j && Appended(states, steps, i, states[j].nodes[n].log[x])
    decreases j
  {
    var e := states[j].nodes[n].log[x];
    if j > 0 {
      var s, step := states[j - 1], steps[j - 1];
      if step.Client? && step.n == n && x == |s.nodes[n].log| {
        assert Appended(states, steps, j - 1, e);
      } else {
        var m, y := EntryBefore(cfg, s, step, n, x);
        EntryOrigin(cfg, states, steps, j - 1, m, y);
      }
    }
  }

  /** An entry that a step does not create was in some log before it. */
  lemma EntryBefore(cfg: Config, s: State, step: Step, n: NodeId, x: nat) returns (m: NodeId, y: nat)
    requires Enabled(cfg, s, step) && n in Do(cfg, s, step).nodes && x < |Do(cfg, s, step).nodes[n].log|
    requires !(step.Client? && step.n == n && x == |s.nodes[n].log|)
    ensures m in s.nodes && y < |s.nodes[m].log| && s.nodes[m].log[y] == Do(cfg, s, step).nodes[n].log[x]
  {
    m, y := n, x;
    match step {
      case Exchange(l, p, lost) =>
        var msg := MessageTo(cfg, s, l, p);
        ReplyKeepsEntries(s.nodes[l], p, msg, AppendReplyOf(s.nodes[p], msg));
        ReceivedEntry(cfg.limits, s.nodes[l], l, p, s.nodes[p], x);
        hide HandleAppend, HandleAppendReply, AppendReplyOf, AppendRequestOf;
        if n == p && n != l && !(x < |s.nodes[p].log| && HandleAppend(s.nodes[p], msg).log[x] == s.nodes[p].log[x]) { m := l; }
      case _ =>
    }
  }

  lemma ReplyKeepsEntries(l: Node, p: NodeId, m: AppendRequest, r: AppendReply)
    requires p in l.next
    ensures HandleAppendReply(l, p, m, r).log == l.log
  {
  }

  /** What the receiver holds at an index afterwards was there before, or is the sender's. */
  lemma ReceivedEntry(limits: Limits, l: Node, self: NodeId, p: NodeId, f: Node, x: nat)
    requires p in l.next
    ensures var log := HandleAppend(f, AppendRequestOf(limits, l, self, l.next[p])).log;
      x < |log| ==> (x < |f.log| && log[x] == f.log[x]) || (x < |l.log| && log[x] == l.log[x])
  {
    var m := AppendRequestOf(limits, l, self, l.next[p]);
    hide AppendRequestOf, BatchFrom;
  }

  // ---------------------------------------------------------------- match indices

  /** While a node leads a term, every peer still in that term agrees with it through the peer's match index. */
  lemma MatchSoundness(cfg: Config, states: seq<State>, steps: seq<Step>, i: nat, l: NodeId, p: NodeId)
    requires TimelyRun(cfg, states, steps) && i <= |steps|
    requires l in states[i].nodes && states[i].nodes[l].role == Leader && p in cfg.members && p != l
    ensures p in states[i].nodes && p in states[i].nodes[l].matched && p in states[i].nodes[l].next
    ensures states[i].nodes[l].matched[p] <= |states[i].nodes[l].log| && states[i].nodes[l].next[p] <= |states[i].nodes[l].log| + 1
    ensures states[i].nodes[p].term <= states[i].nodes[l].term ==>
      Agree(states[i].nodes[p].log, states[i].nodes[l].log, states[i].nodes[l].matched[p])
  {
    hide ElectionInv, LogInv, PeersOk, LockInv;
    var h := HistoryAt(cfg, states, steps, i);
    RunSafe(cfg, states, steps, i);
    MemberCount(cfg, states[i], h);
    OnePair(cfg, states[i], h, l, p);
  }

  /** Where a match index comes from: it was there before, or this step is the acknowledgement. */
  lemma MatchOrigin(cfg: Config, s: State, h: History, step: Step, l: NodeId, p: NodeId)
    requires SafeInv(cfg, s, h) && Enabled(cfg, s, step) && TimelyStep(s, step)
    requires l in s.nodes && Do(cfg, s, step).nodes[l].role == Leader && p in Do(cfg, s, step).nodes[l].matched
    requires Do(cfg, s, step).nodes[l].matched[p] > 0
    ensures var s' := Do(cfg, s, step);
      || (&& s.nodes[l].role == Leader && s.nodes[l].term == s'.nodes[l].term && s.nodes[l].log <= s'.nodes[l].log
          && p in s.nodes[l].matched && s.nodes[l].matched[p] == s'.nodes[l].matched[p])
      || (p in s'.nodes && s'.nodes[p].term == s'.nodes[l].term)
  {
    hide SafeInv;
    StepElectionOf(cfg, s, h, step);
    match step {
      case TakeReply(y) =>
        if y.candidate == l { TakeReplyMatch(|cfg.members|, y, s.nodes[l]); }
      case Exchange(a, b, lost) =>
        var m := MessageTo(cfg, s, a, b);
        if l == a && p == b && !lost {
          AcknowledgedInTerm(s.nodes[a], b, m, s.nodes[b]);
        } else {
          ExchangeMatch(s.nodes[a], b, m, AppendReplyOf(s.nodes[b], m));
          ReceiverMatch(cfg, s, h, a, b);
        }
      case _ =>
    }
  }

  lemma StepElectionOf(cfg: Config, s: State, h: History, step: Step)
    requires SafeInv(cfg, s, h) && Enabled(cfg, s, step)
    ensures step.Exchange? ==> step.l != step.p
  {
    hide ElectionInv, LogInv, PeersOk, LockInv;
    if step.Exchange? { NodeAt(cfg, s, h, step.l); }
  }

  lemma TakeReplyMatch(size: nat, y: VoteReply, n: Node)
    ensures var n' := HandleVoteReply(n, y.candidate, size, y);
      n'.role == Leader ==> n' == n || forall p | p in n'.matched :: n'.matched[p] == 0
  {
  }

  lemma ExchangeMatch(l: Node, p: NodeId, m: AppendRequest, r: AppendReply)
    requires p in l.next
    ensures var l' := HandleAppendReply(l, p, m, r);
      && l'.log == l.log && (l'.role == Leader ==> l.role == Leader && l'.term == l.term)
      && forall b | b in l'.matched && b != p :: b in l.matched && l'.matched[b] == l.matched[b]
  {
  }

  lemma AcknowledgedInTerm(l: Node, p: NodeId, m: AppendRequest, f: Node)
    requires p in l.next && m.term == l.term
    ensures HandleAppendReply(l, p, m, AppendReplyOf(f, m)).role == Leader && l.role == Leader ==>
      HandleAppend(f, m).term == HandleAppendReply(l, p, m, AppendReplyOf(f, m)).term == l.term
  {
  }

  lemma ReceiverMatch(cfg: Config, s: State, h: History, l: NodeId, p: NodeId)
    requires SafeInv(cfg, s, h) && Enabled(cfg, s, Exchange(l, p, false))
    ensures HandleAppend(s.nodes[p], MessageTo(cfg, s, l, p)).role == Leader ==>
      HandleAppend(s.nodes[p], MessageTo(cfg, s, l, p)) == s.nodes[p]
  {
    LeadersApart(cfg, s, h, l, p);
    hide SafeInv;
    LeaderIgnores(s.nodes[p], MessageTo(cfg, s, l, p));
  }

  lemma LeadersApart(cfg: Config, s: State, h: History, l: NodeId, p: NodeId)
    requires SafeInv(cfg, s, h) && l in s.nodes && p in s.nodes && s.nodes[l].role == Leader && p in s.nodes[l].next
    ensures s.nodes[p].role == Leader ==> s.nodes[p].term != s.nodes[l].term
  {
    hide ElectionInv, LogInv, PeersOk, LockInv;
    NodeAt(cfg, s, h, l);
    if s.nodes[p].role == Leader && s.nodes[p].term == s.nodes[l].term { OneLeaderNow(cfg, s, h, l, p); }
  }

  lemma LeaderIgnores(n: Node, m: AppendRequest)
    requires n.role == Leader ==> n.term != m.term
    ensures HandleAppend(n, m).role == Leader ==> HandleAppend(n, m) == n
  {
  }

  /** p held the first k entries of `log` while it was in term t, at some moment up to i. */
  ghost predicate Acknowledged(states: seq<State>, i: nat, p: NodeId, t: nat, log: Log, k: nat) {
    exists j: nat :: j <= i && AckAt(states, j, p, t, log, k)
  }

  ghost predicate AckAt(states: seq<State>, j: nat, p: NodeId, t: nat, log: Log, k: nat) {
    j < |states| && p in states[j].nodes && states[j].nodes[p].term == t && Agree(states[j].nodes[p].log, log, k)
  }

  /** Every match index of a leader was acknowledged by the peer in the leader's term, with identical entries. */
  lemma {:induction false} MatchAcknowledged(cfg: Config, states: seq<State>, steps: seq<Step>, i: nat, l: NodeId, p: NodeId)
    requires TimelyRun(cfg, states, steps) && i <= |steps|
    requires l in states[i].nodes && states[i].nodes[l].role == Leader
    requires p in states[i].nodes[l].matched && states[i].nodes[l].matched[p] > 0
    ensures Acknowledged(states, i, p, states[i].nodes[l].term, states[i].nodes[l].log, states[i].nodes[l].matched[p])
    decreases i
  {
    hide SafeInv;
    var k, t, log := states[i].nodes[l].matched[p], states[i].nodes[l].term, states[i].nodes[l].log;
    InitNoLeader(cfg);
    if i > 0 {
      RunSafe(cfg, states, steps, i - 1);
      MatchOrigin(cfg, states[i - 1], HistoryAt(cfg, states, steps, i - 1), steps[i - 1], l, p);
      if p in states[i].nodes && states[i].nodes[p].term == t {
        MemberMatch(cfg, states, steps, i, l, p);
        assert AckAt(states, i, p, t, log, k);
      } else {
        MatchAcknowledged(cfg, states, steps, i - 1, l, p);
        var old_ := states[i - 1].nodes[l].log;
        var j: nat :| j <= i - 1 && AckAt(states, j, p, t, old_, k);
        AgreePrefix(states[j].nodes[p].log, old_, log, k);
        assert AckAt(states, j, p, t, log, k);
      }
    }
  }

  lemma InitNoLeader(cfg: Config)
    ensures forall n | n in Init(cfg).nodes :: Init(cfg).nodes[n].role != Leader
  {
    assert forall n | n in Init(cfg).nodes :: Init(cfg).nodes[n] == InitNode(cfg, n);
  }

  lemma MemberMatch(cfg: Config, states: seq<State>, steps: seq<Step>, i: nat, l: NodeId, p: NodeId)
    requires TimelyRun(cfg, states, steps) && i <= |steps|
    requires l in states[i].nodes && states[i].nodes[l].role == Leader && p in states[i].nodes[l].matched
    ensures p in states[i].nodes && p != l
    ensures states[i].nodes[p].term <= states[i].nodes[l].term ==>
      Agree(states[i].nodes[p].log, states[i].nodes[l].log, states[i].nodes[l].matched[p])
  {
    hide ElectionInv, LogInv, PeersOk, LockInv;
    RunSafe(cfg, states, steps, i);
    NodeAt(cfg, states[i], HistoryAt(cfg, states, steps, i), l);
    MatchSoundness(cfg, states, steps, i, l, p);
  }

  /** Whenever a leader's commit index rises to q, a strict majority, the leader included, held
      identical entries up to q while it was in the leader's term. */
  lemma CommitHasMajority(cfg: Config, states: seq<State>, steps: seq<Step>, i: nat, l: NodeId)
    requires TimelyRun(cfg, states, steps) && i < |steps| && steps[i].Exchange? && steps[i].l == l
    requires states[i].nodes[l].commit < states[i + 1].nodes[l].commit
    ensures var q, log, t := states[i + 1].nodes[l].commit, states[i + 1].nodes[l].log, states[i + 1].nodes[l].term;
      q <= |log| && exists a: set<NodeId> :: l in a && Majority(cfg, a) && AllAcknowledged(states, i + 1, a - {l}, t, log, q)
  {
    hide SafeInv, Do, Enabled, TimelyStep, Acknowledged, Held, HistoryAt;
    SenderStaysMember(cfg, states, steps, i);
    RisenIsHeld(cfg, states, steps, i, l);
    var L' := states[i + 1].nodes[l];
    var holders := HoldersAcknowledged(cfg, states, steps, i + 1, l, L'.commit);
    var a := {l} + holders;
    assert |a| == 1 + |holders| && a - {l} == holders;
    assert l in a && Majority(cfg, a) && AllAcknowledged(states, i + 1, a - {l}, L'.term, L'.log, L'.commit);
  }

  ghost predicate AllAcknowledged(states: seq<State>, i: nat, a: set<NodeId>, t: nat, log: Log, k: nat) {
    forall p | p in a :: Acknowledged(states, i, p, t, log, k)
  }

  lemma SenderStaysMember(cfg: Config, states: seq<State>, steps: seq<Step>, i: nat)
    requires TimelyRun(cfg, states, steps) && i < |steps| && steps[i].Exchange?
    ensures steps[i].l in states[i].nodes && steps[i].l in states[i + 1].nodes
  {
  }

  lemma RisenIsHeld(cfg: Config, states: seq<State>, steps: seq<Step>, i: nat, l: NodeId)
    requires TimelyRun(cfg, states, steps) && i < |steps| && steps[i].Exchange? && steps[i].l == l
    requires l in states[i].nodes && l in states[i + 1].nodes && states[i].nodes[l].commit < states[i + 1].nodes[l].commit
    ensures var l' := states[i + 1].nodes[l];
      l'.role == Leader && 1 <= l'.commit <= |l'.log| && Held(l'.matched, l'.commit)
  {
    hide SafeInv, TimelyStep, HistoryAt, Do;
    RunSafe(cfg, states, steps, i);
    CommitIsHeld(cfg, states[i], HistoryAt(cfg, states, steps, i), l, steps[i].p, steps[i].replyLost);
  }

  lemma CommitIsHeld(cfg: Config, s: State, h: History, l: NodeId, p: NodeId, lost: bool)
    requires SafeInv(cfg, s, h) && Enabled(cfg, s, Exchange(l, p, lost))
    requires s.nodes[l].commit < Do(cfg, s, Exchange(l, p, lost)).nodes[l].commit
    ensures var l' := Do(cfg, s, Exchange(l, p, lost)).nodes[l];
      l'.role == Leader && 1 <= l'.commit <= |l'.log| && Held(l'.matched, l'.commit)
  {
    hide SafeInv;
    StepElectionOf(cfg, s, h, Exchange(l, p, lost));
    var m, L := MessageTo(cfg, s, l, p), s.nodes[l];
    var r := AppendReplyOf(s.nodes[p], m);
    SenderCommit(L, p, m, r, HandleAppendReply(L, p, m, r));
    QuorumIndexHeld(HandleAppendReply(L, p, m, r).matched, |L.log|);
  }

  lemma HoldersAcknowledged(cfg: Config, states: seq<State>, steps: seq<Step>, i: nat, l: NodeId, q: nat) returns (holders: set<NodeId>)
    requires TimelyRun(cfg, states, steps) && i <= |steps|
    requires l in states[i].nodes && states[i].nodes[l].role == Leader && q >= 1 && Held(states[i].nodes[l].matched, q)
    ensures l in cfg.members && l !in holders && holders <= cfg.members && 2 * (1 + |holders|) > |cfg.members|
    ensures forall b | b in holders :: Acknowledged(states, i, b, states[i].nodes[l].term, states[i].nodes[l].log, q)
  {
    hide SafeInv;
    var L, h := states[i].nodes[l], HistoryAt(cfg, states, steps, i);
    RunSafe(cfg, states, steps, i);
    MemberCount(cfg, states[i], h);
    PeerCount(cfg, states[i], h, l);
    hide TimelyRun;
    holders := set b | b in L.matched && L.matched[b] >= q;
    forall b | b in holders ensures b != l && b in states[i].nodes && Acknowledged(states, i, b, L.term, L.log, q) {
      MemberMatch(cfg, states, steps, i, l, b);
      MatchAcknowledged(cfg, states, steps, i, l, b);
      var j: nat :| j <= i && AckAt(states, j, b, L.term, L.log, L.matched[b]);
      AgreeLess(states[j].nodes[b].log, L.log, L.matched[b], q);
      assert AckAt(states, j, b, L.term, L.log, q);
    }
  }
}
