/** Which numbers can go down.  Terms go down exactly at a stale denial; the applied index never goes
    down; a follower's commit index goes down exactly when a leader that knows less sends to it. */
module Terms {
  import opened Types
  import opened Protocol
  import opened Cluster
  import opened Elections
  import opened Locks
  import opened Commits
  import opened Safety
  import opened Traces
  import opened CatchUp
  import opened Moves
  import opened Trios

  ghost predicate LowersTerm(s: State, s': State) {
    exists n | n in s.nodes && n in s'.nodes :: s'.nodes[n].term < s.nodes[n].term
  }

  /** In any state at all, a step lowers some node's term exactly when it delivers a stale denial. */
  lemma LowersExactlyAtStaleDenial(cfg: Config, s: State, step: Step)
    requires Enabled(cfg, s, step)
    ensures LowersTerm(s, Do(cfg, s, step)) <==> !TimelyStep(s, step)
  {
    hide QuorumIndex, AppendRequestOf, LogAfter, CommitAfter;
    match step {
      case Exchange(l, p, lost) => ExchangeTerms(cfg, s, l, p, lost);
      case TakeReply(y) =>
        if StaleDenial(s.nodes[y.candidate], y) {
          assert Do(cfg, s, step).nodes[y.candidate].term < s.nodes[y.candidate].term;
        }
      case _ =>
    }
  }

  lemma ExchangeTerms(cfg: Config, s: State, l: NodeId, p: NodeId, lost: bool)
    requires Enabled(cfg, s, Exchange(l, p, lost))
    ensures !LowersTerm(s, Do(cfg, s, Exchange(l, p, lost)))
  {
    var m := MessageTo(cfg, s, l, p);
    var r := AppendReplyOf(s.nodes[p], m);
    assert HandleAppend(s.nodes[p], m).term >= s.nodes[p].term;
    assert HandleAppendReply(s.nodes[l], p, m, r).term >= s.nodes[l].term;
    hide HandleAppend, HandleAppendReply, AppendReplyOf, MessageTo;
  }

  ghost predicate TermsRise(states: seq<State>) {
    forall i: nat | i + 1 < |states| :: !LowersTerm(states[i], states[i + 1])
  }

  /** Terms never go down in a run exactly when its vote replies are timely. */
  lemma TermsRiseExactlyWhenTimely(cfg: Config, states: seq<State>, steps: seq<Step>)
    requires IsRun(cfg, states, steps)
    ensures TermsRise(states) <==> Timely(states, steps)
  {
    hide Do, Enabled, LowersTerm, TimelyStep;
    forall i: nat | i < |steps| ensures LowersTerm(states[i], states[i + 1]) <==> !TimelyStep(states[i], steps[i]) {
      LowersExactlyAtStaleDenial(cfg, states[i], steps[i]);
    }
    if !Timely(states, steps) {
      var i: nat :| i < |steps| && !TimelyStep(states[i], steps[i]);
      assert LowersTerm(states[i], states[i + 1]);
    }
  }

  /** Every vote reply carries a term at least that of its request, in every run. */
  lemma {:induction false} RepliesCarryTerms(cfg: Config, states: seq<State>, steps: seq<Step>, i: nat, y: VoteReply)
    requires IsRun(cfg, states, steps) && i <= |steps| && y in states[i].replies
    ensures y.reqTerm <= y.term
    decreases i
  {
    if i > 0 && y in states[i - 1].replies { RepliesCarryTerms(cfg, states, steps, i - 1, y); }
  }

  /** A stale denial answers a candidacy of an earlier term. */
  lemma StaleDenialIsLate(cfg: Config, states: seq<State>, steps: seq<Step>, i: nat)
    requires IsRun(cfg, states, steps) && i < |steps| && !TimelyStep(states[i], steps[i])
    ensures steps[i].TakeReply? && steps[i].reply.candidate in states[i].nodes
    ensures steps[i].reply.reqTerm < states[i].nodes[steps[i].reply.candidate].term
  {
    RepliesCarryTerms(cfg, states, steps, i, steps[i].reply);
  }

  /** The applied index never goes down, in every run. */
  lemma {:induction false} AppliedNeverGoesDown(cfg: Config, states: seq<State>, steps: seq<Step>, i: nat, j: nat, n: NodeId)
    requires IsRun(cfg, states, steps) && i <= j <= |steps| && n in states[i].nodes
    ensures n in states[j].nodes && states[i].nodes[n].applied <= states[j].nodes[n].applied
    decreases j
  {
    hide Do, Enabled, Init;
    if i < j {
      AppliedNeverGoesDown(cfg, states, steps, i, j - 1, n);
      OnlyApplyApplies(cfg, states[j - 1], steps[j - 1], n);
      DoKeepsNodes(cfg, states[j - 1], steps[j - 1]);
    }
  }

  lemma DoKeepsNodes(cfg: Config, s: State, step: Step)
    requires Enabled(cfg, s, step)
    ensures s.nodes.Keys <= Do(cfg, s, step).nodes.Keys
  {
  }

  // ---------------------------------------------------------------- terms that fall

  /** In every cluster of three a stale denial can lower a term: c's vote went to a, so b is denied term 1;
      the denial reaches b when it stands for term 2. */
  lemma TermCanFall(cfg: Config, a: NodeId, b: NodeId, c: NodeId) returns (tr: Trace, step: Step)
    requires Trio(cfg, a, b, c)
    ensures Good(cfg, tr) && Enabled(cfg, Now(tr), step) && LowersTerm(Now(tr), Do(cfg, Now(tr), step))
  {
    hide Good, Fed, Now, Quietly;
    var tr1 := OneVoteOnly(cfg, a, b, c);
    var no := VoteReply(c, b, 1, 1, false);
    var tr2 := MoveAsk(cfg, tr1, VoteRequest(b, c, 1, 0, 0));
    hide HandleVoteRequest;
    assert no in Now(tr2).replies;
    tr := Move(cfg, tr2, Timeout(b));
    step := TakeReply(no);
    LowersExactlyAtStaleDenial(cfg, Now(tr), step);
  }

  lemma OneVoteOnly(cfg: Config, a: NodeId, b: NodeId, c: NodeId) returns (tr: Trace)
    requires Trio(cfg, a, b, c)
    ensures Good(cfg, tr) && c in Now(tr).nodes && Now(tr).nodes[c].term == 1 && Now(tr).nodes[c].voteFor == map[1 := a]
    ensures Stands(Now(tr), b) && VoteRequest(b, c, 1, 0, 0) in Now(tr).requests
  {
    hide Good, Fed, Now, Quietly, NothingFed;
    var tr0 := StartFresh(cfg);
    IsGood(cfg, tr0);
    var tr1 := MoveTimeout(cfg, tr0, a);
    assert VoteRequestOf(Now(tr1).nodes[a], a, c) == VoteRequest(a, c, 1, 0, 0);
    var tr2 := MoveTimeout(cfg, tr1, b);
    assert VoteRequestOf(Now(tr2).nodes[b], b, c) == VoteRequest(b, c, 1, 0, 0);
    tr := MoveAsk(cfg, tr2, VoteRequest(a, c, 1, 0, 0));
  }

  // ---------------------------------------------------------------- commit indices

  /** n holds just the one entry. */
  ghost predicate Holds(s: State, n: NodeId, e: Entry, t: nat, commit: nat) {
    n in s.nodes && s.nodes[n].log == [e] && s.nodes[n].term == t && s.nodes[n].commit == commit
  }

  /** a copies an entry to b, which commits it, and then to c, which learns that. */
  lemma Spread(cfg: Config, a: NodeId, b: NodeId, c: NodeId, op: Op) returns (tr: Trace)
    requires Trio(cfg, a, b, c)
    ensures Good(cfg, tr) && Holds(Now(tr), b, Entry(1, op), 1, 0) && Holds(Now(tr), c, Entry(1, op), 1, 1)
    ensures Now(tr).nodes[b].role != Leader
  {
    hide Quietly, Good, Now, Fed, HandleAppend, HandleAppendReply, AppendReplyOf, AppendRequestOf, QuorumIndex, Matching, NothingFed;
    var tr0 := Begin(cfg, a, b, c, op);
    IsGood(cfg, tr0);
    PeersOfOne(cfg, tr0, a, b, c);
    var tr1 := MoveExchange(cfg, tr0, a, b);
    CopyFirst(cfg.limits, a, Now(tr0).nodes[a], b, Now(tr0).nodes[b], Entry(1, op));
    QuorumOfTwo(Now(tr1).nodes[a].matched, b);
    assert Holds(Now(tr1), a, Entry(1, op), 1, 1);
    tr := MoveExchange(cfg, tr1, a, c);
    CopyFirst(cfg.limits, a, Now(tr1).nodes[a], c, Now(tr1).nodes[c], Entry(1, op));
    OnlyLeader(cfg, tr, a, b);
  }

  lemma OnlyLeader(cfg: Config, tr: Trace, a: NodeId, b: NodeId)
    requires Good(cfg, tr) && a != b && a in Now(tr).nodes && b in Now(tr).nodes && Now(tr).nodes[a].role == Leader
    requires Now(tr).nodes[b].term == Now(tr).nodes[a].term
    ensures Now(tr).nodes[b].role != Leader
  {
    NowIs(cfg, tr);
    if Now(tr).nodes[b].role == Leader { OneLeaderAtATime(cfg, tr.states, tr.steps, |tr.steps|, a, b); }
  }

  /** In every cluster of three a follower's commit index can go down: b, which has not heard that the
      entry is committed, is elected by c, which has, and its first heartbeat lowers c's commit index. */
  lemma CommitCanFall(cfg: Config, a: NodeId, b: NodeId, c: NodeId, op: Op) returns (tr: Trace, tr': Trace)
    requires Trio(cfg, a, b, c)
    ensures Good(cfg, tr) && Quietly(cfg, tr, tr')
    ensures Holds(Now(tr), c, Entry(1, op), 1, 1) && Holds(Now(tr'), c, Entry(1, op), 2, 0)
  {
    hide Quietly, Good, Now, Fed, HandleAppend, HandleAppendReply, AppendReplyOf, AppendRequestOf, QuorumIndex, Matching;
    TrioSize(cfg, a, b, c);
    tr := Spread(cfg, a, b, c, op);
    var tr1 := Elect(cfg, tr, b, {c});
    PeersOfOne(cfg, tr1, b, a, c);
    tr' := MoveExchange(cfg, tr1, b, c);
    Heartbeat(cfg.limits, b, Now(tr1).nodes[b], c, Now(tr1).nodes[c], Entry(1, op));
    QuietlyTrans(cfg, tr, tr1, tr');
  }

  lemma Heartbeat(limits: Limits, self: NodeId, l: Node, p: NodeId, f: Node, e: Entry)
    requires p in l.next && l.next[p] == 2 && l.log == [e] == f.log && f.term <= l.term && l.commit == 0
    ensures var f' := HandleAppend(f, AppendRequestOf(limits, l, self, l.next[p]));
      f'.log == [e] && f'.term == l.term && f'.commit == 0
  {
    BatchBounds(limits, l.log, 2, 0, limits.header);
  }

  /** The exchange gives n entries, or a heartbeat, that it accepts from a leader with a smaller commit index. */
  ghost predicate LearnsLess(cfg: Config, s: State, step: Step, n: NodeId)
    requires Enabled(cfg, s, step)
  {
    && step.Exchange? && step.p == n
    && s.nodes[n].term <= s.nodes[step.l].term && s.nodes[step.l].commit < s.nodes[n].commit
    && Fits(s.nodes[n].log, MessageTo(cfg, s, step.l, n))
  }

  lemma HandleAppendCommit(n: Node, m: AppendRequest)
    requires n.commit <= |HandleAppend(n, m).log|
    ensures HandleAppend(n, m).commit < n.commit <==> n.term <= m.term && Fits(n.log, m) && m.leaderCommit < n.commit
  {
  }

  lemma ReplyRaisesCommit(l: Node, p: NodeId, m: AppendRequest, r: AppendReply)
    requires p in l.next
    ensures HandleAppendReply(l, p, m, r).commit >= l.commit
  {
    hide QuorumIndex;
  }

  lemma MessageFrom(limits: Limits, l: Node, self: NodeId, next: Pos)
    ensures var m := AppendRequestOf(limits, l, self, next);
      m.term == l.term && m.leaderCommit == l.commit
  {
  }

  lemma StepLowersCommit(cfg: Config, s: State, step: Step, n: NodeId)
    requires Enabled(cfg, s, step) && n in s.nodes && n in Do(cfg, s, step).nodes
    requires step.Exchange? ==> step.l != step.p
    requires s.nodes[n].commit <= |Do(cfg, s, step).nodes[n].log|
    ensures Do(cfg, s, step).nodes[n].commit < s.nodes[n].commit <==> LearnsLess(cfg, s, step, n)
  {
    match step {
      case Exchange(l, p, lost) =>
        var m := MessageTo(cfg, s, l, p);
        MessageFrom(cfg.limits, s.nodes[l], l, s.nodes[l].next[p]);
        hide AppendRequestOf, HandleAppend, HandleAppendReply, AppendReplyOf, Fits;
        if n == p { HandleAppendCommit(s.nodes[n], m); }
        if n == l { ReplyRaisesCommit(s.nodes[l], p, m, AppendReplyOf(s.nodes[p], m)); }
      case _ =>
    }
  }

  /** In every timely run that obeys the commit rule, a node's commit index goes down exactly when it
      accepts a message from a leader of no earlier term whose commit index is smaller. */
  lemma CommitFallsExactly(cfg: Config, states: seq<State>, steps: seq<Step>, i: nat, n: NodeId)
    requires TimelyRun(cfg, states, steps) && ObeysCommitRule(cfg, states, steps) && i < |steps| && n in cfg.members
    ensures n in states[i].nodes && n in states[i + 1].nodes
    ensures states[i + 1].nodes[n].commit < states[i].nodes[n].commit <==> LearnsLess(cfg, states[i], steps[i], n)
  {
    hide SafeInv, CommitsOk, AllKept, NodeSafe, Do, Enabled, Record, TimelyStep, CommitRuleStep, LearnsLess;
    var h := HistoryAt(cfg, states, steps, i);
    RunCommits(cfg, states, steps, i);
    NodeIsSafe(cfg, states[i], h, n);
    StepCommits(cfg, states[i], h, steps[i]);
    StepElectionOf(cfg, states[i], h, steps[i]);
    CommitKept(states[i], states[i + 1], n);
    StepLowersCommit(cfg, states[i], steps[i], n);
  }

  lemma CommitKept(s: State, s': State, n: NodeId)
    requires AllKept(s, s') && n in s.nodes
    ensures n in s'.nodes && s.nodes[n].commit <= |s'.nodes[n].log|
  {
    assert Kept(s.nodes[n], s'.nodes[n]);
  }
}
