/** Who follows whom, along runs: what a node learns about the leader, when a candidacy ends, when a leader
    steps down and in which term, and what a follower's commit index becomes. */
module Roles {
  import opened Types
  import opened Protocol
  import opened Cluster
  import opened Elections
  import opened Locks
  import opened Commits
  import opened Safety
  import opened Handover
  import opened Outcomes
  import Terms

  // ---------------------------------------------------------------- the known leader

  /** x leads term t before or after this step. */
  ghost predicate LeadsAround(s: State, s': State, x: NodeId, t: nat) { LeadsIn(s, x, t) || LeadsIn(s', x, t) }

  ghost predicate KnewBefore(n: Node, n': Node, x: NodeId) { n.leader == Some(x) && n.term == n'.term }

  /** A node that takes x for its leader did so in the same term before, or x leads that term now. */
  lemma LearnsOnlyLeaders(cfg: Config, s: State, step: Step, n: NodeId, x: NodeId)
    requires Enabled(cfg, s, step) && n in s.nodes && n in Do(cfg, s, step).nodes
    requires Do(cfg, s, step).nodes[n].leader == Some(x)
    ensures KnewBefore(s.nodes[n], Do(cfg, s, step).nodes[n], x) || LeadsAround(s, Do(cfg, s, step), x, Do(cfg, s, step).nodes[n].term)
  {
    match step {
      case TakeReply(y) => VoteReplyOutcome(s.nodes[y.candidate], y.candidate, |cfg.members|, y);
      case AskVote(req) => VoteRequestOutcome(s.nodes[req.to], req);
      case Exchange(l, p, lost) => ExchangeLearns(cfg, s, l, p, lost, n, x);
      case _ =>
    }
  }

  lemma ExchangeLearns(cfg: Config, s: State, l: NodeId, p: NodeId, lost: bool, n: NodeId, x: NodeId)
    requires Enabled(cfg, s, Exchange(l, p, lost)) && n in s.nodes && n in Do(cfg, s, Exchange(l, p, lost)).nodes
    requires Do(cfg, s, Exchange(l, p, lost)).nodes[n].leader == Some(x)
    ensures var s' := Do(cfg, s, Exchange(l, p, lost));
      KnewBefore(s.nodes[n], s'.nodes[n], x) || LeadsAround(s, s', x, s'.nodes[n].term)
  {
    hide HandleAppend, HandleAppendReply, AppendReplyOf, AppendRequestOf;
    var m := MessageTo(cfg, s, l, p);
    RequestOutcome(cfg.limits, s.nodes[l], l, s.nodes[l].next[p]);
    ReceiverLearns(s.nodes[p], m);
    SenderLearns(s.nodes[l], p, m, AppendReplyOf(s.nodes[p], m));
  }

  /** The receiver of a message keeps its leader and term, or learns the sender's. */
  lemma ReceiverLearns(n: Node, m: AppendRequest)
    ensures var n' := HandleAppend(n, m);
      (n'.leader == n.leader && n'.term == n.term) || (n'.leader == Some(m.from) && n'.term == m.term)
  {
    AppendOutcome(n, m);
    hide HandleAppend, HasPrevious;
  }

  /** The sender of a message keeps its leader and term, or has none. */
  lemma SenderLearns(n: Node, p: NodeId, m: AppendRequest, r: AppendReply)
    requires p in n.next
    ensures var n' := HandleAppendReply(n, p, m, r);
      (n'.leader == n.leader && n'.term == n.term && n'.role == n.role) || (n'.leader == None && n'.role == Follower)
  {
    AppendReplyTaken(n, p, m, r);
    hide HandleAppendReply, QuorumIndex;
  }

  ghost predicate LedBy(states: seq<State>, j: nat, x: NodeId, t: nat) {
    exists i: nat :: i <= j && i < |states| && LeadsIn(states[i], x, t)
  }

  /** In every run, a node whose leader is x is in a term that x has led. */
  lemma {:induction false} KnownLeaderLed(cfg: Config, states: seq<State>, steps: seq<Step>, j: nat, n: NodeId, x: NodeId)
    requires IsRun(cfg, states, steps) && j <= |steps| && n in states[j].nodes && states[j].nodes[n].leader == Some(x)
    ensures LedBy(states, j, x, states[j].nodes[n].term)
    decreases j
  {
    hide Do, Enabled;
    if j == 0 {
      NobodyLeads(cfg, n);
    } else {
      var t := states[j].nodes[n].term;
      NodeWasThere(cfg, states[j - 1], steps[j - 1], n);
      LearnsOnlyLeaders(cfg, states[j - 1], steps[j - 1], n, x);
      if LeadsAround(states[j - 1], states[j], x, t) {
        var i := if LeadsIn(states[j], x, t) then j else j - 1;
        assert LeadsIn(states[i], x, t);
      } else {
        KnownLeaderLed(cfg, states, steps, j - 1, n, x);
        var i: nat :| i <= j - 1 && i < |states| && LeadsIn(states[i], x, t);
      }
    }
  }

  lemma NobodyLeads(cfg: Config, n: NodeId)
    requires n in Init(cfg).nodes
    ensures Init(cfg).nodes[n].leader == None && Init(cfg).nodes[n].role == Follower
  {
    assert Init(cfg).nodes[n] == InitNode(cfg, n);
  }

  lemma NodeWasThere(cfg: Config, s: State, step: Step, n: NodeId)
    requires Enabled(cfg, s, step) && n in Do(cfg, s, step).nodes
    ensures n in s.nodes
  {
  }

  /** In every run a candidate names no leader. */
  lemma {:induction false} CandidateHasNoLeader(cfg: Config, states: seq<State>, steps: seq<Step>, j: nat, n: NodeId)
    requires IsRun(cfg, states, steps) && j <= |steps| && n in states[j].nodes && states[j].nodes[n].role == Candidate
    ensures states[j].nodes[n].leader == None
    decreases j
  {
    hide Do, Enabled;
    if j == 0 {
      NobodyLeads(cfg, n);
    } else {
      NodeWasThere(cfg, states[j - 1], steps[j - 1], n);
      CandidateBefore(cfg, states[j - 1], steps[j - 1], n);
      if states[j - 1].nodes[n].role == Candidate { CandidateHasNoLeader(cfg, states, steps, j - 1, n); }
    }
  }

  /** A step leaves a candidate only by making one, without leader, or by leaving its leader alone. */
  lemma CandidateBefore(cfg: Config, s: State, step: Step, n: NodeId)
    requires Enabled(cfg, s, step) && n in s.nodes && n in Do(cfg, s, step).nodes && Do(cfg, s, step).nodes[n].role == Candidate
    ensures Do(cfg, s, step).nodes[n].leader == None
         || (s.nodes[n].role == Candidate && Do(cfg, s, step).nodes[n].leader == s.nodes[n].leader)
  {
    match step {
      case TakeReply(y) => VoteReplyOutcome(s.nodes[y.candidate], y.candidate, |cfg.members|, y);
      case AskVote(req) => VoteRequestOutcome(s.nodes[req.to], req);
      case Timeout(k) => CandidateOutcome(s.nodes[k]);
      case Exchange(l, p, lost) =>
        hide HandleAppend, HandleAppendReply, AppendReplyOf, AppendRequestOf;
        var m := MessageTo(cfg, s, l, p);
        ReceiverStands(s.nodes[p], m);
        SenderLearns(s.nodes[l], p, m, AppendReplyOf(s.nodes[p], m));
      case _ =>
    }
  }

  /** A message leaves a candidate only in place. */
  lemma ReceiverStands(n: Node, m: AppendRequest)
    ensures HandleAppend(n, m).role == Candidate ==> HandleAppend(n, m) == n
  {
    AppendOutcome(n, m);
    hide HandleAppend, HasPrevious;
  }

  /** In every timely run a node names itself as leader exactly while it leads. */
  lemma NamesItselfWhileLeading(cfg: Config, states: seq<State>, steps: seq<Step>, j: nat, n: NodeId)
    requires TimelyRun(cfg, states, steps) && j <= |steps| && n in states[j].nodes
    ensures states[j].nodes[n].leader == Some(n) <==> states[j].nodes[n].role == Leader
  {
    hide SafeInv, Do, Enabled, TimelyStep, HistoryAt;
    var h := HistoryAt(cfg, states, steps, j);
    RunSafe(cfg, states, steps, j);
    FlagOf(cfg, states[j], h, n);
  }

  lemma FlagOf(cfg: Config, s: State, h: History, n: NodeId)
    requires SafeInv(cfg, s, h) && n in s.nodes
    ensures s.nodes[n].leader == Some(n) <==> s.nodes[n].role == Leader
  {
    assert NodeGood(cfg, h.candLog, n, s.nodes[n]);
  }

  // ---------------------------------------------------------------- exchanges

  lemma TwoParties(cfg: Config, states: seq<State>, steps: seq<Step>, i: nat)
    requires TimelyRun(cfg, states, steps) && i < |steps| && steps[i].Exchange?
    ensures steps[i].l != steps[i].p && Enabled(cfg, states[i], steps[i]) && states[i + 1] == Do(cfg, states[i], steps[i])
  {
    hide SafeInv, Do, TimelyStep, HistoryAt;
    RunSafe(cfg, states, steps, i);
    StepElectionOf(cfg, states[i], HistoryAt(cfg, states, steps, i), steps[i]);
  }

  /** What one exchange does to both parties. */
  lemma ExchangeParties(cfg: Config, s: State, l: NodeId, p: NodeId, lost: bool)
    requires Enabled(cfg, s, Exchange(l, p, lost)) && l != p
    ensures var s', m := Do(cfg, s, Exchange(l, p, lost)), MessageTo(cfg, s, l, p);
      && l in s'.nodes && p in s'.nodes && s'.nodes[p] == HandleAppend(s.nodes[p], m)
      && s'.nodes[l] == (if lost then s.nodes[l] else HandleAppendReply(s.nodes[l], p, m, AppendReplyOf(s.nodes[p], m)))
      && m.from == l && m.term == s.nodes[l].term && m.leaderCommit == s.nodes[l].commit
  {
    RequestOutcome(cfg.limits, s.nodes[l], l, s.nodes[l].next[p]);
    hide HandleAppend, HandleAppendReply, AppendReplyOf, AppendRequestOf;
  }

  /** In every timely run: after an answered exchange with a peer of a later term the sender is a follower in
      that peer's term, without leader; its log, indices, votes and views are as before. */
  lemma SenderStepsDown(cfg: Config, states: seq<State>, steps: seq<Step>, i: nat)
    requires TimelyRun(cfg, states, steps) && i < |steps| && steps[i].Exchange? && !steps[i].replyLost
    requires steps[i].l in states[i].nodes && steps[i].p in states[i].nodes
    requires states[i].nodes[steps[i].l].term < states[i].nodes[steps[i].p].term
    ensures steps[i].l in states[i + 1].nodes
    ensures var n, n' := states[i].nodes[steps[i].l], states[i + 1].nodes[steps[i].l];
      && n'.role == Follower && n'.term == states[i].nodes[steps[i].p].term && n'.leader == None
      && SameStore(n, n') && SameViews(n, n') && n'.voteFor == n.voteFor
  {
    hide SafeInv, Do, TimelyStep;
    var s, l, p := states[i], steps[i].l, steps[i].p;
    TwoParties(cfg, states, steps, i);
    hide TimelyRun;
    ExchangeParties(cfg, s, l, p, false);
    var m := MessageTo(cfg, s, l, p);
    AppendReplyOutcome(s.nodes[p], m);
    AppendReplyTaken(s.nodes[l], p, m, AppendReplyOf(s.nodes[p], m));
    hide HandleAppend, HandleAppendReply, AppendReplyOf, MessageTo, QuorumIndex, HasPrevious;
  }

  /** In every timely run: after an exchange with a peer of no later term the peer is in the sender's term and
      follows the sender, unless it already followed another leader of that very term. */
  lemma ReceiverFollows(cfg: Config, states: seq<State>, steps: seq<Step>, i: nat)
    requires TimelyRun(cfg, states, steps) && i < |steps| && steps[i].Exchange?
    requires steps[i].l in states[i].nodes && steps[i].p in states[i].nodes
    requires states[i].nodes[steps[i].p].term <= states[i].nodes[steps[i].l].term
    ensures steps[i].p in states[i + 1].nodes
    ensures var l, f, f' := states[i].nodes[steps[i].l], states[i].nodes[steps[i].p], states[i + 1].nodes[steps[i].p];
      && f'.term == l.term && f'.role == Follower
      && (f'.leader == Some(steps[i].l)
          || (f'.leader == f.leader && f.term == l.term && f.leader.Some? && LedBy(states, i, f.leader.value, l.term)))
  {
    hide SafeInv, Do, TimelyStep;
    var s, l, p := states[i], steps[i].l, steps[i].p;
    TwoParties(cfg, states, steps, i);
    ExchangeParties(cfg, s, l, p, steps[i].replyLost);
    var m := MessageTo(cfg, s, l, p);
    AppendOutcome(s.nodes[p], m);
    ReceiverNotLeading(cfg, states, steps, i);
    if s.nodes[p].leader.Some? { KnownLeaderLed(cfg, states, steps, i, p, s.nodes[p].leader.value); }
    hide TimelyRun, HandleAppend, HandleAppendReply, AppendReplyOf, MessageTo, QuorumIndex, HasPrevious, LedBy;
  }

  lemma ReceiverNotLeading(cfg: Config, states: seq<State>, steps: seq<Step>, i: nat)
    requires TimelyRun(cfg, states, steps) && i < |steps| && steps[i].Exchange?
    requires steps[i].l in states[i].nodes && steps[i].p in states[i].nodes
    ensures states[i].nodes[steps[i].p].role == Leader ==> states[i].nodes[steps[i].p].term != states[i].nodes[steps[i].l].term
  {
    hide SafeInv, Do, TimelyStep, HistoryAt;
    RunSafe(cfg, states, steps, i);
    LeadersApart(cfg, states[i], HistoryAt(cfg, states, steps, i), steps[i].l, steps[i].p);
  }

  /** In every timely run that obeys the commit rule: after an exchange that the receiver accepts, its commit
      index is the smaller of the leader's commit index and its own last index; otherwise it is unchanged. */
  lemma ReceiverCommits(cfg: Config, states: seq<State>, steps: seq<Step>, i: nat)
    requires TimelyRun(cfg, states, steps) && ObeysCommitRule(cfg, states, steps) && i < |steps| && steps[i].Exchange?
    requires steps[i].l in states[i].nodes && steps[i].p in states[i].nodes
    ensures steps[i].p in states[i + 1].nodes && Enabled(cfg, states[i], steps[i])
    ensures var l, f, f' := states[i].nodes[steps[i].l], states[i].nodes[steps[i].p], states[i + 1].nodes[steps[i].p];
      f'.commit == if f.term <= l.term && HasPrevious(f.log, MessageTo(cfg, states[i], steps[i].l, steps[i].p))
                   then Min(l.commit, |f'.log|) else f.commit
  {
    hide SafeInv, CommitsOk, AllKept, NodeSafe, Do, Record, TimelyStep, CommitRuleStep;
    var s, l, p, h := states[i], steps[i].l, steps[i].p, HistoryAt(cfg, states, steps, i);
    TwoParties(cfg, states, steps, i);
    ExchangeParties(cfg, s, l, p, steps[i].replyLost);
    AppendOutcome(s.nodes[p], MessageTo(cfg, s, l, p));
    RunCommits(cfg, states, steps, i);
    StepCommits(cfg, s, h, steps[i]);
    Terms.CommitKept(s, states[i + 1], p);
    hide TimelyRun, HandleAppend, HandleAppendReply, AppendReplyOf, MessageTo, QuorumIndex, HasPrevious, HistoryAt;
  }

  // ---------------------------------------------------------------- candidacies

  /** In every run: a candidate that takes a reply is a candidate afterwards exactly when the reply was granted,
      carries no later term, and is of another term or does not complete a majority.  A denial makes it a
      follower of the denial's term; a grant that completes a majority makes it leader of its own term. */
  lemma CandidateTakesReply(cfg: Config, states: seq<State>, steps: seq<Step>, i: nat)
    requires IsRun(cfg, states, steps) && i < |steps| && steps[i].TakeReply?
    requires steps[i].reply.candidate in states[i].nodes && states[i].nodes[steps[i].reply.candidate].role == Candidate
    ensures steps[i].reply.candidate in states[i + 1].nodes
    ensures var y := steps[i].reply;
      var n, n' := states[i].nodes[y.candidate], states[i + 1].nodes[y.candidate];
      && (n'.role == Candidate <==>
            y.granted && y.term <= n.term && (y.term != n.term || 2 * (n.voteQuorum + 1) <= |cfg.members|))
      && (n'.role == Leader <==> y.granted && y.term == n.term && 2 * (n.voteQuorum + 1) > |cfg.members|)
      && (n'.role == Follower <==> !y.granted || n.term < y.term)
      && n'.term == if n'.role == Follower then y.term else n.term
  {
    var y := steps[i].reply;
    VoteReplyOutcome(states[i].nodes[y.candidate], y.candidate, |cfg.members|, y);
    assert Enabled(cfg, states[i], steps[i]);
    hide HandleVoteReply;
  }
}
