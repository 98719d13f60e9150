/** Catching up: while a leader and its log stay as they are, a bounded number of delivered exchanges
    with one peer makes the peer's log equal to the leader's, whatever else happens in between. */
module CatchUp {
  import opened Types
  import opened Protocol
  import opened Cluster
  import opened Elections
  import opened Logs
  import opened Replication
  import opened Steps
  import opened Locks
  import opened Safety

  // ---------------------------------------------------------------- one exchange

  /** How many entries the leader takes the peer to hold. */
  function Sure(l: Node, p: NodeId): nat
    requires p in l.next
  {
    var next: int := l.next[p];
    next - 1
  }

  /** The next message to p will be accepted. */
  ghost predicate Fitting(l: Node, p: NodeId, f: Node)
    requires p in l.next
  {
    Agree(f.log, l.log, Sure(l, p))
  }

  /** Entries of equal term at an index come with equal logs up to it. */
  ghost predicate Matching(a: Log, b: Log) {
    forall k: nat | k <= |a| && k <= |b| && TermAt(a, k) == TermAt(b, k) :: Agree(a, b, k)
  }

  lemma FitsWhenFitting(limits: Limits, l: Node, p: NodeId, f: Node, m: AppendRequest)
    requires p in l.next && Serves(limits, l, p, m) && Matching(f.log, l.log)
    ensures Fits(f.log, m) <==> Fitting(l, p, f)
  {
    if Fitting(l, p, f) && m.prevIndex > 0 { AgreeAt(f.log, l.log, m.prevIndex, m.prevIndex - 1); }
    if Fits(f.log, m) { assert Agree(f.log, l.log, m.prevIndex); }
  }

  /** What the leader changes is its view of p, and its commit index. */
  ghost predicate SameLeader(l: Node, p: NodeId, l': Node)
    requires p in l.next && p in l.matched
  {
    && p in l'.next && p in l'.matched
    && l' == l.(next := l.next[p := l'.next[p]], matched := l.matched[p := l'.matched[p]], commit := l'.commit)
  }

  lemma SameView(l: Node, p: NodeId)
    requires p in l.next && p in l.matched
    ensures SameLeader(l, p, l)
  {
    assert l.next[p := l.next[p]] == l.next && l.matched[p := l.matched[p]] == l.matched;
  }

  /** A failure strictly lowers the next index, never below 1. */
  lemma RoundFails(limits: Limits, l: Node, p: NodeId, f: Node, m: AppendRequest)
    requires p in l.next && p in l.matched && l.role == Leader && f.term <= l.term && Serves(limits, l, p, m)
    requires !Fits(f.log, m)
    ensures var l' := HandleAppendReply(l, p, m, AppendReplyOf(f, m));
      && SameLeader(l, p, l') && 1 <= l'.next[p] < l.next[p] && l'.matched[p] == l.matched[p] && l'.commit == l.commit
      && (l'.next[p] == |HandleAppend(f, m).log| + 1 || l'.next[p] == m.prevIndex)
      && HandleAppend(f, m).log <= f.log
  {
    SameView(l, p);
    assert m.prevIndex > 0;
    hide QuorumIndex, AdvanceCommit, Reach;
    var l' := HandleAppendReply(l, p, m, AppendReplyOf(f, m));
    assert l'.matched == l.matched;
  }

  /** A success makes the peer's log the leader's log up to the new next index. */
  lemma RoundSucceeds(limits: Limits, l: Node, p: NodeId, f: Node, m: AppendRequest)
    requires p in l.next && p in l.matched && l.role == Leader && f.term <= l.term && Serves(limits, l, p, m)
    requires Fits(f.log, m) && Agree(f.log, l.log, m.prevIndex)
    ensures var l' := HandleAppendReply(l, p, m, AppendReplyOf(f, m));
      && SameLeader(l, p, l')
      && Sure(l', p) == m.prevIndex + |m.entries|
      && (m.entries != [] ==> l'.matched[p] == m.prevIndex + |m.entries|)
      && (m.entries == [] ==> l' == l)
      && (l'.commit == l.commit || (l.log[m.prevIndex + |m.entries| - 1].term == l.term && l'.commit == Max(l.commit, QuorumIndex(l'.matched, |l.log|))))
      && (m.entries != [] && l.log[m.prevIndex + |m.entries| - 1].term == l.term ==> l'.commit == Max(l.commit, QuorumIndex(l'.matched, |l.log|)))
    ensures HandleAppend(f, m).log == l.log[..m.prevIndex + |m.entries|]
  {
    SameView(l, p);
    hide QuorumIndex, Reach;
    if m.entries != [] {
      assert m.entries[|m.entries| - 1] == l.log[m.prevIndex + |m.entries| - 1];
    }
  }

  /** After an answered exchange the next index is above all that the logs agree on, so that no later
      message can cut it. */
  ghost predicate AboveAgreed(l: Node, p: NodeId, f: Node)
    requires p in l.next
  {
    forall k: nat | Agree(f.log, l.log, k) :: k < l.next[p]
  }

  lemma FailureIsAbove(l: Node, p: NodeId, f: Node, l': Node, f': Node)
    requires p in l.next && p in l'.next && l'.log == l.log && !Fitting(l, p, f) && f'.log <= f.log
    requires l'.next[p] == |f'.log| + 1 || l'.next[p] == Sure(l, p)
    ensures AboveAgreed(l', p, f')
  {
    forall k: nat | Agree(f'.log, l.log, k) ensures k < l'.next[p] {
      LongerAgrees(f'.log, f.log, l.log, k, Sure(l, p));
    }
  }

  lemma LongerAgrees(a: Log, b: Log, c: Log, k: nat, s: nat)
    requires a <= b && Agree(a, c, k)
    ensures s <= k ==> Agree(b, c, s)
  {
    if s <= k { assert b[..s] == a[..k][..s] == c[..k][..s]; }
  }

  /** Delivered exchanges still needed, at most. */
  ghost function Left(l: Node, p: NodeId, f: Node): (r: nat)
    requires p in l.next && l.next[p] <= |l.log| + 1
    ensures r <= l.next[p] + |l.log|
  {
    if !Fitting(l, p, f) then l.next[p] + |l.log|
    else if l.next[p] <= |l.log| then |l.log| - Sure(l, p)
    else if f.log == l.log then 0 else 1
  }

  /** A delivered exchange fails exactly when the logs do not agree up to the previous index.  A failure
      strictly lowers the next index, never below 1; no failure follows the first success; and every
      batch that is not empty moves the next index and the match index forward. */
  lemma RoundEffect(limits: Limits, self: NodeId, l: Node, p: NodeId, f: Node)
    requires p in l.next && p in l.matched && l.role == Leader && l.next[p] <= |l.log| + 1 && f.term <= l.term
    requires Matching(f.log, l.log)
    ensures var m := AppendRequestOf(limits, l, self, l.next[p]);
      var l', f' := HandleAppendReply(l, p, m, AppendReplyOf(f, m)), HandleAppend(f, m);
      && SameLeader(l, p, l') && f'.term == l.term && l'.next[p] <= |l.log| + 1
      && (AppendReplyOf(f, m).success <==> Fitting(l, p, f))
      && (!Fitting(l, p, f) ==> 1 <= l'.next[p] < l.next[p])
      && (Fitting(l, p, f) ==> Fitting(l', p, f') && f'.log == l.log[..Sure(l', p)])
      && (Fitting(l, p, f) && l.next[p] <= |l.log| ==> l.next[p] < l'.next[p] && l'.matched[p] == Sure(l', p))
      && (Fitting(l, p, f) && l.next[p] == |l.log| + 1 ==> l' == l)
      && AboveAgreed(l', p, f')
      && (Left(l', p, f') < Left(l, p, f) || Left(l', p, f') == Left(l, p, f) == 0)
  {
    var m := AppendRequestOf(limits, l, self, l.next[p]);
    MessageServes(limits, l, self, p);
    FitsWhenFitting(limits, l, p, f, m);
    BatchBounds(limits, l.log, l.next[p], 0, limits.header);
    ReachIs(limits, l, p);
    ReceiverTerm(f, m);
    hide AppendRequestOf, HandleAppendReply, HandleAppend, BatchFrom, QuorumIndex, Matching, Fits, BatchLen, Reach;
    if Fitting(l, p, f) {
      RoundSucceeds(limits, l, p, f, m);
    } else {
      RoundFails(limits, l, p, f, m);
      FailureIsAbove(l, p, f, HandleAppendReply(l, p, m, AppendReplyOf(f, m)), HandleAppend(f, m));
    }
  }

  lemma ReachIs(limits: Limits, l: Node, p: NodeId)
    requires p in l.next
    ensures Reach(limits, l, p) == Sure(l, p) + BatchLen(limits, l.log, l.next[p])
    ensures BatchLen(limits, l.log, l.next[p]) == BatchFrom(limits, l.log, l.next[p], 0, limits.header)
  {
  }

  lemma ReceiverTerm(f: Node, m: AppendRequest)
    requires f.term <= m.term
    ensures HandleAppend(f, m).term == m.term
    ensures AppendReplyOf(f, m).success <==> Fits(f.log, m)
  {
  }

  // ---------------------------------------------------------------- a leader's reign

  /** l leads term t with this log, and p has not moved to a later term. */
  ghost predicate Leads(s: State, l: NodeId, p: NodeId, t: nat, log: Log) {
    && l in s.nodes && p in s.nodes && p != l
    && s.nodes[l].role == Leader && s.nodes[l].term == t && s.nodes[l].log == log && s.nodes[p].term <= t
  }

  ghost predicate Tracks(s: State, l: NodeId, p: NodeId) {
    && l in s.nodes && p in s.nodes && p in s.nodes[l].next && p in s.nodes[l].matched
    && s.nodes[l].next[p] <= |s.nodes[l].log| + 1
  }

  lemma LeaderTracks(cfg: Config, s: State, h: History, l: NodeId, p: NodeId, t: nat, log: Log)
    requires SafeInv(cfg, s, h) && Leads(s, l, p, t, log)
    ensures Tracks(s, l, p) && Matching(s.nodes[p].log, log)
  {
    hide ElectionInv, LogInv, PeersOk, LockInv;
    OnePair(cfg, s, h, l, p);
    LogAt(cfg, s, h, l);
    LogAt(cfg, s, h, p);
    LogsMatch(h, l, s.nodes[l], p, s.nodes[p]);
    PairNext(cfg.limits, h, l, s.nodes[l], p, s.nodes[p]);
  }

  lemma PairNext(limits: Limits, h: History, self: NodeId, l: Node, p: NodeId, f: Node)
    requires p in l.next && p in l.matched && Pair(limits, h, self, l, p, f)
    ensures l.next[p] <= |l.log| + 1
  {
  }

  lemma LogsMatch(h: History, a: NodeId, x: Node, b: NodeId, y: Node)
    requires LogGood(h, a, x) && LogGood(h, b, y)
    ensures Matching(y.log, x.log)
  {
    forall k: nat | k <= |y.log| && k <= |x.log| && TermAt(y.log, k) == TermAt(x.log, k)
      ensures Agree(y.log, x.log, k)
    {
      if k > 0 { CanonAgree(h.termLog, y.log, x.log, k); }
    }
  }

  /** Only exchanges with p change what the leader knows about p. */
  lemma QuietLeader(cfg: Config, s: State, h: History, step: Step, l: NodeId, p: NodeId)
    requires SafeInv(cfg, s, h) && Enabled(cfg, s, step) && step != Exchange(l, p, false)
    requires Tracks(s, l, p) && s.nodes[l].role == Leader && l in Do(cfg, s, step).nodes && Do(cfg, s, step).nodes[l].role == Leader
    ensures p in Do(cfg, s, step).nodes[l].next && Do(cfg, s, step).nodes[l].next[p] == s.nodes[l].next[p]
  {
    hide SafeInv;
    StepElectionOf(cfg, s, h, step);
    match step {
      case Exchange(a, b, lost) =>
        if b == l { ReceiverMatch(cfg, s, h, a, b); }
        if a == l && !lost {
          var m := MessageTo(cfg, s, l, b);
          ReplyKeepsNext(s.nodes[l], b, m, AppendReplyOf(s.nodes[b], m), p);
        }
      case _ =>
    }
  }

  lemma ReplyKeepsNext(l: Node, b: NodeId, m: AppendRequest, r: AppendReply, p: NodeId)
    requires b in l.next && p in l.next && p != b
    ensures p in HandleAppendReply(l, b, m, r).next && HandleAppendReply(l, b, m, r).next[p] == l.next[p]
  {
  }

  /** Once p is in the leader's term, only the leader changes p's log. */
  lemma QuietPeer(cfg: Config, s: State, h: History, step: Step, l: NodeId, p: NodeId, t: nat, log: Log)
    requires SafeInv(cfg, s, h) && Enabled(cfg, s, step) && !(step.Exchange? && step.l == l && step.p == p)
    requires Leads(s, l, p, t, log) && s.nodes[p].term == t
    requires p in Do(cfg, s, step).nodes && Do(cfg, s, step).nodes[p].term <= t
    ensures Do(cfg, s, step).nodes[p].log == s.nodes[p].log
  {
    hide SafeInv;
    LeaderTracks(cfg, s, h, l, p, t, log);
    LeadersApart(cfg, s, h, l, p);
    LeaderFlag(cfg, s, h, p);
    match step {
      case Exchange(a, b, lost) => QuietExchange(cfg, s, h, a, b, lost, Do(cfg, s, step), l, p, t, log);
      case _ =>
    }
  }

  lemma QuietExchange(cfg: Config, s: State, h: History, a: NodeId, b: NodeId, lost: bool, s': State, l: NodeId, p: NodeId, t: nat, log: Log)
    requires SafeInv(cfg, s, h) && Enabled(cfg, s, Exchange(a, b, lost)) && !(a == l && b == p)
    requires Leads(s, l, p, t, log) && s.nodes[p].term == t
    requires s' == Do(cfg, s, Exchange(a, b, lost)) && p in s'.nodes && s'.nodes[p].term <= t
    ensures s'.nodes[p].log == s.nodes[p].log
  {
    hide SafeInv;
    StepElectionOf(cfg, s, h, Exchange(a, b, lost));
    TwoLeaders(cfg, s, h, l, a);
    var m := MessageTo(cfg, s, a, b);
    ReplyKeepsLog(s.nodes[a], b, m, AppendReplyOf(s.nodes[b], m));
    MessageTerm(cfg.limits, s.nodes[a], a, s.nodes[a].next[b]);
    if b == p { ReceiverQuiet(s.nodes[p], m, t); }
    hide HandleAppend, AppendRequestOf, HandleAppendReply;
  }

  lemma MessageTerm(limits: Limits, l: Node, self: NodeId, next: Pos)
    ensures AppendRequestOf(limits, l, self, next).term == l.term
  {
  }

  lemma ReplyKeepsLog(l: Node, b: NodeId, m: AppendRequest, r: AppendReply)
    requires b in l.next
    ensures HandleAppendReply(l, b, m, r).log == l.log
  {
  }

  lemma ReceiverQuiet(f: Node, m: AppendRequest, t: nat)
    requires m.term != t && f.term == t && HandleAppend(f, m).term <= t
    ensures HandleAppend(f, m) == f
  {
  }

  lemma LeaderFlag(cfg: Config, s: State, h: History, n: NodeId)
    requires SafeInv(cfg, s, h) && n in s.nodes
    ensures s.nodes[n].leader == Some(n) <==> s.nodes[n].role == Leader
  {
    hide LogInv, PeersOk, LockInv;
    assert NodeGood(cfg, h.candLog, n, s.nodes[n]);
  }

  lemma TwoLeaders(cfg: Config, s: State, h: History, a: NodeId, b: NodeId)
    requires SafeInv(cfg, s, h) && a in s.nodes && b in s.nodes && s.nodes[a].role == s.nodes[b].role == Leader
    ensures s.nodes[a].term == s.nodes[b].term ==> a == b
  {
    hide ElectionInv, LogInv, PeersOk, LockInv;
    if s.nodes[a].term == s.nodes[b].term { OneLeaderNow(cfg, s, h, a, b); }
  }

  /** A lost reply does not undo progress. */
  lemma LostRound(limits: Limits, self: NodeId, l: Node, p: NodeId, f: Node)
    requires p in l.next && l.next[p] <= |l.log| + 1 && f.term <= l.term && Matching(f.log, l.log)
    ensures Left(l, p, HandleAppend(f, AppendRequestOf(limits, l, self, l.next[p]))) <= Left(l, p, f)
  {
    var m := AppendRequestOf(limits, l, self, l.next[p]);
    MessageServes(limits, l, self, p);
    FitsWhenFitting(limits, l, p, f, m);
    ReachIs(limits, l, p);
    BatchBounds(limits, l.log, l.next[p], 0, limits.header);
    hide AppendRequestOf, BatchFrom, Matching, BatchLen, Reach;
    if Fitting(l, p, f) {
      assert LogAfter(f.log, m) == l.log[..m.prevIndex + |m.entries|];
    }
  }

  lemma DeliveredLeft(cfg: Config, s: State, h: History, l: NodeId, p: NodeId, t: nat, log: Log)
    requires SafeInv(cfg, s, h) && Enabled(cfg, s, Exchange(l, p, false)) && Leads(s, l, p, t, log) && Tracks(s, l, p)
    requires Matching(s.nodes[p].log, log)
    ensures var s' := Do(cfg, s, Exchange(l, p, false));
      && Tracks(s', l, p) && s'.nodes[p].term == t
      && (Left(s'.nodes[l], p, s'.nodes[p]) < Left(s.nodes[l], p, s.nodes[p]) || Left(s'.nodes[l], p, s'.nodes[p]) == 0)
  {
    hide SafeInv;
    RoundEffect(cfg.limits, l, s.nodes[l], p, s.nodes[p]);
    hide HandleAppend, HandleAppendReply, AppendReplyOf, AppendRequestOf, Matching, Left;
  }

  /** What one step of any kind does to the number of exchanges still needed. */
  lemma StepLeft(cfg: Config, s: State, h: History, step: Step, h': History, l: NodeId, p: NodeId, t: nat, log: Log)
    requires SafeInv(cfg, s, h) && Enabled(cfg, s, step)
    requires SafeInv(cfg, Do(cfg, s, step), h')
    requires Leads(s, l, p, t, log) && Leads(Do(cfg, s, step), l, p, t, log)
    ensures Tracks(s, l, p) && Tracks(Do(cfg, s, step), l, p)
    ensures var s' := Do(cfg, s, step);
      if step == Exchange(l, p, false) then
        && s'.nodes[p].term == t
        && var after, before := Left(s'.nodes[l], p, s'.nodes[p]), Left(s.nodes[l], p, s.nodes[p]);
           after < before || after == 0
      else
        && s'.nodes[l].next[p] == s.nodes[l].next[p]
        && (s.nodes[p].term == t ==> Left(s'.nodes[l], p, s'.nodes[p]) <= Left(s.nodes[l], p, s.nodes[p]))
  {
    hide SafeInv, Do, Left, Matching;
    var s' := Do(cfg, s, step);
    LeaderTracks(cfg, s, h, l, p, t, log);
    LeaderTracks(cfg, s', h', l, p, t, log);
    if step == Exchange(l, p, false) {
      DeliveredLeft(cfg, s, h, l, p, t, log);
    } else {
      QuietLeader(cfg, s, h, step, l, p);
      if s.nodes[p].term == t {
        if step == Exchange(l, p, true) {
          LostLeft(cfg, s, h, l, p, t, log);
        } else {
          QuietPeer(cfg, s, h, step, l, p, t, log);
          SameLeft(s.nodes[l], s'.nodes[l], p, s.nodes[p], s'.nodes[p]);
        }
      }
    }
  }

  lemma SameLeft(l: Node, l': Node, p: NodeId, f: Node, f': Node)
    requires p in l.next && p in l'.next && l'.next[p] == l.next[p] <= |l.log| + 1 && l'.log == l.log && f'.log == f.log
    ensures Left(l', p, f') == Left(l, p, f)
  {
  }

  lemma LostLeft(cfg: Config, s: State, h: History, l: NodeId, p: NodeId, t: nat, log: Log)
    requires SafeInv(cfg, s, h) && Enabled(cfg, s, Exchange(l, p, true)) && Leads(s, l, p, t, log) && Tracks(s, l, p)
    requires Matching(s.nodes[p].log, log)
    ensures var s' := Do(cfg, s, Exchange(l, p, true));
      && l in s'.nodes && p in s'.nodes && s'.nodes[l] == s.nodes[l]
      && Left(s'.nodes[l], p, s'.nodes[p]) <= Left(s.nodes[l], p, s.nodes[p])
  {
    hide SafeInv;
    LostRound(cfg.limits, l, s.nodes[l], p, s.nodes[p]);
    hide HandleAppend, Matching, AppendRequestOf, Left;
  }

  // ---------------------------------------------------------------- runs

  /** The exchanges of l with p that are delivered in steps i to j - 1. */
  function Delivered(steps: seq<Step>, i: nat, j: nat, l: NodeId, p: NodeId): nat
    requires i <= j <= |steps|
    decreases j
  {
    if i == j then 0
    else Delivered(steps, i, j - 1, l, p) + if steps[j - 1] == Exchange(l, p, false) then 1 else 0
  }

  ghost predicate Reign(states: seq<State>, i: nat, j: nat, l: NodeId, p: NodeId, t: nat, log: Log) {
    i <= j < |states| && forall x: nat | i <= x <= j :: Leads(states[x], l, p, t, log)
  }

  lemma StepOfRun(cfg: Config, states: seq<State>, steps: seq<Step>, i: nat)
    requires TimelyRun(cfg, states, steps) && i < |steps|
    ensures Enabled(cfg, states[i], steps[i]) && states[i + 1] == Do(cfg, states[i], steps[i])
    ensures SafeInv(cfg, states[i], HistoryAt(cfg, states, steps, i))
    ensures SafeInv(cfg, states[i + 1], HistoryAt(cfg, states, steps, i + 1))
    ensures Forward(states[i], states[i + 1])
  {
    hide SafeInv, Do, Enabled, HistoryAt, Forward;
    RunSafe(cfg, states, steps, i);
    RunSafe(cfg, states, steps, i + 1);
    RunLater(cfg, states, steps, i, i + 1);
  }

  /** At most `n` delivered exchanges after a moment when the next index was `next`, the peer is caught
      up, or the remaining work has shrunk with every one of them. */
  ghost predicate Progress(s: State, l: NodeId, p: NodeId, t: nat, start: nat, n: nat)
    requires Tracks(s, l, p)
  {
    var left := Left(s.nodes[l], p, s.nodes[p]);
    if n == 0 then s.nodes[l].next[p] == start
    else s.nodes[p].term == t && (left == 0 || left + n <= start + |s.nodes[l].log|)
  }

  lemma StepProgress(cfg: Config, s: State, h: History, step: Step, h': History, l: NodeId, p: NodeId, t: nat, log: Log, start: nat, n: nat)
    requires SafeInv(cfg, s, h) && Enabled(cfg, s, step) && Forward(s, Do(cfg, s, step))
    requires SafeInv(cfg, Do(cfg, s, step), h')
    requires Leads(s, l, p, t, log) && Leads(Do(cfg, s, step), l, p, t, log)
    requires Tracks(s, l, p) && Progress(s, l, p, t, start, n)
    ensures Tracks(Do(cfg, s, step), l, p)
    ensures Progress(Do(cfg, s, step), l, p, t, start, if step == Exchange(l, p, false) then n + 1 else n)
  {
    hide SafeInv;
    StepLeft(cfg, s, h, step, h', l, p, t, log);
    assert NodeForward(s.nodes[p], Do(cfg, s, step).nodes[p]);
    hide Do, Enabled, Left;
  }

  lemma {:induction false} LeftAfter(cfg: Config, states: seq<State>, steps: seq<Step>, i: nat, j: nat, l: NodeId, p: NodeId, t: nat, log: Log)
    requires TimelyRun(cfg, states, steps) && Reign(states, i, j, l, p, t, log)
    ensures Tracks(states[i], l, p) && Tracks(states[j], l, p)
    ensures Progress(states[j], l, p, t, states[i].nodes[l].next[p], Delivered(steps, i, j, l, p))
    decreases j
  {
    hide SafeInv, Forward, HistoryAt, Leads, Tracks, Progress, Do, Enabled;
    if i == j {
      RunSafe(cfg, states, steps, j);
      LeaderTracks(cfg, states[j], HistoryAt(cfg, states, steps, j), l, p, t, log);
      ProgressStart(states[j], l, p, t);
    } else {
      LeftAfter(cfg, states, steps, i, j - 1, l, p, t, log);
      StepOfRun(cfg, states, steps, j - 1);
      TracksNext(states[i], l, p);
      StepProgress(cfg, states[j - 1], HistoryAt(cfg, states, steps, j - 1), steps[j - 1], HistoryAt(cfg, states, steps, j),
                   l, p, t, log, states[i].nodes[l].next[p], Delivered(steps, i, j - 1, l, p));
    }
  }

  lemma TracksNext(s: State, l: NodeId, p: NodeId)
    requires Tracks(s, l, p)
    ensures l in s.nodes && p in s.nodes[l].next
  {
  }

  lemma ProgressStart(s: State, l: NodeId, p: NodeId, t: nat)
    requires Tracks(s, l, p)
    ensures l in s.nodes && p in s.nodes[l].next && Progress(s, l, p, t, s.nodes[l].next[p], 0)
  {
  }

  /** Catch-up: while l leads with an unchanged log and p is in no later term, p's log equals l's as soon
      as next + |log| exchanges between them were delivered, whatever else happens in between; and it
      stays equal for the rest of the reign. */
  lemma CaughtUp(cfg: Config, states: seq<State>, steps: seq<Step>, i: nat, j: nat, l: NodeId, p: NodeId, t: nat, log: Log)
    requires TimelyRun(cfg, states, steps) && Reign(states, i, j, l, p, t, log)
    ensures l in states[i].nodes && p in states[i].nodes[l].next
    ensures Delivered(steps, i, j, l, p) >= states[i].nodes[l].next[p] + |log| ==>
      p in states[j].nodes && states[j].nodes[p].log == log && states[j].nodes[p].term == t
  {
    hide TimelyRun, SafeInv;
    LeftAfter(cfg, states, steps, i, j, l, p, t, log);
  }
}
