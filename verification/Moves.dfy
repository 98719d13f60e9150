/** Moves that build runs: a node wins an election with the help of a given group, a leader brings
    a peer up to date, a request deposes a leader. */
module Moves {
  import opened Types
  import opened Protocol
  import opened Cluster
  import opened Replication
  import opened Locks
  import opened Safety
  import opened Traces
  import opened CatchUp

  /** A longer run of the same cluster in which no node has applied anything more. */
  ghost predicate Quietly(cfg: Config, tr: Trace, tr': Trace) {
    && Good(cfg, tr) && Good(cfg, tr')
    && tr.states <= tr'.states && tr.steps <= tr'.steps && Now(tr').nodes.Keys == Now(tr).nodes.Keys
    && forall n :: Fed(cfg, tr', n) == Fed(cfg, tr, n)
  }

  /** No node has applied anything. */
  ghost predicate NothingFed(cfg: Config, tr: Trace) {
    Good(cfg, tr) && forall n :: Fed(cfg, tr, n) == []
  }

  lemma StillNothing(cfg: Config, tr: Trace, tr': Trace)
    requires NothingFed(cfg, tr) && Quietly(cfg, tr, tr')
    ensures NothingFed(cfg, tr')
  {
  }

  lemma IsGood(cfg: Config, tr: Trace)
    requires NothingFed(cfg, tr)
    ensures Good(cfg, tr)
  {
  }

  lemma NowIs(cfg: Config, tr: Trace)
    requires Good(cfg, tr)
    ensures |tr.states| == |tr.steps| + 1 && Now(tr) == tr.states[|tr.steps|]
  {
  }

  /** n is in this term with this log and has committed nothing. */
  ghost predicate IsAt(s: State, n: NodeId, term: nat, log: Log) {
    n in s.nodes && s.nodes[n].term == term && s.nodes[n].log == log && s.nodes[n].commit == 0 && s.nodes[n].applied == 0
  }

  /** n stands for term 1 and nothing else has happened to it. */
  ghost predicate Stands(s: State, n: NodeId) {
    n in s.nodes && s.nodes[n].role == Candidate && s.nodes[n].term == 1 && s.nodes[n].voteQuorum == 1 && s.nodes[n].log == []
  }

  /** Nothing has happened to n. */
  ghost predicate Fresh(s: State, n: NodeId) {
    && n in s.nodes && s.nodes[n].role == Follower && s.nodes[n].term == 0 && s.nodes[n].log == []
    && s.nodes[n].voteFor == map[] && s.nodes[n].commit == 0 && s.nodes[n].applied == 0
  }

  lemma StartFresh(cfg: Config) returns (tr: Trace)
    ensures NothingFed(cfg, tr) && Now(tr).nodes.Keys == cfg.members && forall n | n in Now(tr).nodes :: Fresh(Now(tr), n)
  {
    tr := Start(cfg);
    StartGood(cfg);
    hide Good, Fed;
    assert forall n | n in cfg.members :: Init(cfg).nodes[n] == InitNode(cfg, n);
  }

  /** Any step but an apply step. */
  lemma Move(cfg: Config, tr: Trace, step: Step) returns (tr': Trace)
    requires Good(cfg, tr) && Enabled(cfg, Now(tr), step) && TimelyStep(Now(tr), step) && !step.Apply?
    ensures Good(cfg, tr') && Quietly(cfg, tr, tr') && Now(tr') == Do(cfg, Now(tr), step)
    ensures tr'.steps == tr.steps + [step]
  {
    hide Enabled, TimelyStep;
    tr' := Extend(cfg, tr, step);
    ExtendGood(cfg, tr, step);
    NowBasics(cfg, tr);
    NowBasics(cfg, tr');
    forall n ensures Fed(cfg, tr', n) == Fed(cfg, tr, n) { ExtendFed(cfg, tr, step, n); }
    hide Good, Do;
  }

  lemma MoveApply(cfg: Config, tr: Trace, n: NodeId) returns (tr': Trace)
    requires Good(cfg, tr) && n in Now(tr).nodes
    requires Now(tr).nodes[n].applied < Now(tr).nodes[n].commit <= |Now(tr).nodes[n].log|
    ensures Good(cfg, tr') && Now(tr') == Now(tr).(nodes := Now(tr').nodes) && Only(Now(tr), Now(tr'), {n})
    ensures Now(tr').nodes[n] == ApplyCommitted(Now(tr).nodes[n])
    ensures tr'.steps == tr.steps + [Apply(n)] && tr.states <= tr'.states
    ensures forall m | m != n :: Fed(cfg, tr', m) == Fed(cfg, tr, m)
    ensures Fed(cfg, tr', n) == Fed(cfg, tr, n) + Now(tr).nodes[n].log[Now(tr).nodes[n].applied..Now(tr).nodes[n].commit]
  {
    tr' := Extend(cfg, tr, Apply(n));
    ExtendGood(cfg, tr, Apply(n));
    forall m ensures m != n ==> Fed(cfg, tr', m) == Fed(cfg, tr, m) { ExtendFed(cfg, tr, Apply(n), m); }
    ExtendFed(cfg, tr, Apply(n), n);
    hide Good, Fed, ApplyCommitted;
  }

  /** A command reaches a leader. */
  lemma MoveClient(cfg: Config, tr: Trace, n: NodeId, op: Op) returns (tr': Trace)
    requires Good(cfg, tr) && n in Now(tr).nodes && Now(tr).nodes[n].role == Leader
    ensures Good(cfg, tr') && Quietly(cfg, tr, tr') && Only(Now(tr), Now(tr'), {n})
    ensures Now(tr').nodes[n] == ClientAppend(Now(tr).nodes[n], op)
    ensures Now(tr').requests == Now(tr).requests && tr'.steps == tr.steps + [Client(n, op)]
  {
    hide Good, Fed, Quietly, Now, Do;
    ReadyForClient(cfg, tr, n);
    tr' := Move(cfg, tr, Client(n, op));
    ClientEffect(cfg, Now(tr), n, op);
  }

  lemma ReadyForClient(cfg: Config, tr: Trace, n: NodeId)
    requires Good(cfg, tr) && n in Now(tr).nodes && Now(tr).nodes[n].role == Leader
    ensures Now(tr).nodes[n].leader == Some(n)
  {
    hide Good, Now;
    NowBasics(cfg, tr);
  }

  lemma ClientEffect(cfg: Config, s: State, n: NodeId, op: Op)
    requires n in s.nodes && s.nodes[n].leader == Some(n)
    ensures var s' := Do(cfg, s, Client(n, op));
      Only(s, s', {n}) && s'.nodes[n] == ClientAppend(s.nodes[n], op) && s'.requests == s.requests
  {
  }

  /** A vote request reaches its receiver. */
  lemma MoveAsk(cfg: Config, tr: Trace, req: VoteRequest) returns (tr': Trace)
    requires Good(cfg, tr) && req in Now(tr).requests && req.to in Now(tr).nodes
    ensures Good(cfg, tr') && Quietly(cfg, tr, tr') && Only(Now(tr), Now(tr'), {req.to})
    ensures Now(tr').nodes[req.to] == HandleVoteRequest(Now(tr).nodes[req.to], req)
    ensures Now(tr').requests == Now(tr).requests - {req}
    ensures VoteReplyOf(Now(tr).nodes[req.to], req) in Now(tr').replies
  {
    tr' := Move(cfg, tr, AskVote(req));
    hide Quietly, Good, HandleVoteRequest, VoteReplyOf;
  }

  /** A granted vote reaches its candidate. */
  lemma MoveReply(cfg: Config, tr: Trace, y: VoteReply) returns (tr': Trace)
    requires Good(cfg, tr) && y in Now(tr).replies && y.candidate in Now(tr).nodes && y.granted
    ensures Good(cfg, tr') && Quietly(cfg, tr, tr') && Only(Now(tr), Now(tr'), {y.candidate})
    ensures Now(tr').nodes[y.candidate] == HandleVoteReply(Now(tr).nodes[y.candidate], y.candidate, |cfg.members|, y)
    ensures Now(tr').requests == Now(tr).requests
  {
    tr' := Move(cfg, tr, TakeReply(y));
    hide Quietly, Good, HandleVoteReply;
  }

  lemma MoveTimeout(cfg: Config, tr: Trace, n: NodeId) returns (tr': Trace)
    requires Good(cfg, tr) && n in Now(tr).nodes && Now(tr).nodes[n].role != Leader
    ensures Good(cfg, tr') && Quietly(cfg, tr, tr') && Only(Now(tr), Now(tr'), {n})
    ensures Now(tr').nodes[n] == BecomeCandidate(Now(tr).nodes[n])
    ensures forall p | p in cfg.members && p != n :: VoteRequestOf(Now(tr').nodes[n], n, p) in Now(tr').requests
    ensures Now(tr).requests <= Now(tr').requests
  {
    tr' := Move(cfg, tr, Timeout(n));
    hide Quietly, Good, BecomeCandidate, VoteRequestOf;
  }

  lemma MoveExchange(cfg: Config, tr: Trace, l: NodeId, p: NodeId) returns (tr': Trace)
    requires Good(cfg, tr) && l in Now(tr).nodes && Leads(Now(tr), l, p, Now(tr).nodes[l].term, Now(tr).nodes[l].log)
    ensures Good(cfg, tr') && Quietly(cfg, tr, tr') && Only(Now(tr), Now(tr'), {l, p}) && Tracks(Now(tr), l, p)
    ensures Matching(Now(tr).nodes[p].log, Now(tr).nodes[l].log)
    ensures Now(tr').requests == Now(tr).requests
    ensures var L, f := Now(tr).nodes[l], Now(tr).nodes[p];
      var m := AppendRequestOf(cfg.limits, L, l, L.next[p]);
      Now(tr').nodes[l] == HandleAppendReply(L, p, m, AppendReplyOf(f, m)) && Now(tr').nodes[p] == HandleAppend(f, m)
  {
    hide SafeInv;
    NowSafe(cfg, tr);
    LeaderTracks(cfg, Now(tr), HistoryAt(cfg, tr.states, tr.steps, |tr.steps|), l, p, Now(tr).nodes[l].term, Now(tr).nodes[l].log);
    tr' := Move(cfg, tr, Exchange(l, p, false));
    hide Quietly, Good, HandleAppend, HandleAppendReply, AppendRequestOf, AppendReplyOf, Matching;
  }

  lemma NowSafe(cfg: Config, tr: Trace)
    requires Good(cfg, tr)
    ensures SafeInv(cfg, Now(tr), HistoryAt(cfg, tr.states, tr.steps, |tr.steps|))
  {
    hide SafeInv;
    RunSafe(cfg, tr.states, tr.steps, |tr.steps|);
  }

  // ---------------------------------------------------------------- winning an election

  /** The same log and the same progress. */
  ghost predicate SameData(n: Node, n': Node) {
    n'.log == n.log && n'.commit == n.commit && n'.applied == n.applied
  }

  /** Every node of a group is in a term below t, or already in t without having voted there,
      and would find the candidate's log good enough. */
  ghost predicate Willing(s: State, group: set<NodeId>, c: Node) {
    forall v | v in group ::
      v in s.nodes && s.nodes[v].term < c.term && UpToDate(LastTerm(c.log), |c.log|, s.nodes[v].log)
  }

  ghost predicate Running(cfg: Config, s: State, c: NodeId, group: set<NodeId>) {
    && c in s.nodes && c !in group && s.nodes[c].role == Candidate
    && s.nodes[c].voteQuorum <= |cfg.members| / 2 < s.nodes[c].voteQuorum + |group|
    && Willing(s, group, s.nodes[c])
    && forall v | v in group :: VoteRequestOf(s.nodes[c], c, v) in s.requests
  }

  /** c has won; members of the group may have moved to its term, and nothing else has changed. */
  ghost predicate Won(s: State, s': State, c: NodeId, group: set<NodeId>)
    requires c in s.nodes
  {
    && Only(s, s', group + {c})
    && var n, n' := s.nodes[c], s'.nodes[c];
    && n'.role == Leader && n'.term == n.term && SameData(n, n') && n'.voteFor == n.voteFor
    && (forall p | p in n'.next :: n'.next[p] == |n.log| + 1) && (forall p | p in n'.matched :: n'.matched[p] == 0)
    && (forall v | v in group && v in s.nodes :: SameData(s.nodes[v], s'.nodes[v]) && s'.nodes[v].term <= n.term)
    && (forall r | r in s.requests && r.to !in group :: r in s'.requests)
  }

  lemma OneVote(cfg: Config, tr: Trace, c: NodeId, v: NodeId, group: set<NodeId>) returns (tr': Trace)
    requires Good(cfg, tr) && Running(cfg, Now(tr), c, group) && v in group
    ensures Good(cfg, tr') && Quietly(cfg, tr, tr') && Only(Now(tr), Now(tr'), {c, v})
    ensures SameData(Now(tr).nodes[v], Now(tr').nodes[v]) && Now(tr').nodes[v].term == Now(tr).nodes[c].term
    ensures var n := Now(tr).nodes[c];
      Now(tr').nodes[c] == if n.voteQuorum + 1 > |cfg.members| / 2
                           then BecomeLeader(n, c).(voteQuorum := n.voteQuorum + 1) else n.(voteQuorum := n.voteQuorum + 1)
    ensures Now(tr').requests == Now(tr).requests - {VoteRequestOf(Now(tr).nodes[c], c, v)}
  {
    hide Good, Now, Fed, Quietly, HandleVoteRequest, HandleVoteReply, VoteReplyOf, VoteRequestOf, Running, BecomeLeader;
    var s := Now(tr);
    NowBasics(cfg, tr);
    VoterReady(cfg, s, c, v, group);
    var req := VoteRequestOf(s.nodes[c], c, v);
    hide Basics, Grants;
    GrantedVote(s.nodes[v], req);
    var tr1 := MoveAsk(cfg, tr, req);
    var y := VoteReply(v, c, req.term, req.term, true);
    CandidateCounts(s.nodes[c], c, |cfg.members|, y);
    tr' := MoveReply(cfg, tr1, y);
    QuietlyTrans(cfg, tr, tr1, tr');
  }

  lemma VoterReady(cfg: Config, s: State, c: NodeId, v: NodeId, group: set<NodeId>)
    requires Running(cfg, s, c, group) && v in group && Basics(cfg, s)
    ensures c in s.nodes && v in s.nodes && c != v && s.nodes[c].role == Candidate
    ensures var req := VoteRequestOf(s.nodes[c], c, v);
      && req in s.requests && req.from == c && req.to == v && req.term == s.nodes[c].term && Grants(s.nodes[v], req)
  {
  }

  lemma CandidateCounts(n: Node, c: NodeId, size: nat, y: VoteReply)
    requires n.role == Candidate && y.granted && y.term == n.term
    ensures HandleVoteReply(n, c, size, y) ==
      if n.voteQuorum + 1 > size / 2 then BecomeLeader(n, c).(voteQuorum := n.voteQuorum + 1) else n.(voteQuorum := n.voteQuorum + 1)
  {
  }

  lemma GrantedVote(v: Node, req: VoteRequest)
    requires Grants(v, req)
    ensures VoteReplyOf(v, req) == VoteReply(req.to, req.from, req.term, req.term, true)
    ensures SameData(v, HandleVoteRequest(v, req)) && HandleVoteRequest(v, req).term == req.term
  {
  }

  lemma QuietlyTrans(cfg: Config, a: Trace, b: Trace, c: Trace)
    requires Quietly(cfg, a, b) && Quietly(cfg, b, c)
    ensures Good(cfg, c) && Quietly(cfg, a, c)
  {
    hide Good, Fed;
    assert a.states <= c.states && a.steps <= c.steps;
  }

  lemma {:induction false} Collect(cfg: Config, tr: Trace, c: NodeId, group: set<NodeId>) returns (tr': Trace)
    requires Good(cfg, tr) && Running(cfg, Now(tr), c, group)
    ensures Good(cfg, tr') && Quietly(cfg, tr, tr') && Won(Now(tr), Now(tr'), c, group)
    decreases |group|
  {
    hide Good, Fed, Quietly, Now, BecomeLeader, Won;
    var v :| v in group;
    var tr1 := OneVote(cfg, tr, c, v, group);
    var s, s1 := Now(tr), Now(tr1);
    if s.nodes[c].voteQuorum + 1 > |cfg.members| / 2 {
      tr' := tr1;
      WonAtLast(cfg, s, s1, c, v, group);
    } else {
      var rest := group - {v};
      assert Running(cfg, s1, c, rest) by { StillRunning(cfg, s, s1, c, v, group); }
      tr' := Collect(cfg, tr1, c, rest);
      QuietlyTrans(cfg, tr, tr1, tr');
      assert c !in group && v in s.nodes;
      hide Running;
      WonTrans(s, s1, Now(tr'), c, v, group);
    }
  }

  lemma WonAtLast(cfg: Config, s: State, s1: State, c: NodeId, v: NodeId, group: set<NodeId>)
    requires Running(cfg, s, c, group) && v in group && Only(s, s1, {c, v})
    requires SameData(s.nodes[v], s1.nodes[v]) && s1.nodes[v].term == s.nodes[c].term
    requires s1.nodes[c] == BecomeLeader(s.nodes[c], c).(voteQuorum := s.nodes[c].voteQuorum + 1)
    requires s1.requests == s.requests - {VoteRequestOf(s.nodes[c], c, v)}
    ensures Won(s, s1, c, group)
  {
    hide BecomeLeader;
    LeaderNow(s.nodes[c], c);
    forall u | u in group ensures SameData(s.nodes[u], s1.nodes[u]) && s1.nodes[u].term <= s.nodes[c].term {
      if u != v { assert s1.nodes[u] == s.nodes[u]; }
    }
  }

  lemma StillRunning(cfg: Config, s: State, s1: State, c: NodeId, v: NodeId, group: set<NodeId>)
    requires Running(cfg, s, c, group) && v in group && Only(s, s1, {c, v})
    requires c in s.nodes && c in s1.nodes && s1.nodes[c] == s.nodes[c].(voteQuorum := s.nodes[c].voteQuorum + 1) && s1.nodes[c].voteQuorum <= |cfg.members| / 2
    requires s1.requests == s.requests - {VoteRequestOf(s.nodes[c], c, v)}
    ensures Running(cfg, s1, c, group - {v})
  {
  }

  lemma LeaderNow(n: Node, c: NodeId)
    ensures var n' := BecomeLeader(n, c).(voteQuorum := n.voteQuorum + 1);
      && n'.role == Leader && n'.term == n.term && SameData(n, n') && n'.voteFor == n.voteFor
      && (forall p | p in n'.next :: n'.next[p] == |n.log| + 1) && (forall p | p in n'.matched :: n'.matched[p] == 0)
  {
  }

  lemma WonTrans(s: State, s1: State, s2: State, c: NodeId, v: NodeId, group: set<NodeId>)
    requires c in s.nodes && v in s.nodes && v in group && c != v && Only(s, s1, {c, v}) && Won(s1, s2, c, group - {v})
    requires SameData(s.nodes[v], s1.nodes[v]) && s1.nodes[v].term == s.nodes[c].term == s1.nodes[c].term
    requires SameData(s.nodes[c], s1.nodes[c]) && s1.nodes[c].voteFor == s.nodes[c].voteFor && c !in group
    requires forall r | r in s.requests && r.to != v :: r in s1.requests
    ensures Won(s, s2, c, group)
  {
  }

  /** c times out and wins the next term with the votes of a group. */
  lemma Elect(cfg: Config, tr: Trace, c: NodeId, group: set<NodeId>) returns (tr': Trace)
    requires Good(cfg, tr) && c in cfg.members && group <= cfg.members - {c} && 1 + |group| > |cfg.members| / 2 >= 1
    requires c in Now(tr).nodes && Now(tr).nodes[c].role != Leader
    requires Willing(Now(tr), group, BecomeCandidate(Now(tr).nodes[c]))
    ensures Good(cfg, tr') && Quietly(cfg, tr, tr')
    ensures Won(Now(tr).(nodes := Now(tr).nodes[c := BecomeCandidate(Now(tr).nodes[c])]), Now(tr'), c, group)
    ensures forall p | p in cfg.members && p != c && p !in group ::
      VoteRequestOf(BecomeCandidate(Now(tr).nodes[c]), c, p) in Now(tr').requests
  {
    hide Good;
    var tr1 := MoveTimeout(cfg, tr, c);
    assert Running(cfg, Now(tr1), c, group) by { hide Quietly; }
    tr' := Collect(cfg, tr1, c, group);
    QuietlyTrans(cfg, tr, tr1, tr');
    hide Quietly, Running, VoteRequestOf;
  }

  /** A request that is not good enough still ends the receiver's reign. */
  lemma Depose(cfg: Config, tr: Trace, req: VoteRequest) returns (tr': Trace)
    requires Good(cfg, tr) && req in Now(tr).requests && req.to in Now(tr).nodes
    requires Now(tr).nodes[req.to].term < req.term && !UpToDate(req.lastTerm, req.lastIndex, Now(tr).nodes[req.to].log)
    ensures Good(cfg, tr') && Quietly(cfg, tr, tr') && Only(Now(tr), Now(tr'), {req.to})
    ensures var n' := Now(tr').nodes[req.to];
      n'.role == Follower && n'.term == req.term && SameData(Now(tr).nodes[req.to], n')
  {
    tr' := MoveAsk(cfg, tr, req);
  }

  // ---------------------------------------------------------------- bringing a peer up to date

  /** Only the last entry may be of the leader's own term. */
  ghost predicate OnlyLast(l: Node) {
    |l.log| >= 1 && forall k: nat | k + 1 < |l.log| :: l.log[k].term != l.term
  }

  ghost predicate Lacks(f: Node, l: Node) { !Agree(f.log, l.log, |l.log|) }

  /** The leader's commit index once `sure` entries are acknowledged by the peer. */
  ghost function CommitOnce(l0: Node, l: Node, sure: nat): nat {
    if sure == |l.log| && LastTerm(l.log) == l.term then Max(l0.commit, QuorumIndex(l.matched, |l.log|)) else l0.commit
  }

  /** Where delivered rounds have led that started from l0 and f0: nothing has been accepted yet,
      or the peer holds exactly the acknowledged part of the leader's log. */
  ghost predicate Rounds(l0: Node, p: NodeId, f0: Node, l: Node, f: Node)
    requires p in l0.next && p in l0.matched
  {
    && SameLeader(l0, p, l) && l.next[p] <= |l.log| + 1 && f.applied == f0.applied
    && ((f.log <= f0.log && l.matched == l0.matched && l.commit == l0.commit && f.term <= l0.term)
        || (&& 1 <= Sure(l, p) <= |l.log| && f.log == l.log[..Sure(l, p)] && f.term == l0.term
            && l.matched[p] == Sure(l, p) && l.commit == CommitOnce(l0, l, Sure(l, p))))
  }

  lemma SameLeaderTrans(a: Node, p: NodeId, b: Node, c: Node)
    requires p in a.next && p in a.matched && SameLeader(a, p, b) && SameLeader(b, p, c)
    ensures SameLeader(a, p, c)
  {
    assert b.next[p := c.next[p]] == a.next[p := c.next[p]];
    assert b.matched[p := c.matched[p]] == a.matched[p := c.matched[p]];
  }

  lemma ReceiverFails(f: Node, m: AppendRequest)
    requires !Fits(f.log, m)
    ensures HandleAppend(f, m).log <= f.log && HandleAppend(f, m).applied == f.applied
  {
  }

  lemma ReceiverApplied(f: Node, m: AppendRequest)
    ensures HandleAppend(f, m).applied == f.applied
  {
  }

  lemma StillLacks(f0: Node, f: Node, l: Node)
    requires Lacks(f0, l)
    ensures f.log <= f0.log ==> Lacks(f, l) && f.log != l.log
  {
  }

  lemma RoundsFail(l0: Node, p: NodeId, f0: Node, l: Node, f: Node, l': Node, f': Node)
    requires p in l0.next && p in l0.matched && Rounds(l0, p, f0, l, f)
    requires SameLeader(l, p, l') && SameLeader(l0, p, l') && l'.next[p] <= |l.log| + 1 && f'.term == l.term && f'.applied == f.applied
    requires !Fitting(l, p, f) && l'.matched[p] == l.matched[p] && l'.commit == l.commit && f'.log <= f.log
    ensures Rounds(l0, p, f0, l', f')
  {
    hide CommitOnce;
    assert l'.matched == l.matched;
    assert f.log != l.log[..Sure(l, p)];
  }

  lemma RoundsFit(limits: Limits, l0: Node, p: NodeId, f0: Node, l: Node, f: Node, m: AppendRequest, l': Node, f': Node)
    requires p in l0.next && p in l0.matched && Rounds(l0, p, f0, l, f) && OnlyLast(l0) && Lacks(f0, l0)
    requires SameLeader(l, p, l') && SameLeader(l0, p, l') && l'.next[p] <= |l.log| + 1 && f'.term == l.term && f'.applied == f.applied
    requires Fitting(l, p, f) && f'.log == l.log[..Sure(l', p)]
    requires l.next[p] <= |l.log| ==> l.next[p] < l'.next[p] && l'.matched[p] == Sure(l', p)
    requires l.next[p] == |l.log| + 1 ==> l' == l
    requires l.next[p] <= |l.log| ==>
      l'.commit == if l.log[Sure(l', p) - 1].term == l.term then Max(l.commit, QuorumIndex(l'.matched, |l.log|)) else l.commit
    ensures Rounds(l0, p, f0, l', f')
  {
    hide QuorumIndex;
    StillLacks(f0, f, l0);
  }

  lemma RoundKeeps(limits: Limits, self: NodeId, l0: Node, p: NodeId, f0: Node, l: Node, f: Node, m: AppendRequest, l': Node, f': Node)
    requires p in l0.next && p in l0.matched && Rounds(l0, p, f0, l, f) && l.role == Leader && Matching(f.log, l.log)
    requires OnlyLast(l0) && Lacks(f0, l0)
    requires m == AppendRequestOf(limits, l, self, l.next[p])
    requires l' == HandleAppendReply(l, p, m, AppendReplyOf(f, m)) && f' == HandleAppend(f, m)
    ensures Rounds(l0, p, f0, l', f')
    ensures Left(l', p, f') < Left(l, p, f) || Left(l', p, f') == Left(l, p, f) == 0
  {
    RoundEffect(limits, self, l, p, f);
    MessageServes(limits, l, self, p);
    FitsWhenFitting(limits, l, p, f, m);
    ReceiverApplied(f, m);
    hide AppendRequestOf, HandleAppendReply, HandleAppend, BatchFrom, QuorumIndex, Matching, Fits, Reach, Left, AppendReplyOf, Lacks, OnlyLast, CommitOnce;
    SameLeaderTrans(l0, p, l, l');
    hide Rounds;
    if Fitting(l, p, f) {
      RoundSucceeds(limits, l, p, f, m);
      RoundsFit(limits, l0, p, f0, l, f, m, l', f');
    } else {
      RoundFails(limits, l, p, f, m);
      ReceiverFails(f, m);
      RoundsFail(l0, p, f0, l, f, l', f');
    }
  }

  ghost predicate Synced(s: State, s': State, l: NodeId, p: NodeId)
    requires l in s.nodes && p in s.nodes
  {
    && Only(s, s', {l, p}) && s'.requests == s.requests
    && SyncedNodes(s.nodes[l], p, s.nodes[p], s'.nodes[l], s'.nodes[p])
  }

  ghost predicate SyncedNodes(l: Node, p: NodeId, f: Node, l': Node, f': Node) {
    && l' == l.(next := l'.next, matched := l.matched[p := |l.log|], commit := CommitOnce(l, l', |l.log|))
    && f'.log == l.log && f'.term == l.term && f'.applied == f.applied
  }

  lemma RoundsDone(l0: Node, p: NodeId, f0: Node, l: Node, f: Node)
    requires p in l0.next && p in l0.matched && Rounds(l0, p, f0, l, f) && Lacks(f0, l0) && Left(l, p, f) == 0
    ensures SyncedNodes(l0, p, f0, l, f)
  {
    hide QuorumIndex;
    StillLacks(f0, f, l0);
  }

  lemma RoundsStart(l: Node, p: NodeId, f: Node)
    requires p in l.next && p in l.matched && l.next[p] <= |l.log| + 1 && f.term <= l.term
    ensures Rounds(l, p, f, l, f)
  {
    SameView(l, p);
  }

  lemma {:induction false} SyncFrom(cfg: Config, tr: Trace, l: NodeId, p: NodeId, s0: State) returns (tr': Trace)
    requires Good(cfg, tr) && l in s0.nodes && p in s0.nodes && p != l && Only(s0, Now(tr), {l, p}) && Now(tr).requests == s0.requests
    requires p in s0.nodes[l].next && p in s0.nodes[l].matched && s0.nodes[l].role == Leader
    requires Rounds(s0.nodes[l], p, s0.nodes[p], Now(tr).nodes[l], Now(tr).nodes[p])
    requires OnlyLast(s0.nodes[l]) && Lacks(s0.nodes[p], s0.nodes[l])
    ensures Good(cfg, tr') && Quietly(cfg, tr, tr') && Synced(s0, Now(tr'), l, p)
    decreases Left(Now(tr).nodes[l], p, Now(tr).nodes[p])
  {
    hide Good, Now, Fed, Quietly, Left, AppendRequestOf, HandleAppendReply, HandleAppend, AppendReplyOf, SyncedNodes, Matching;
    hide OnlyLast, Lacks;
    var L, f := Now(tr).nodes[l], Now(tr).nodes[p];
    assert SameLeader(s0.nodes[l], p, L) && L.next[p] <= |L.log| + 1 && f.term <= L.term;
    hide Rounds;
    if Left(L, p, f) == 0 {
      tr' := tr;
      RoundsDone(s0.nodes[l], p, s0.nodes[p], L, f);
      QuietlyRefl(cfg, tr);
    } else {
      var tr1 := MoveExchange(cfg, tr, l, p);
      var m := AppendRequestOf(cfg.limits, L, l, L.next[p]);
      RoundKeeps(cfg.limits, l, s0.nodes[l], p, s0.nodes[p], L, f, m, Now(tr1).nodes[l], Now(tr1).nodes[p]);
      tr' := SyncFrom(cfg, tr1, l, p, s0);
      QuietlyTrans(cfg, tr, tr1, tr');
    }
  }

  lemma QuietlyRefl(cfg: Config, tr: Trace)
    requires Good(cfg, tr)
    ensures Quietly(cfg, tr, tr)
  {
  }

  /** The leader l brings p, which lacks the end of l's log, up to date. */
  lemma Sync(cfg: Config, tr: Trace, l: NodeId, p: NodeId) returns (tr': Trace)
    requires Good(cfg, tr) && l in Now(tr).nodes && Leads(Now(tr), l, p, Now(tr).nodes[l].term, Now(tr).nodes[l].log)
    requires OnlyLast(Now(tr).nodes[l]) && Lacks(Now(tr).nodes[p], Now(tr).nodes[l])
    ensures Good(cfg, tr') && Quietly(cfg, tr, tr') && Synced(Now(tr), Now(tr'), l, p)
    ensures p in Now(tr).nodes[l].matched
  {
    hide SafeInv, Fed, Now, Quietly;
    NowSafe(cfg, tr);
    var s := Now(tr);
    LeaderTracks(cfg, s, HistoryAt(cfg, tr.states, tr.steps, |tr.steps|), l, p, s.nodes[l].term, s.nodes[l].log);
    RoundsStart(s.nodes[l], p, s.nodes[p]);
    hide Rounds;
    tr' := SyncFrom(cfg, tr, l, p, s);
  }

  /** The peers of a group hold exactly the leader's log, and the leader knows it. */
  ghost predicate SyncedAll(s: State, s': State, l: NodeId, group: set<NodeId>)
    requires l in s.nodes
  {
    && Only(s, s', group + {l}) && s'.requests == s.requests && l in s'.nodes
    && LeaderSynced(s.nodes[l], s'.nodes[l], group)
    && forall p | p in group && p in s.nodes ::
         s'.nodes[p].log == s.nodes[l].log && s'.nodes[p].term == s.nodes[l].term && s'.nodes[p].applied == s.nodes[p].applied
  }

  ghost predicate LeaderSynced(n: Node, n': Node, group: set<NodeId>) {
    && n' == n.(next := n'.next, matched := n'.matched, commit := n'.commit)
    && n'.matched.Keys == n.matched.Keys
    && (forall p | p in n.matched :: n'.matched[p] == if p in group then |n.log| else n.matched[p])
    && (LastTerm(n.log) != n.term ==> n'.commit == n.commit)
    && (LastTerm(n.log) == n.term && group != {} ==> QuorumIndex(n'.matched, |n.log|) <= n'.commit)
    && n.commit <= n'.commit <= Max(n.commit, |n.log|)
  }

  lemma {:induction false} QuorumBound(matched: map<NodeId, nat>, hi: nat)
    ensures QuorumIndex(matched, hi) <= hi
  {
    if hi > 0 { QuorumBound(matched, hi - 1); }
  }

  ghost predicate Behind(s: State, l: NodeId, group: set<NodeId>)
    requires l in s.nodes
  {
    forall p | p in group :: Leads(s, l, p, s.nodes[l].term, s.nodes[l].log) && Lacks(s.nodes[p], s.nodes[l])
  }

  lemma {:induction false} SyncAll(cfg: Config, tr: Trace, l: NodeId, group: set<NodeId>) returns (tr': Trace)
    requires Good(cfg, tr) && l in Now(tr).nodes && l !in group && OnlyLast(Now(tr).nodes[l]) && Behind(Now(tr), l, group)
    ensures Good(cfg, tr') && Quietly(cfg, tr, tr') && SyncedAll(Now(tr), Now(tr'), l, group)
    decreases |group|
  {
    hide Good, Now, Fed, Quietly, QuorumIndex, OnlyLast;
    if group == {} {
      tr' := tr;
      QuietlyRefl(cfg, tr);
    } else {
      var p :| p in group;
      assert Leads(Now(tr), l, p, Now(tr).nodes[l].term, Now(tr).nodes[l].log) && Lacks(Now(tr).nodes[p], Now(tr).nodes[l]);
      var tr1 := Sync(cfg, tr, l, p);
      QuorumBound(Now(tr1).nodes[l].matched, |Now(tr).nodes[l].log|);
      StillBehind(Now(tr), Now(tr1), l, p, group);
      hide Behind;
      tr' := SyncAll(cfg, tr1, l, group - {p});
      QuietlyTrans(cfg, tr, tr1, tr');
      SyncedOneMore(Now(tr), Now(tr1), Now(tr'), l, p, group);
    }
  }

  lemma StillBehind(s: State, s1: State, l: NodeId, p: NodeId, group: set<NodeId>)
    requires l in s.nodes && p in group && Behind(s, l, group) && p in s.nodes && Synced(s, s1, l, p) && OnlyLast(s.nodes[l])
    ensures l in s1.nodes && Behind(s1, l, group - {p}) && OnlyLast(s1.nodes[l])
  {
    hide CommitOnce, Lacks, QuorumIndex;
    forall q | q in group - {p} ensures Leads(s1, l, q, s1.nodes[l].term, s1.nodes[l].log) && Lacks(s1.nodes[q], s1.nodes[l]) {
      assert Leads(s, l, q, s.nodes[l].term, s.nodes[l].log);
      assert s1.nodes[q] == s.nodes[q];
      SameLack(s.nodes[q], s.nodes[l], s1.nodes[l]);
    }
  }

  lemma SameLack(f: Node, l: Node, l': Node)
    requires Lacks(f, l) && l'.log == l.log
    ensures Lacks(f, l')
  {
  }

  lemma SyncedOneMore(s: State, s1: State, s2: State, l: NodeId, p: NodeId, group: set<NodeId>)
    requires l in s.nodes && p in s.nodes && l in s1.nodes && p in group && l !in group
    requires Synced(s, s1, l, p) && SyncedAll(s1, s2, l, group - {p}) && p in s.nodes[l].matched
    requires QuorumIndex(s1.nodes[l].matched, |s.nodes[l].log|) <= |s.nodes[l].log|
    ensures SyncedAll(s, s2, l, group)
  {
    hide QuorumIndex;
    LeaderOneMore(s.nodes[l], s1.nodes[l], s2.nodes[l], p, group);
    hide LeaderSynced, CommitOnce;
  }

  lemma LeaderOneMore(n: Node, n1: Node, n2: Node, p: NodeId, group: set<NodeId>)
    requires p in n.matched && p in group && LeaderSynced(n1, n2, group - {p})
    requires n1 == n.(next := n1.next, matched := n.matched[p := |n.log|], commit := CommitOnce(n, n1, |n.log|))
    requires QuorumIndex(n1.matched, |n.log|) <= |n.log|
    ensures LeaderSynced(n, n2, group)
  {
    hide QuorumIndex;
    if group - {p} == {} {
      assert forall q | q in n1.matched :: n2.matched[q] == n1.matched[q];
      assert n2.matched == n1.matched;
    }
  }
}
