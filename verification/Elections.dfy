/** Elections: what every step keeps about candidacies, votes and roles, and that a term never has
    two leaders at once.  Nodes do not record the vote they give themselves, so a leader can still
    grant its own term away; the argument rests on granting forcing the role follower. */
module Elections {
  import opened Types
  import opened Protocol
  import opened Cluster

  /** What a proof remembers of the past of a run.
      candLog: the log a node had when it became candidate of a term.
      author, termLog: who appended client entries in a term, and its log after the last of them.
      stored: the longest prefix of the author's log, ending in an entry of the term itself, that a
      node held while it was in that term. */
  datatype Key = Key(term: nat, node: NodeId)

  datatype History = History(
    candLog: map<Key, Log>,
    author: map<nat, NodeId>, termLog: map<nat, Log>,
    stored: map<Key, nat>)

  const NO_HISTORY := History(map[], map[], map[], map[])

  function StoredUpTo(h: History, term: nat, n: NodeId): nat {
    if Key(term, n) in h.stored then h.stored[Key(term, n)] else 0
  }

  ghost function Record(cfg: Config, s: State, h: History, step: Step): History
    requires Enabled(cfg, s, step)
  {
    match step
    case Timeout(n) =>
      h.(candLog := h.candLog[Key(s.nodes[n].term + 1, n) := s.nodes[n].log])
    case Client(n, op) =>
      var term, log := s.nodes[n].term, ClientAppend(s.nodes[n], op).log;
      h.(author := h.author[term := n], termLog := h.termLog[term := log], stored := h.stored[Key(term, n) := |log|])
    case Exchange(l, p, _) =>
      var m := MessageTo(cfg, s, l, p);
      var after := LogAfter(s.nodes[p].log, m);
      if s.nodes[p].term <= m.term && Fits(s.nodes[p].log, m) && LastTerm(after) == m.term then
        h.(stored := h.stored[Key(m.term, p) := Max(|after|, StoredUpTo(h, m.term, p))])
      else h
    case _ => h
  }

  // ---------------------------------------------------------------- the invariant

  type Candidacies = map<Key, Log>

  predicate VotedFor(n: Node, term: nat, c: NodeId) {
    term in n.voteFor && n.voteFor[term] == c
  }

  /** What one node keeps.  Votes are write-once, never for oneself and only for a real candidacy;
      a candidate or leader has not granted its own term to anyone. */
  ghost predicate NodeGood(cfg: Config, cands: Candidacies, self: NodeId, n: Node) {
    && n.next.Keys == n.matched.Keys == Peers(cfg, self)
    && (n.leader == Some(self) <==> n.role == Leader)
    && (n.role != Follower ==> Key(n.term, self) in cands && n.term !in n.voteFor)
    && forall term | term in n.voteFor ::
         term <= n.term && Key(term, n.voteFor[term]) in cands && n.voteFor[term] != self
  }

  ghost predicate NodesOk(cfg: Config, s: State, h: History) {
    && s.nodes.Keys == cfg.members
    && forall n | n in s.nodes :: NodeGood(cfg, h.candLog, n, s.nodes[n])
  }

  ghost predicate CandOk(s: State, h: History) {
    forall c | c in h.candLog :: c.node in s.nodes && 1 <= c.term <= s.nodes[c.node].term
  }

  /** A request in flight describes its candidacy and has not been answered with a vote. */
  ghost predicate RequestGood(s: State, cands: Candidacies, r: VoteRequest) {
    && r.from in s.nodes && r.to in s.nodes && r.from != r.to
    && Key(r.term, r.from) in cands
    && r.lastTerm == LastTerm(cands[Key(r.term, r.from)])
    && r.lastIndex == |cands[Key(r.term, r.from)]|
    && !VotedFor(s.nodes[r.to], r.term, r.from)
  }

  ghost predicate RequestsOk(s: State, h: History) {
    forall r | r in s.requests :: RequestGood(s, h.candLog, r)
  }

  ghost predicate ReplyGood(s: State, y: VoteReply) {
    && y.voter in s.nodes && y.candidate in s.nodes && y.voter != y.candidate
    && y.reqTerm <= y.term <= s.nodes[y.voter].term
    && (y.granted ==> y.term == y.reqTerm && VotedFor(s.nodes[y.voter], y.term, y.candidate))
  }

  ghost predicate RepliesOk(s: State) {
    forall y | y in s.replies :: ReplyGood(s, y)
  }

  /** The voters of c in a term whose reply c has already taken. */
  ghost function Counted(s: State, term: nat, c: NodeId): set<NodeId> {
    set v | v in s.nodes && VotedFor(s.nodes[v], term, c) && VoteReply(v, c, term, term, true) !in s.replies
  }

  ghost predicate CountOk(s: State) {
    forall n | n in s.nodes && s.nodes[n].role == Candidate ::
      s.nodes[n].voteQuorum == 1 + |Counted(s, s.nodes[n].term, n)|
  }

  /** Everyone whose vote c has in a term, c itself included. */
  ghost function Voters(s: State, term: nat, c: NodeId): set<NodeId> {
    {c} + set v | v in s.nodes && VotedFor(s.nodes[v], term, c)
  }

  ghost predicate Majority(cfg: Config, q: set<NodeId>) {
    q <= cfg.members && 2 * |q| > |cfg.members|
  }

  ghost predicate LeadOk(cfg: Config, s: State) {
    forall n | n in s.nodes && s.nodes[n].role == Leader :: Majority(cfg, Voters(s, s.nodes[n].term, n))
  }

  ghost predicate ElectionInv(cfg: Config, s: State, h: History) {
    NodesOk(cfg, s, h) && CandOk(s, h) && RequestsOk(s, h) && RepliesOk(s) && CountOk(s) && LeadOk(cfg, s)
  }

  lemma InitElection(cfg: Config)
    ensures ElectionInv(cfg, Init(cfg), NO_HISTORY)
  {
    var s := Init(cfg);
    assert forall n | n in s.nodes :: s.nodes[n] == InitNode(cfg, n);
    assert forall n | n in s.nodes :: NodeGood(cfg, NO_HISTORY.candLog, n, InitNode(cfg, n));
  }

  // ---------------------------------------------------------------- what every step does

  /** No term goes down and no vote is taken back. */
  ghost predicate Forward(s: State, s': State) {
    s'.nodes.Keys == s.nodes.Keys &&
    forall n | n in s.nodes :: NodeForward(s.nodes[n], s'.nodes[n])
  }

  ghost predicate NodeForward(n: Node, n': Node) {
    && n.term <= n'.term
    && forall term | term in n.voteFor :: VotedFor(n', term, n.voteFor[term])
  }

  ghost predicate Extends(cands: Candidacies, cands': Candidacies) {
    forall c | c in cands :: c in cands' && cands'[c] == cands[c]
  }

  lemma ForwardReply(s: State, s': State, y: VoteReply)
    requires Forward(s, s') && ReplyGood(s, y)
    ensures ReplyGood(s', y)
  {
    assert NodeForward(s.nodes[y.voter], s'.nodes[y.voter]);
  }

  lemma ForwardNode(cfg: Config, cands: Candidacies, cands': Candidacies, self: NodeId, n: Node)
    requires NodeGood(cfg, cands, self, n) && Extends(cands, cands')
    ensures NodeGood(cfg, cands', self, n)
  {
  }

  lemma ForwardMajority(cfg: Config, s: State, s': State, term: nat, c: NodeId)
    requires Forward(s, s') && s'.nodes.Keys == cfg.members && c in cfg.members
    requires Majority(cfg, Voters(s, term, c))
    ensures Majority(cfg, Voters(s', term, c))
  {
    forall v | v in Voters(s, term, c)
      ensures v in Voters(s', term, c)
    {
      if v != c { assert NodeForward(s.nodes[v], s'.nodes[v]); }
    }
    SubsetSize(Voters(s, term, c), Voters(s', term, c));
  }

  // ---------------------------------------------------------------- the single nodes

  lemma TimeoutNode(cfg: Config, cands: Candidacies, self: NodeId, n: Node)
    requires NodeGood(cfg, cands, self, n)
    ensures NodeGood(cfg, cands[Key(n.term + 1, self) := n.log], self, BecomeCandidate(n))
    ensures NodeForward(n, BecomeCandidate(n))
  {
  }

  lemma AskVoteNode(cfg: Config, cands: Candidacies, req: VoteRequest, n: Node)
    requires NodeGood(cfg, cands, req.to, n)
    requires Key(req.term, req.from) in cands && req.from != req.to
    ensures NodeGood(cfg, cands, req.to, HandleVoteRequest(n, req))
    ensures NodeForward(n, HandleVoteRequest(n, req))
  {
  }

  /** What taking a reply does to the vote count and the role. */
  ghost predicate Tallied(n: Node, n': Node, size: nat, y: VoteReply) {
    && n'.voteFor == n.voteFor
    && (n'.role == Leader && n.role == Leader ==> n'.term == n.term)
    && (n'.role == Candidate || (n'.role == Leader && n.role != Leader) ==>
          && n.role == Candidate && n'.term == n.term
          && n'.voteQuorum == n.voteQuorum + if y.granted && y.term == n.term then 1 else 0)
    && (n'.role == Leader && n.role != Leader ==> n'.voteQuorum > size / 2)
  }

  lemma TakeReplyNode(cfg: Config, cands: Candidacies, n: Node, y: VoteReply)
    requires NodeGood(cfg, cands, y.candidate, n)
    requires !StaleDenial(n, y)
    ensures NodeGood(cfg, cands, y.candidate, HandleVoteReply(n, y.candidate, |cfg.members|, y))
    ensures NodeForward(n, HandleVoteReply(n, y.candidate, |cfg.members|, y))
    ensures Tallied(n, HandleVoteReply(n, y.candidate, |cfg.members|, y), |cfg.members|, y)
  {
  }

  /** A change that touches neither votes nor the vote count, except by making the node a follower. */
  ghost predicate Quiet(n: Node, n': Node) {
    && n'.voteFor == n.voteFor
    && (n'.role != Follower ==> n'.role == n.role && n'.term == n.term && n'.voteQuorum == n.voteQuorum)
  }

  lemma AppendNode(cfg: Config, cands: Candidacies, self: NodeId, n: Node, m: AppendRequest)
    requires NodeGood(cfg, cands, self, n) && m.from != self
    ensures NodeGood(cfg, cands, self, HandleAppend(n, m))
    ensures NodeForward(n, HandleAppend(n, m))
    ensures Quiet(n, HandleAppend(n, m))
  {
    hide LogAfter, CommitAfter, Fits;
  }

  lemma AppendReplyNode(cfg: Config, cands: Candidacies, self: NodeId, n: Node, p: NodeId, m: AppendRequest, r: AppendReply)
    requires NodeGood(cfg, cands, self, n) && p in n.next
    ensures NodeGood(cfg, cands, self, HandleAppendReply(n, p, m, r))
    ensures NodeForward(n, HandleAppendReply(n, p, m, r))
    ensures Quiet(n, HandleAppendReply(n, p, m, r))
  {
  }

  // ---------------------------------------------------------------- the whole cluster

  lemma ChangeOne(cfg: Config, s: State, h: History, s': State, h': History, n: NodeId)
    requires NodesOk(cfg, s, h) && n in s.nodes && Extends(h.candLog, h'.candLog)
    requires n in s'.nodes && s'.nodes == s.nodes[n := s'.nodes[n]]
    requires NodeGood(cfg, h'.candLog, n, s'.nodes[n]) && NodeForward(s.nodes[n], s'.nodes[n])
    ensures NodesOk(cfg, s', h') && Forward(s, s')
  {
    forall k | k in s'.nodes && k != n
      ensures NodeGood(cfg, h'.candLog, k, s'.nodes[k])
    {
      ForwardNode(cfg, h.candLog, h'.candLog, k, s.nodes[k]);
    }
  }

  lemma KeepRequest(s: State, h: History, s': State, h': History, r: VoteRequest)
    requires RequestGood(s, h.candLog, r) && Extends(h.candLog, h'.candLog) && s'.nodes.Keys == s.nodes.Keys
    requires s'.nodes[r.to].voteFor == s.nodes[r.to].voteFor
    ensures RequestGood(s', h'.candLog, r)
  {
  }

  lemma KeepRequests(s: State, h: History, s': State, h': History)
    requires RequestsOk(s, h) && Extends(h.candLog, h'.candLog) && s'.nodes.Keys == s.nodes.Keys && s'.requests == s.requests
    requires forall n | n in s.nodes :: s'.nodes[n].voteFor == s.nodes[n].voteFor
    ensures RequestsOk(s', h')
  {
    forall r | r in s'.requests ensures RequestGood(s', h'.candLog, r) { KeepRequest(s, h, s', h', r); }
  }

  lemma KeepCandidacies(s: State, h: History, s': State)
    requires CandOk(s, h) && Forward(s, s')
    ensures CandOk(s', h)
  {
    forall c | c in h.candLog ensures 1 <= c.term <= s'.nodes[c.node].term {
      assert NodeForward(s.nodes[c.node], s'.nodes[c.node]);
    }
  }

  lemma KeepReplies(s: State, s': State)
    requires RepliesOk(s) && Forward(s, s') && s'.replies <= s.replies
    ensures RepliesOk(s')
  {
    forall y | y in s'.replies ensures ReplyGood(s', y) { ForwardReply(s, s', y); }
  }

  /** A step that records no vote and takes no reply leaves the counts and the leaders alone. */
  lemma KeepCounts(cfg: Config, s: State, s': State)
    requires s.nodes.Keys == cfg.members && Forward(s, s') && CountOk(s) && LeadOk(cfg, s)
    requires s'.replies == s.replies
    requires forall n | n in s.nodes :: s'.nodes[n].voteFor == s.nodes[n].voteFor
    requires forall n | n in s.nodes :: s'.nodes[n].role == Candidate ==>
      (s.nodes[n].role == Candidate && s'.nodes[n].term == s.nodes[n].term && s'.nodes[n].voteQuorum == s.nodes[n].voteQuorum)
      || (s'.nodes[n].voteQuorum == 1 && Counted(s, s'.nodes[n].term, n) == {})
    requires forall n | n in s.nodes :: s'.nodes[n].role == Leader ==>
      s.nodes[n].role == Leader && s'.nodes[n].term == s.nodes[n].term
    ensures CountOk(s') && LeadOk(cfg, s')
  {
    forall n | n in s'.nodes && s'.nodes[n].role == Candidate
      ensures s'.nodes[n].voteQuorum == 1 + |Counted(s', s'.nodes[n].term, n)|
    {
      assert Counted(s', s'.nodes[n].term, n) == Counted(s, s'.nodes[n].term, n);
    }
    forall n | n in s'.nodes && s'.nodes[n].role == Leader
      ensures Majority(cfg, Voters(s', s'.nodes[n].term, n))
    {
      ForwardMajority(cfg, s, s', s.nodes[n].term, n);
    }
  }

  lemma TimeoutElection(cfg: Config, s: State, h: History, n: NodeId, s': State, h': History)
    requires ElectionInv(cfg, s, h) && n in s.nodes && s.nodes[n].role != Leader
    requires s'.nodes == s.nodes[n := BecomeCandidate(s.nodes[n])] && s'.replies == s.replies
    requires s'.requests == s.requests + RequestsOf(cfg, s'.nodes[n], n)
    requires h'.candLog == h.candLog[Key(s.nodes[n].term + 1, n) := s.nodes[n].log]
    ensures ElectionInv(cfg, s', h') && Forward(s, s')
  {
    hide RequestsOk, RepliesOk, CountOk, LeadOk;
    assert NodeGood(cfg, h.candLog, n, s.nodes[n]);
    FreshTerm(cfg, s, h, n);
    TimeoutNode(cfg, h.candLog, n, s.nodes[n]);
    ChangeOne(cfg, s, h, s', h', n);
    hide NodesOk, NodeGood;
    KeepCandidacies(s, h, s');
    KeepReplies(s, s');
    TimeoutRequests(cfg, s, h, n, s', h');
    TimeoutCounts(cfg, s, n, s');
  }

  lemma TimeoutCounts(cfg: Config, s: State, n: NodeId, s': State)
    requires s.nodes.Keys == cfg.members && Forward(s, s') && CountOk(s) && LeadOk(cfg, s) && n in s.nodes && s.nodes[n].role != Leader
    requires s'.nodes == s.nodes[n := BecomeCandidate(s.nodes[n])] && s'.replies == s.replies
    requires Counted(s, s.nodes[n].term + 1, n) == {}
    ensures CountOk(s') && LeadOk(cfg, s')
  {
    hide CountOk, LeadOk, Forward, Counted;
    KeepCounts(cfg, s, s');
  }

  /** Nobody can have voted for a candidacy that has not begun. */
  lemma FreshTerm(cfg: Config, s: State, h: History, n: NodeId)
    requires NodesOk(cfg, s, h) && CandOk(s, h) && n in s.nodes
    ensures Key(s.nodes[n].term + 1, n) !in h.candLog
    ensures forall v | v in s.nodes :: !VotedFor(s.nodes[v], s.nodes[n].term + 1, n)
    ensures Counted(s, s.nodes[n].term + 1, n) == {}
  {
    forall v | v in s.nodes ensures !VotedFor(s.nodes[v], s.nodes[n].term + 1, n) {
      assert NodeGood(cfg, h.candLog, v, s.nodes[v]);
    }
  }

  lemma TimeoutRequests(cfg: Config, s: State, h: History, n: NodeId, s': State, h': History)
    requires RequestsOk(s, h) && n in s.nodes && s.nodes.Keys == cfg.members
    requires forall v | v in s.nodes :: !VotedFor(s.nodes[v], s.nodes[n].term + 1, n)
    requires s'.nodes == s.nodes[n := BecomeCandidate(s.nodes[n])]
    requires s'.requests == s.requests + RequestsOf(cfg, s'.nodes[n], n)
    requires h'.candLog == h.candLog[Key(s.nodes[n].term + 1, n) := s.nodes[n].log] && Extends(h.candLog, h'.candLog)
    ensures RequestsOk(s', h')
  {
    forall r | r in s'.requests
      ensures RequestGood(s', h'.candLog, r)
    {
      if r in s.requests { KeepRequest(s, h, s', h', r); }
    }
  }

  lemma AskVoteElection(cfg: Config, s: State, h: History, req: VoteRequest, s': State)
    requires ElectionInv(cfg, s, h) && req in s.requests
    requires s' == State(s.nodes[req.to := HandleVoteRequest(s.nodes[req.to], req)],
                         s.requests - {req}, s.replies + {VoteReplyOf(s.nodes[req.to], req)})
    ensures ElectionInv(cfg, s', h) && Forward(s, s')
  {
    assert RequestGood(s, h.candLog, req);
    AskVoteNode(cfg, h.candLog, req, s.nodes[req.to]);
    ChangeOne(cfg, s, h, s', h, req.to);
    KeepCandidacies(s, h, s');
    forall y | y in s'.replies ensures ReplyGood(s', y) {
      if y in s.replies { ForwardReply(s, s', y); }
    }
    forall r | r in s'.requests ensures RequestGood(s', h.candLog, r) {
      AskVoteKeepsRequest(s, h, req, s', r);
    }
    AskVoteCounts(cfg, s, h, req, s');
  }

  lemma AskVoteKeepsRequest(s: State, h: History, req: VoteRequest, s': State, r: VoteRequest)
    requires RequestGood(s, h.candLog, req) && RequestGood(s, h.candLog, r) && r != req
    requires s'.nodes == s.nodes[req.to := HandleVoteRequest(s.nodes[req.to], req)]
    ensures RequestGood(s', h.candLog, r)
  {
  }

  lemma AskVoteCounts(cfg: Config, s: State, h: History, req: VoteRequest, s': State)
    requires s.nodes.Keys == cfg.members && RequestGood(s, h.candLog, req) && Forward(s, s')
    requires CountOk(s) && LeadOk(cfg, s)
    requires s'.nodes == s.nodes[req.to := HandleVoteRequest(s.nodes[req.to], req)]
    requires s'.replies == s.replies + {VoteReplyOf(s.nodes[req.to], req)}
    ensures CountOk(s') && LeadOk(cfg, s')
  {
    forall n | n in s'.nodes && s'.nodes[n].role == Candidate
      ensures s'.nodes[n].voteQuorum == 1 + |Counted(s', s'.nodes[n].term, n)|
    {
      assert Counted(s', s'.nodes[n].term, n) == Counted(s, s'.nodes[n].term, n);
    }
    forall n | n in s'.nodes && s'.nodes[n].role == Leader
      ensures Majority(cfg, Voters(s', s'.nodes[n].term, n))
    {
      ForwardMajority(cfg, s, s', s.nodes[n].term, n);
    }
  }

  lemma TakeReplyElection(cfg: Config, s: State, h: History, y: VoteReply, c': Node, s': State)
    requires ElectionInv(cfg, s, h) && y in s.replies && ReplyGood(s, y)
    requires NodeGood(cfg, h.candLog, y.candidate, c') && NodeForward(s.nodes[y.candidate], c')
    requires Tallied(s.nodes[y.candidate], c', |cfg.members|, y)
    requires s' == s.(nodes := s.nodes[y.candidate := c'], replies := s.replies - {y})
    ensures ElectionInv(cfg, s', h) && Forward(s, s')
  {
    hide CountOk, LeadOk, RequestsOk, RepliesOk, CandOk, NodesOk;
    assert c'.role == Leader ==> c'.term !in c'.voteFor;
    assert c'.voteFor == s.nodes[y.candidate].voteFor;
    hide NodeGood, NodeForward, ReplyGood, Tallied, Extends;
    ExtendsSelf(h.candLog);
    ChangeOne(cfg, s, h, s', h, y.candidate);
    hide Forward;
    KeepCandidacies(s, h, s');
    KeepReplies(s, s');
    KeepRequests(s, h, s', h);
    TakeReplyCounts(s, y, c', s');
    TakeReplyLeaders(cfg, s, y, c', s');
  }

  lemma ExtendsSelf(cands: Candidacies)
    ensures Extends(cands, cands)
  {
  }

  lemma TakeReplyCounts(s: State, y: VoteReply, c': Node, s': State)
    requires CountOk(s) && y in s.replies && ReplyGood(s, y) && exists size :: Tallied(s.nodes[y.candidate], c', size, y)
    requires s'.nodes == s.nodes[y.candidate := c'] && s'.replies == s.replies - {y}
    ensures CountOk(s')
  {
    forall n | n in s'.nodes && s'.nodes[n].role == Candidate
      ensures s'.nodes[n].voteQuorum == 1 + |Counted(s', s'.nodes[n].term, n)|
    {
      TakeReplyCounted(s, y, s', n);
    }
  }

  lemma TakeReplyLeaders(cfg: Config, s: State, y: VoteReply, c': Node, s': State)
    requires s.nodes.Keys == cfg.members && CountOk(s) && LeadOk(cfg, s) && Forward(s, s')
    requires y in s.replies && ReplyGood(s, y) && Tallied(s.nodes[y.candidate], c', |cfg.members|, y)
    requires c'.role == Leader ==> c'.term !in c'.voteFor
    requires s'.nodes == s.nodes[y.candidate := c'] && s'.replies == s.replies - {y}
    ensures LeadOk(cfg, s')
  {
    forall n | n in s'.nodes && s'.nodes[n].role == Leader
      ensures Majority(cfg, Voters(s', s'.nodes[n].term, n))
    {
      if s.nodes[n].role == Leader {
        ForwardMajority(cfg, s, s', s.nodes[n].term, n);
      } else {
        TakeReplyCounted(s, y, s', n);
        WinnerHasMajority(cfg, s', n);
      }
    }
  }

  /** A granted reply of the current candidacy adds exactly its sender to the counted voters. */
  lemma TakeReplyCounted(s: State, y: VoteReply, s': State, n: NodeId)
    requires CountOk(s) && y in s.replies && ReplyGood(s, y) && n in s.nodes
    requires s'.replies == s.replies - {y}
    requires s'.nodes.Keys == s.nodes.Keys
    requires forall v | v in s.nodes :: s'.nodes[v].voteFor == s.nodes[v].voteFor
    requires s.nodes[n].role == Candidate && s'.nodes[n].term == s.nodes[n].term
    requires s'.nodes[n].voteQuorum == s.nodes[n].voteQuorum +
               if n == y.candidate && y.granted && y.term == s.nodes[n].term then 1 else 0
    ensures s'.nodes[n].voteQuorum == 1 + |Counted(s', s'.nodes[n].term, n)|
  {
    var term := s.nodes[n].term;
    if n == y.candidate && y.granted && y.term == term {
      assert y == VoteReply(y.voter, n, term, term, true);
      assert Counted(s', term, n) == Counted(s, term, n) + {y.voter};
    } else {
      assert Counted(s', term, n) == Counted(s, term, n);
    }
  }

  lemma WinnerHasMajority(cfg: Config, s: State, n: NodeId)
    requires s.nodes.Keys == cfg.members && n in s.nodes
    requires s.nodes[n].term !in s.nodes[n].voteFor
    requires s.nodes[n].voteQuorum == 1 + |Counted(s, s.nodes[n].term, n)|
    requires s.nodes[n].voteQuorum > |cfg.members| / 2
    ensures Majority(cfg, Voters(s, s.nodes[n].term, n))
  {
    var counted := Counted(s, s.nodes[n].term, n);
    assert n !in counted;
    assert |{n} + counted| == 1 + |counted|;
    SubsetSize({n} + counted, Voters(s, s.nodes[n].term, n));
  }

  /** Steps that touch neither votes nor messages. */
  lemma QuietElection(cfg: Config, s: State, h: History, s': State, h': History)
    requires ElectionInv(cfg, s, h) && s'.requests == s.requests && s'.replies == s.replies
    requires h'.candLog == h.candLog && NodesOk(cfg, s', h') && Forward(s, s')
    requires forall n | n in s.nodes :: Quiet(s.nodes[n], s'.nodes[n])
    ensures ElectionInv(cfg, s', h')
  {
    KeepCandidacies(s, h, s');
    KeepReplies(s, s');
    KeepRequests(s, h, s', h');
    KeepCounts(cfg, s, s');
  }

  lemma QuietChange(cfg: Config, s: State, h: History, n: NodeId, n': Node, s': State, h': History)
    requires ElectionInv(cfg, s, h) && n in s.nodes
    requires NodeGood(cfg, h.candLog, n, n') && NodeForward(s.nodes[n], n') && Quiet(s.nodes[n], n')
    requires s' == s.(nodes := s.nodes[n := n']) && h'.candLog == h.candLog
    ensures ElectionInv(cfg, s', h') && Forward(s, s')
  {
    ChangeOne(cfg, s, h, s', h', n);
    QuietElection(cfg, s, h, s', h');
  }

  lemma ForwardTrans(a: State, b: State, c: State)
    requires Forward(a, b) && Forward(b, c)
    ensures Forward(a, c)
  {
    forall n | n in a.nodes ensures NodeForward(a.nodes[n], c.nodes[n]) {
      assert NodeForward(a.nodes[n], b.nodes[n]) && NodeForward(b.nodes[n], c.nodes[n]);
    }
  }

  lemma ExchangeElection(cfg: Config, s: State, h: History, l: NodeId, p: NodeId, lost: bool)
    requires ElectionInv(cfg, s, h) && Enabled(cfg, s, Exchange(l, p, lost))
    ensures ElectionInv(cfg, Do(cfg, s, Exchange(l, p, lost)), h) && Forward(s, Do(cfg, s, Exchange(l, p, lost))) && l != p
  {
    assert NodeGood(cfg, h.candLog, l, s.nodes[l]) && NodeGood(cfg, h.candLog, p, s.nodes[p]);
    var m, l' := MessageTo(cfg, s, l, p), LeaderAfter(cfg, s, l, p, lost);
    AppendNode(cfg, h.candLog, p, s.nodes[p], m);
    AppendReplyNode(cfg, h.candLog, l, s.nodes[l], p, m, AppendReplyOf(s.nodes[p], m));
    TwoQuietChanges(cfg, s, h, p, HandleAppend(s.nodes[p], m), l, l');
  }

  lemma TwoQuietChanges(cfg: Config, s: State, h: History, p: NodeId, p': Node, l: NodeId, l': Node)
    requires ElectionInv(cfg, s, h) && l in s.nodes && p in s.nodes && p != l
    requires NodeGood(cfg, h.candLog, l, l') && NodeForward(s.nodes[l], l') && Quiet(s.nodes[l], l')
    requires NodeGood(cfg, h.candLog, p, p') && NodeForward(s.nodes[p], p') && Quiet(s.nodes[p], p')
    ensures ElectionInv(cfg, s.(nodes := s.nodes[p := p'][l := l']), h)
    ensures Forward(s, s.(nodes := s.nodes[p := p'][l := l']))
  {
    var mid := s.(nodes := s.nodes[p := p']);
    var s' := s.(nodes := s.nodes[p := p'][l := l']);
    QuietChange(cfg, s, h, p, p', mid, h);
    assert s' == mid.(nodes := mid.nodes[l := l']);
    QuietChange(cfg, mid, h, l, l', s', h);
    ForwardTrans(s, mid, s');
  }

  /** The invariant reads only the candidacies of the history. */
  lemma SameCandidacies(cfg: Config, s: State, h: History, h': History)
    requires ElectionInv(cfg, s, h) && h'.candLog == h.candLog
    ensures ElectionInv(cfg, s, h')
  {
  }

  lemma ReplyStep(cfg: Config, s: State, h: History, y: VoteReply)
    requires ElectionInv(cfg, s, h) && Enabled(cfg, s, TakeReply(y)) && TimelyStep(s, TakeReply(y))
    ensures ElectionInv(cfg, Do(cfg, s, TakeReply(y)), h) && Forward(s, Do(cfg, s, TakeReply(y)))
  {
    assert ReplyGood(s, y);
    TakeReplyNode(cfg, h.candLog, s.nodes[y.candidate], y);
    TakeReplyElection(cfg, s, h, y, HandleVoteReply(s.nodes[y.candidate], y.candidate, |cfg.members|, y), Do(cfg, s, TakeReply(y)));
  }

  lemma LocalStep(cfg: Config, s: State, h: History, n: NodeId, n': Node)
    requires ElectionInv(cfg, s, h) && n in s.nodes
    requires n' == s.nodes[n].(log := n'.log, applied := n'.applied)
    ensures ElectionInv(cfg, s.(nodes := s.nodes[n := n']), h) && Forward(s, s.(nodes := s.nodes[n := n']))
  {
    assert NodeGood(cfg, h.candLog, n, s.nodes[n]);
    QuietChange(cfg, s, h, n, n', s.(nodes := s.nodes[n := n']), h);
  }

  /** Every step of a run with timely replies keeps the invariant, lowers no term and takes back no vote. */
  lemma StepElection(cfg: Config, s: State, h: History, step: Step)
    requires ElectionInv(cfg, s, h) && Enabled(cfg, s, step) && TimelyStep(s, step)
    ensures ElectionInv(cfg, Do(cfg, s, step), Record(cfg, s, h, step)) && Forward(s, Do(cfg, s, step))
  {
    hide ElectionInv, Forward;
    var s', h' := Do(cfg, s, step), Record(cfg, s, h, step);
    match step {
      case Timeout(n) => TimeoutElection(cfg, s, h, n, s', h');
      case AskVote(req) => AskVoteElection(cfg, s, h, req, s');
      case TakeReply(y) => ReplyStep(cfg, s, h, y);
      case Client(n, op) =>
        LocalStep(cfg, s, h, n, ClientAppend(s.nodes[n], op));
        SameCandidacies(cfg, s', h, h');
      case Exchange(l, p, lost) =>
        ExchangeElection(cfg, s, h, l, p, lost);
        SameCandidacies(cfg, s', h, h');
      case Apply(n) => LocalStep(cfg, s, h, n, ApplyCommitted(s.nodes[n]));
    }
  }

  // ---------------------------------------------------------------- one leader per term at a time

  /** Any two majorities of the configured members meet. */
  lemma MajoritiesMeet(cfg: Config, a: set<NodeId>, b: set<NodeId>)
    requires a <= cfg.members && b <= cfg.members && |a| + |b| > |cfg.members|
    ensures exists v :: v in a && v in b
  {
    if a * b == {} {
      assert |a + b| == |a| + |b|;
      SubsetSize(a + b, cfg.members);
    }
    var v :| v in a * b;
  }

  /** Two nodes that both won a term and both kept their own vote for it are the same node. */
  lemma WinnersAgree(cfg: Config, s: State, term: nat, a: NodeId, b: NodeId)
    requires a in s.nodes && b in s.nodes
    requires Majority(cfg, Voters(s, term, a)) && Majority(cfg, Voters(s, term, b))
    requires term !in s.nodes[a].voteFor && term !in s.nodes[b].voteFor
    ensures a == b
  {
    MajoritiesMeet(cfg, Voters(s, term, a), Voters(s, term, b));
  }

  lemma OneLeaderNow(cfg: Config, s: State, h: History, a: NodeId, b: NodeId)
    requires ElectionInv(cfg, s, h) && a in s.nodes && b in s.nodes
    requires s.nodes[a].role == Leader && s.nodes[b].role == Leader && s.nodes[a].term == s.nodes[b].term
    ensures a == b
  {
    assert NodeGood(cfg, h.candLog, a, s.nodes[a]) && NodeGood(cfg, h.candLog, b, s.nodes[b]);
    WinnersAgree(cfg, s, s.nodes[a].term, a, b);
  }
}
