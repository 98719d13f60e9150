/** Every step keeps the invariants of elections, logs and replication together. */
module Steps {
  import opened Types
  import opened Protocol
  import opened Cluster
  import opened Elections
  import opened Logs
  import opened Replication

  ghost predicate CoreInv(cfg: Config, s: State, h: History) {
    ElectionInv(cfg, s, h) && LogInv(cfg, s, h) && PeersOk(cfg, s, h)
  }

  lemma InitCore(cfg: Config)
    ensures CoreInv(cfg, Init(cfg), NO_HISTORY)
  {
    InitElection(cfg);
    InitLogs(cfg);
    InitPeers(cfg);
  }

  lemma LogAt(cfg: Config, s: State, h: History, n: NodeId)
    requires LogInv(cfg, s, h) && n in s.nodes
    ensures LogGood(h, n, s.nodes[n])
  {
  }

  lemma NodeAt(cfg: Config, s: State, h: History, n: NodeId)
    requires ElectionInv(cfg, s, h) && n in s.nodes
    ensures NodeGood(cfg, h.candLog, n, s.nodes[n]) && s.nodes.Keys == cfg.members
    ensures NodesOk(cfg, s, h) && CandOk(s, h)
  {
  }

  lemma RequestAt(cfg: Config, s: State, h: History, req: VoteRequest)
    requires ElectionInv(cfg, s, h) && req in s.requests
    ensures RequestGood(s, h.candLog, req)
  {
  }

  lemma TimeoutCore(cfg: Config, s: State, h: History, n: NodeId)
    requires CoreInv(cfg, s, h) && Enabled(cfg, s, Timeout(n))
    requires ElectionInv(cfg, Do(cfg, s, Timeout(n)), Record(cfg, s, h, Timeout(n))) && Forward(s, Do(cfg, s, Timeout(n)))
    ensures CoreInv(cfg, Do(cfg, s, Timeout(n)), Record(cfg, s, h, Timeout(n)))
  {
    hide ElectionInv, LogInv, PeersOk, NodesOk, CandOk, NodeGood;
    var s', h' := Do(cfg, s, Timeout(n)), Record(cfg, s, h, Timeout(n));
    NodeAt(cfg, s, h, n);
    NodeAt(cfg, s', h', n);
    FreshTerm(cfg, s, h, n);
    TimeoutLogs(cfg, s, h, n, s', h');
    SameLogsPeers(cfg, s, h, s', h');
  }

  lemma AskVoteCore(cfg: Config, s: State, h: History, req: VoteRequest)
    requires CoreInv(cfg, s, h) && Enabled(cfg, s, AskVote(req))
    requires ElectionInv(cfg, Do(cfg, s, AskVote(req)), h) && Forward(s, Do(cfg, s, AskVote(req)))
    ensures CoreInv(cfg, Do(cfg, s, AskVote(req)), h)
  {
    hide ElectionInv, LogInv, PeersOk;
    var s' := Do(cfg, s, AskVote(req));
    RequestAt(cfg, s, h, req);
    NodeAt(cfg, s, h, req.to);
    NodeAt(cfg, s', h, req.to);
    AskVoteLogs(cfg, s, h, req, s');
    AskVoteRole(req, s.nodes[req.to]);
    SameLogsPeers(cfg, s, h, s', h);
  }

  lemma TakeReplyCore(cfg: Config, s: State, h: History, y: VoteReply)
    requires CoreInv(cfg, s, h) && Enabled(cfg, s, TakeReply(y)) && TimelyStep(s, TakeReply(y))
    requires ElectionInv(cfg, Do(cfg, s, TakeReply(y)), h) && Forward(s, Do(cfg, s, TakeReply(y)))
    ensures CoreInv(cfg, Do(cfg, s, TakeReply(y)), h)
  {
    hide ElectionInv, LogInv, PeersOk;
    var s' := Do(cfg, s, TakeReply(y));
    NodeAt(cfg, s, h, y.candidate);
    NodeAt(cfg, s', h, y.candidate);
    TakeReplyLogs(cfg, s, h, y, s');
    LogAt(cfg, s, h, y.candidate);
    assert Key(s.nodes[y.candidate].term, y.candidate) in h.candLog ==> s.nodes[y.candidate].term >= 1;
    TakeReplyRole(h, |cfg.members|, y, s.nodes[y.candidate]);
    SameLogsPeers(cfg, s, h, s', h);
  }

  lemma ApplyCore(cfg: Config, s: State, h: History, n: NodeId)
    requires CoreInv(cfg, s, h) && Enabled(cfg, s, Apply(n))
    requires ElectionInv(cfg, Do(cfg, s, Apply(n)), h) && Forward(s, Do(cfg, s, Apply(n)))
    ensures CoreInv(cfg, Do(cfg, s, Apply(n)), h)
  {
    hide ElectionInv, LogInv, PeersOk, NodesOk, CandOk, NodeGood;
    var s' := Do(cfg, s, Apply(n));
    NodeAt(cfg, s, h, n);
    NodeAt(cfg, s', h, n);
    ApplyLogs(cfg, s, h, n, s');
    SameLogsPeers(cfg, s, h, s', h);
  }

  lemma ClientCore(cfg: Config, s: State, h: History, n: NodeId, op: Op)
    requires CoreInv(cfg, s, h) && Enabled(cfg, s, Client(n, op))
    requires ElectionInv(cfg, Do(cfg, s, Client(n, op)), Record(cfg, s, h, Client(n, op))) && Forward(s, Do(cfg, s, Client(n, op)))
    requires StoredGrows(h, Record(cfg, s, h, Client(n, op)))
    ensures CoreInv(cfg, Do(cfg, s, Client(n, op)), Record(cfg, s, h, Client(n, op)))
    ensures Grows(h.termLog, Record(cfg, s, h, Client(n, op)).termLog)
    ensures s.nodes[n].role == Leader
    ensures s.nodes[n].term in h.author ==> h.author[s.nodes[n].term] == n && h.termLog[s.nodes[n].term] == s.nodes[n].log
  {
    var s', h' := Do(cfg, s, Client(n, op)), Record(cfg, s, h, Client(n, op));
    hide ElectionInv, LogInv, PeersOk;
    NodeAt(cfg, s, h, n);
    ClientLogs(cfg, s, h, n, op, s', h');
    AllPairs(cfg, s, h);
    LogAt(cfg, s', h', n);
    ClientPeers(cfg, s, h, n, op, s', h');
  }

  // ---------------------------------------------------------------- the exchange

  lemma ExchangeLogs(cfg: Config, s: State, h: History, l: NodeId, p: NodeId, m: AppendRequest, r: AppendReply, lost: bool, s': State, h': History)
    requires s.nodes.Keys == cfg.members && LogInv(cfg, s, h) && Forward(s, s')
    requires l in s.nodes && p in s.nodes && l != p && p in s.nodes[l].next
    requires m.term == s.nodes[l].term && !(s.nodes[p].role == Leader && s.nodes[p].term == m.term)
    requires s.nodes[p].term <= m.term ==>
      Canon(h.termLog, LogAfter(s.nodes[p].log, m)) && Sorted(LogAfter(s.nodes[p].log, m), m.term)
    requires s'.nodes.Keys == s.nodes.Keys && forall k | k in s.nodes && k != l && k != p :: s'.nodes[k] == s.nodes[k]
    requires s'.nodes[p] == HandleAppend(s.nodes[p], m)
    requires s'.nodes[l] == if lost then s.nodes[l] else HandleAppendReply(s.nodes[l], p, m, r)
    requires h' == h.(stored := h'.stored)
    ensures LogInv(cfg, s', h')
  {
    forall k | k in s'.nodes ensures LogGood(h', k, s'.nodes[k]) {
      assert LogGood(h, k, s.nodes[k]);
      if k == p { AppendLog(h, p, s.nodes[p], m); }
      else if k == l { AppendReplyLog(h, l, s.nodes[l], p, m, r); }
    }
    forall t | t in h.author ensures AuthorNode(t, h.termLog[t], s'.nodes[h.author[t]]) {
      assert AuthorGood(cfg, s, h, t);
      if h.author[t] == p { AppendAuthor(t, h.termLog[t], s.nodes[p], m); }
      else if h.author[t] == l { AppendReplyAuthor(t, h.termLog[t], s.nodes[l], p, m, r); }
    }
    KeepAuthors(cfg, s, h, s', h');
  }

  /** What an exchange does to the logs of its two ends: nothing that both agree on is lost. */
  ghost predicate EndsGood(limits: Limits, h: History, l: Node, p: NodeId, f: Node, m: AppendRequest, f': Node)
    requires p in l.next
  {
    && Serves(limits, l, p, m)
    && (f.role == Leader ==> f.term != l.term)
    && (f.term <= l.term ==>
          && (Fits(f.log, m) ==> f'.log == l.log[..m.prevIndex + |m.entries|])
          && Canon(h.termLog, f'.log) && Sorted(f'.log, l.term)
          && forall k: nat | Agree(f.log, l.log, k) :: Agree(f'.log, l.log, k))
  }

  ghost predicate IsExchange(cfg: Config, s: State, h: History, l: NodeId, p: NodeId, lost: bool, m: AppendRequest, s': State, h': History) {
    && l in s.nodes && p in s.nodes && l != p && s.nodes[l].role == Leader && p in s.nodes[l].next
    && s'.nodes.Keys == s.nodes.Keys && (forall k | k in s.nodes && k != l && k != p :: s'.nodes[k] == s.nodes[k])
    && m == AppendRequestOf(cfg.limits, s.nodes[l], l, s.nodes[l].next[p])
    && s'.nodes[p] == HandleAppend(s.nodes[p], m)
    && s'.nodes[l] == (if lost then s.nodes[l] else HandleAppendReply(s.nodes[l], p, m, AppendReplyOf(s.nodes[p], m)))
    && h' == h.(stored := h'.stored) && StoredGrows(h, h')
    && (s.nodes[p].term <= s.nodes[l].term && Fits(s.nodes[p].log, m) && LastTerm(s'.nodes[p].log) == s.nodes[l].term ==>
          |s'.nodes[p].log| <= StoredUpTo(h', s.nodes[l].term, p))
  }

  lemma ExchangeEnds(cfg: Config, s: State, h: History, l: NodeId, p: NodeId, lost: bool, m: AppendRequest, s': State, h': History)
    requires CoreInv(cfg, s, h) && IsExchange(cfg, s, h, l, p, lost, m, s', h')
    ensures EndsGood(cfg.limits, h, s.nodes[l], p, s.nodes[p], m, s'.nodes[p])
    ensures Received(s.nodes[l], m, s.nodes[p], s'.nodes[p]) && Sent(p, s.nodes[l], s'.nodes[l])
    ensures PeerAt(cfg, s', h', l, p)
  {
    hide ElectionInv, LogInv, PeersOk, Received, Sent, PeerGood, HandleAppend, HandleAppendReply, AppendRequestOf, Canon, Sorted, StoredGrows;
    LogAt(cfg, s, h, l);
    LogAt(cfg, s, h, p);
    OnePair(cfg, s, h, l, p);
    ExchangePair(cfg.limits, h, h', l, s.nodes[l], p, s.nodes[p], lost, m, s'.nodes[p], s'.nodes[l]);
  }

  lemma ExchangeCore(cfg: Config, s: State, h: History, l: NodeId, p: NodeId, lost: bool, m: AppendRequest, s': State, h': History)
    requires CoreInv(cfg, s, h) && IsExchange(cfg, s, h, l, p, lost, m, s', h')
    requires ElectionInv(cfg, s', h') && Forward(s, s')
    ensures CoreInv(cfg, s', h')
    ensures EndsGood(cfg.limits, h, s.nodes[l], p, s.nodes[p], m, s'.nodes[p])
  {
    hide ElectionInv, LogInv, PeersOk, Pairs, PeerKeys, PeerAt;
    ExchangeEnds(cfg, s, h, l, p, lost, m, s', h');
    AllPairs(cfg, s, h);
    NodeAt(cfg, s, h, l);
    ExchangeLogs(cfg, s, h, l, p, m, AppendReplyOf(s.nodes[p], m), lost, s', h');
    ExchangePeers(cfg, s, h, l, p, m, s', h');
  }
}
