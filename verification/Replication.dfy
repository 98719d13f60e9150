/** Replication: what a leader's next and match indices say about its peers.  A follower always cuts
    its log at the previous index of a message, so the leader's next index must not lag so far behind
    the agreed part of the two logs that a batch would fail to restore what was cut. */
module Replication {
  import opened Types
  import opened Protocol
  import opened Cluster
  import opened Elections
  import opened Logs

  /** The last index that the next message to p covers. */
  function Reach(limits: Limits, l: Node, p: NodeId): nat
    requires p in l.next
  {
    l.next[p] - 1 + BatchLen(limits, l.log, l.next[p])
  }

  /** Whatever the two logs agree on, the leader's next message covers. */
  ghost predicate Covers(limits: Limits, l: Node, p: NodeId, log: Log)
    requires p in l.next
  {
    forall k: nat | Agree(log, l.log, k) :: k <= Reach(limits, l, p)
  }

  /** What leader `self` (state l) knows about its peer p (state f). */
  ghost predicate PeerGood(limits: Limits, h: History, self: NodeId, l: Node, p: NodeId, f: Node)
    requires p in l.next && p in l.matched
  {
    && l.next[p] <= |l.log| + 1 && l.matched[p] <= |l.log|
    && Key(l.term, self) in h.candLog
    && (f.term < l.term ==> l.next[p] == |h.candLog[Key(l.term, self)]| + 1 && l.matched[p] == 0)
    && (f.term <= l.term ==> Agree(f.log, l.log, l.matched[p]) && Covers(limits, l, p, f.log))
    && (TermAt(l.log, l.matched[p]) == l.term ==> l.matched[p] <= StoredUpTo(h, l.term, p))
  }

  ghost predicate PeerAt(cfg: Config, s: State, h: History, l: NodeId, p: NodeId) {
    l in s.nodes && s.nodes[l].role == Leader && p in s.nodes[l].next ==>
      p in s.nodes[l].matched && p in s.nodes && PeerGood(cfg.limits, h, l, s.nodes[l], p, s.nodes[p])
  }

  ghost predicate PeersOk(cfg: Config, s: State, h: History) {
    forall l, p | l in s.nodes && s.nodes[l].role == Leader && p in s.nodes[l].next :: PeerAt(cfg, s, h, l, p)
  }

  lemma InitPeers(cfg: Config)
    ensures PeersOk(cfg, Init(cfg), NO_HISTORY)
  {
    var s := Init(cfg);
    assert forall n | n in s.nodes :: s.nodes[n] == InitNode(cfg, n);
  }

  // ---------------------------------------------------------------- one leader and one peer

  ghost predicate StoredGrows(h: History, h': History) {
    forall t, n :: StoredUpTo(h, t, n) <= StoredUpTo(h', t, n)
  }

  lemma PeerKept(limits: Limits, h: History, h': History, self: NodeId, l: Node, l': Node, p: NodeId, f: Node, f': Node)
    requires p in l.next && p in l.matched && p in l'.next && p in l'.matched
    requires PeerGood(limits, h, self, l, p, f) && Extends(h.candLog, h'.candLog) && StoredGrows(h, h')
    requires l'.log == l.log && l'.term == l.term && l'.next[p] == l.next[p] && l'.matched[p] == l.matched[p]
    requires f'.log == f.log && f.term <= f'.term
    ensures PeerGood(limits, h', self, l', p, f')
  {
    assert StoredUpTo(h, l.term, p) <= StoredUpTo(h', l.term, p);
    if f'.term <= l.term {
      forall k: nat | Agree(f'.log, l'.log, k) ensures k <= Reach(limits, l', p) {
        assert Agree(f.log, l.log, k);
      }
    }
  }

  /** A log with entries of earlier terms only agrees with a leader's at most up to the leader's candidate log. */
  lemma LowerAgree(cand: Log, log: Log, term: nat, low: Log, k: nat)
    requires cand <= log && forall i | |cand| <= i < |log| :: log[i].term == term
    requires term >= 1 && Sorted(low, term - 1)
    requires Agree(low, log, k)
    ensures k <= |cand|
  {
    if k > |cand| { AgreeAt(low, log, k, |cand|); }
  }

  lemma PeerLower(limits: Limits, h: History, h': History, self: NodeId, l: Node, p: NodeId, f: Node, f': Node)
    requires p in l.next && p in l.matched
    requires PeerGood(limits, h, self, l, p, f) && Extends(h.candLog, h'.candLog) && StoredGrows(h, h')
    requires f.term <= f'.term < l.term && Sorted(f'.log, f'.term)
    requires h.candLog[Key(l.term, self)] <= l.log
    requires forall i | |h.candLog[Key(l.term, self)]| <= i < |l.log| :: l.log[i].term == l.term
    ensures PeerGood(limits, h', self, l, p, f')
  {
    assert StoredUpTo(h, l.term, p) <= StoredUpTo(h', l.term, p);
    forall k: nat | Agree(f'.log, l.log, k) ensures k <= Reach(limits, l, p) {
      LowerAgree(h.candLog[Key(l.term, self)], l.log, l.term, f'.log, k);
    }
  }

  lemma PeerClient(limits: Limits, h: History, h': History, self: NodeId, l: Node, op: Op, p: NodeId, f: Node)
    requires p in l.next && p in l.matched
    requires PeerGood(limits, h, self, l, p, f) && h'.candLog == h.candLog && StoredGrows(h, h')
    requires |f.log| > |l.log| ==> f.log[|l.log|].term != l.term
    ensures PeerGood(limits, h', self, ClientAppend(l, op), p, f)
  {
    var l' := ClientAppend(l, op);
    assert StoredUpTo(h, l.term, p) <= StoredUpTo(h', l.term, p);
    assert l.matched[p] > 0 ==> l'.log[l.matched[p] - 1] == l.log[l.matched[p] - 1];
    BatchGrows(limits, l.log, l'.log, l.next[p], 0, limits.header);
    if f.term <= l.term {
      assert l'.log[..l.matched[p]] == l.log[..l.matched[p]];
      forall k: nat | Agree(f.log, l'.log, k) ensures k <= Reach(limits, l', p) {
        if k > |l.log| {
          AgreeAt(f.log, l'.log, k, |l.log|);
        } else {
          assert l'.log[..k] == l.log[..k];
          assert Agree(f.log, l.log, k);
        }
      }
    }
  }

  /** The message to p is what p's next index asks for. */
  ghost predicate Serves(limits: Limits, l: Node, p: NodeId, m: AppendRequest)
    requires p in l.next
  {
    && m.prevIndex + 1 == l.next[p] && m.prevIndex + |m.entries| == Reach(limits, l, p) <= |l.log|
    && m.prevTerm == TermAt(l.log, m.prevIndex)
    && m.entries == l.log[m.prevIndex..m.prevIndex + |m.entries|]
    && m.term == l.term && m.leaderCommit == l.commit
  }

  lemma MessageServes(limits: Limits, l: Node, self: NodeId, p: NodeId)
    requires p in l.next && l.next[p] <= |l.log| + 1
    ensures Serves(limits, l, p, AppendRequestOf(limits, l, self, l.next[p]))
  {
    BatchBounds(limits, l.log, l.next[p], 0, limits.header);
  }

  /** The heart of replication: an exchange keeps what both logs agree on, and the leader's next
      message still covers it, even when the reply is lost.  The receiver is still in the leader's
      term or an earlier one. */
  lemma PeerDelivered(limits: Limits, h: History, h': History, self: NodeId, l: Node, p: NodeId, f: Node, m: AppendRequest, f': Node)
    requires p in l.next && p in l.matched
    requires PeerGood(limits, h, self, l, p, f) && f.term <= l.term && Serves(limits, l, p, m)
    requires Fits(f.log, m) ==> LogAfter(f.log, m) == l.log[..m.prevIndex + |m.entries|]
    requires f'.log == LogAfter(f.log, m) && f'.term == l.term
    requires h'.candLog == h.candLog && StoredGrows(h, h')
    ensures PeerGood(limits, h', self, l, p, f')
    ensures forall k: nat | Agree(f.log, l.log, k) :: Agree(f'.log, l.log, k)
  {
    assert StoredUpTo(h, l.term, p) <= StoredUpTo(h', l.term, p);
    forall k: nat | Agree(f.log, l.log, k) ensures Agree(f'.log, l.log, k) {
      ExchangeKeepsAgreement(l.log, f.log, m, k);
    }
    if !Fits(f.log, m) {
      forall k: nat | Agree(f'.log, l.log, k) ensures k <= Reach(limits, l, p) {
        assert f'.log[..k] == f.log[..k];
        assert Agree(f.log, l.log, k);
      }
    }
  }

  /** The leader's indices after a processed reply. */
  lemma PeerAnswered(limits: Limits, h: History, self: NodeId, l: Node, p: NodeId, f: Node, m: AppendRequest, f': Node, l': Node)
    requires p in l.next && p in l.matched && l.role == Leader
    requires PeerGood(limits, h, self, l, p, f') && f.term <= l.term && Serves(limits, l, p, m)
    requires Fits(f.log, m) ==> LogAfter(f.log, m) == l.log[..m.prevIndex + |m.entries|]
    requires f'.log == LogAfter(f.log, m) && f'.term == l.term
    requires Fits(f.log, m) && LastTerm(f'.log) == l.term ==> |f'.log| <= StoredUpTo(h, l.term, p)
    requires l' == HandleAppendReply(l, p, m, AppendReplyOf(f, m))
    ensures PeerGood(limits, h, self, l', p, f') && l'.role == Leader && l'.term == l.term
  {
    forall k: nat | Agree(f'.log, l'.log, k) ensures k <= Reach(limits, l', p) {
      assert k <= |f'.log|;
    }
  }

  lemma ExchangeKeepsAgreement(log: Log, old_: Log, m: AppendRequest, k: nat)
    requires Agree(old_, log, k) && k <= m.prevIndex + |m.entries| <= |log|
    requires m.prevTerm == TermAt(log, m.prevIndex)
    requires Fits(old_, m) ==> LogAfter(old_, m) == log[..m.prevIndex + |m.entries|]
    ensures Agree(LogAfter(old_, m), log, k)
  {
    if Fits(old_, m) {
      assert log[..m.prevIndex + |m.entries|][..k] == log[..k];
    } else if m.prevIndex <= |old_| {
      if k >= m.prevIndex { AgreeAt(old_, log, k, m.prevIndex - 1); }
      assert old_[..m.prevIndex - 1][..k] == old_[..k];
    }
  }

  // ---------------------------------------------------------------- the whole cluster

  /** A node that has just won: its peers' indices are reset. */
  ghost predicate JustWon(h: History, self: NodeId, n': Node) {
    && Key(n'.term, self) in h.candLog && n'.log == h.candLog[Key(n'.term, self)] && n'.term >= 1
    && (forall p | p in n'.next :: n'.next[p] == |n'.log| + 1)
    && (forall p | p in n'.matched :: n'.matched[p] == 0)
  }

  ghost predicate StillLeads(n: Node, n': Node) {
    n.role == Leader && n'.term == n.term && n'.log == n.log && n'.next == n.next && n'.matched == n.matched
  }

  /** Steps that change no log. */
  lemma SameLogsPeers(cfg: Config, s: State, h: History, s': State, h': History)
    requires PeersOk(cfg, s, h) && NodesOk(cfg, s', h') && Forward(s, s')
    requires Extends(h.candLog, h'.candLog) && StoredGrows(h, h')
    requires forall n | n in s.nodes :: s'.nodes[n].log == s.nodes[n].log
    requires forall n | n in s.nodes && s'.nodes[n].role == Leader ::
      StillLeads(s.nodes[n], s'.nodes[n]) || JustWon(h', n, s'.nodes[n])
    ensures PeersOk(cfg, s', h')
  {
    forall l, p | l in s'.nodes && s'.nodes[l].role == Leader && p in s'.nodes[l].next
      ensures PeerAt(cfg, s', h', l, p)
    {
      assert NodeGood(cfg, h'.candLog, l, s'.nodes[l]);
      if StillLeads(s.nodes[l], s'.nodes[l]) {
        assert NodeForward(s.nodes[p], s'.nodes[p]);
        PeerKept(cfg.limits, h, h', l, s.nodes[l], s'.nodes[l], p, s.nodes[p], s'.nodes[p]);
      } else {
        PeerWon(cfg.limits, h', l, s'.nodes[l], p, s'.nodes[p]);
      }
    }
  }

  lemma PeerWon(limits: Limits, h: History, self: NodeId, n: Node, p: NodeId, f: Node)
    requires p in n.next && p in n.matched && JustWon(h, self, n)
    ensures PeerGood(limits, h, self, n, p, f)
  {
  }

  lemma AskVoteRole(req: VoteRequest, n: Node)
    ensures HandleVoteRequest(n, req).log == n.log
    ensures HandleVoteRequest(n, req).role == Leader ==> StillLeads(n, HandleVoteRequest(n, req))
  {
  }

  lemma TakeReplyRole(h: History, size: nat, y: VoteReply, n: Node)
    requires LogGood(h, y.candidate, n) && !StaleDenial(n, y)
    requires Key(n.term, y.candidate) in h.candLog ==> n.term >= 1
    ensures HandleVoteReply(n, y.candidate, size, y).log == n.log
    ensures HandleVoteReply(n, y.candidate, size, y).role == Leader ==>
      StillLeads(n, HandleVoteReply(n, y.candidate, size, y)) || JustWon(h, y.candidate, HandleVoteReply(n, y.candidate, size, y))
  {
  }

  /** All that a step needs to know about a leader and one of its peers. */
  ghost predicate Pair(limits: Limits, h: History, self: NodeId, l: Node, p: NodeId, f: Node)
    requires p in l.next && p in l.matched
  {
    && PeerGood(limits, h, self, l, p, f)
    && h.candLog[Key(l.term, self)] <= l.log
    && (forall i | |h.candLog[Key(l.term, self)]| <= i < |l.log| :: l.log[i].term == l.term)
    && Sorted(f.log, f.term)
    && (f.role == Leader ==> f.term != l.term)
    && (|f.log| > |l.log| ==> f.log[|l.log|].term != l.term)
  }

  ghost predicate Pairs(cfg: Config, s: State, h: History) {
    forall l, p | l in s.nodes && s.nodes[l].role == Leader && p in s.nodes && p != l ::
      p in s.nodes[l].next && p in s.nodes[l].matched && Pair(cfg.limits, h, l, s.nodes[l], p, s.nodes[p])
  }

  ghost predicate PeerKeys(cfg: Config, s: State) {
    forall n | n in s.nodes :: s.nodes[n].next.Keys == s.nodes[n].matched.Keys == s.nodes.Keys - {n}
  }

  lemma AllPairs(cfg: Config, s: State, h: History)
    requires ElectionInv(cfg, s, h) && LogInv(cfg, s, h) && PeersOk(cfg, s, h)
    ensures Pairs(cfg, s, h) && PeerKeys(cfg, s)
  {
    forall l, p | l in s.nodes && s.nodes[l].role == Leader && p in s.nodes && p != l
      ensures p in s.nodes[l].next && p in s.nodes[l].matched && Pair(cfg.limits, h, l, s.nodes[l], p, s.nodes[p])
    {
      OnePair(cfg, s, h, l, p);
    }
    forall n | n in s.nodes ensures s.nodes[n].next.Keys == s.nodes[n].matched.Keys == s.nodes.Keys - {n} {
      assert NodeGood(cfg, h.candLog, n, s.nodes[n]);
    }
  }

  lemma OnePair(cfg: Config, s: State, h: History, l: NodeId, p: NodeId)
    requires ElectionInv(cfg, s, h) && LogInv(cfg, s, h) && PeersOk(cfg, s, h)
    requires l in s.nodes && s.nodes[l].role == Leader && p in s.nodes && p != l
    ensures p in s.nodes[l].next && p in s.nodes[l].matched && Pair(cfg.limits, h, l, s.nodes[l], p, s.nodes[p])
  {
    assert NodeGood(cfg, h.candLog, l, s.nodes[l]);
    LeaderLog(cfg, s, h, l);
    assert LogGood(h, p, s.nodes[p]);
    if s.nodes[p].role == Leader && s.nodes[p].term == s.nodes[l].term { OneLeaderNow(cfg, s, h, l, p); }
    if |s.nodes[p].log| > |s.nodes[l].log| && s.nodes[p].log[|s.nodes[l].log|].term == s.nodes[l].term {
      LeaderHasItsTerm(cfg, s, h, l, s.nodes[p].log, |s.nodes[l].log|);
    }
  }

  /** A peer whose log changes in a later or an earlier term than the leader's. */
  lemma PeerElsewhere(limits: Limits, h: History, h': History, self: NodeId, l: Node, p: NodeId, f: Node, f': Node)
    requires p in l.next && p in l.matched && Pair(limits, h, self, l, p, f)
    requires f.term <= f'.term && f'.term != l.term && Sorted(f'.log, f'.term)
    requires h'.candLog == h.candLog && StoredGrows(h, h')
    ensures PeerGood(limits, h', self, l, p, f')
  {
    if f'.term < l.term {
      PeerLower(limits, h, h', self, l, p, f, f');
    } else {
      assert StoredUpTo(h, l.term, p) <= StoredUpTo(h', l.term, p);
    }
  }

  lemma ClientPeers(cfg: Config, s: State, h: History, n: NodeId, op: Op, s': State, h': History)
    requires Pairs(cfg, s, h) && PeerKeys(cfg, s)
    requires n in s.nodes && s.nodes[n].role == Leader && s'.nodes == s.nodes[n := ClientAppend(s.nodes[n], op)]
    requires Sorted(s'.nodes[n].log, s'.nodes[n].term)
    requires h'.candLog == h.candLog && StoredGrows(h, h')
    ensures PeersOk(cfg, s', h')
  {
    forall l, p | l in s'.nodes && s'.nodes[l].role == Leader && p in s'.nodes[l].next
      ensures PeerAt(cfg, s', h', l, p)
    {
      assert p in s.nodes && p != l && Pair(cfg.limits, h, l, s.nodes[l], p, s.nodes[p]);
      if l == n {
        PeerClient(cfg.limits, h, h', n, s.nodes[n], op, p, s.nodes[p]);
      } else if p == n {
        PeerElsewhere(cfg.limits, h, h', l, s.nodes[l], n, s.nodes[n], s'.nodes[n]);
      } else {
        PeerKept(cfg.limits, h, h', l, s.nodes[l], s'.nodes[l], p, s.nodes[p], s'.nodes[p]);
      }
    }
  }

  // ---------------------------------------------------------------- the exchange

  /** The receiver of an exchange. */
  ghost predicate Received(l: Node, m: AppendRequest, f: Node, f': Node) {
    if f.term <= l.term then
      f'.term == l.term && f'.role == Follower && f'.log == LogAfter(f.log, m)
    else
      f' == f
  }

  /** The sender of an exchange. */
  ghost predicate Sent(p: NodeId, l: Node, l': Node) {
    && l'.log == l.log && l.term <= l'.term && l'.next.Keys == l.next.Keys && l'.matched.Keys == l.matched.Keys
    && (l'.role == Leader ==>
          && l'.term == l.term
          && (forall b | b in l.next && b != p :: l'.next[b] == l.next[b])
          && (forall b | b in l.matched && b != p :: l'.matched[b] == l.matched[b]))
  }

  lemma ReceivedBy(l: Node, m: AppendRequest, f: Node)
    requires m.term == l.term && !(f.role == Leader && f.term == l.term)
    ensures Received(l, m, f, HandleAppend(f, m))
  {
  }

  lemma SentBy(p: NodeId, l: Node, m: AppendRequest, r: AppendReply)
    requires p in l.next && p in l.matched
    ensures Sent(p, l, HandleAppendReply(l, p, m, r))
  {
  }

  /** The sender and a peer it did not write to. */
  lemma SenderAndOther(limits: Limits, h: History, h': History, self: NodeId, l: Node, l': Node, p: NodeId, b: NodeId, f: Node)
    requires b in l.next && b in l.matched && b != p && Pair(limits, h, self, l, b, f)
    requires Sent(p, l, l') && l'.role == Leader
    requires h'.candLog == h.candLog && StoredGrows(h, h')
    ensures b in l'.next && b in l'.matched && PeerGood(limits, h', self, l', b, f)
  {
    PeerKept(limits, h, h', self, l, l', b, f, f);
  }

  /** Another leader and the receiver. */
  lemma OtherAndReceiver(limits: Limits, h: History, h': History, self: NodeId, a: Node, l: Node, m: AppendRequest, p: NodeId, f: Node, f': Node)
    requires p in a.next && p in a.matched && Pair(limits, h, self, a, p, f) && l.term != a.term
    requires Received(l, m, f, f') && (f.term <= l.term ==> Sorted(f'.log, l.term))
    requires h'.candLog == h.candLog && StoredGrows(h, h')
    ensures PeerGood(limits, h', self, a, p, f')
  {
    if f.term <= l.term {
      PeerElsewhere(limits, h, h', self, a, p, f, f');
    } else {
      PeerKept(limits, h, h', self, a, a, p, f, f);
    }
  }

  /** Another leader and the sender. */
  lemma OtherAndSender(limits: Limits, h: History, h': History, self: NodeId, a: Node, l: NodeId, n: Node, n': Node, p: NodeId)
    requires l in a.next && l in a.matched && Pair(limits, h, self, a, l, n) && Sent(p, n, n')
    requires h'.candLog == h.candLog && StoredGrows(h, h')
    ensures PeerGood(limits, h', self, a, l, n')
  {
    PeerKept(limits, h, h', self, a, a, l, n, n');
  }

  lemma PairAt(cfg: Config, s: State, h: History, a: NodeId, b: NodeId)
    requires Pairs(cfg, s, h) && PeerKeys(cfg, s)
    requires a in s.nodes && s.nodes[a].role == Leader && b in s.nodes[a].next
    ensures b in s.nodes && b != a && b in s.nodes[a].matched && Pair(cfg.limits, h, a, s.nodes[a], b, s.nodes[b])
  {
  }

  lemma LeadersDiffer(cfg: Config, s: State, h: History, a: NodeId, l: NodeId)
    requires Pairs(cfg, s, h) && PeerKeys(cfg, s)
    requires a in s.nodes && l in s.nodes && a != l && s.nodes[a].role == Leader && s.nodes[l].role == Leader
    ensures s.nodes[l].term != s.nodes[a].term
  {
    assert Pair(cfg.limits, h, a, s.nodes[a], l, s.nodes[l]);
  }

  /** All leaders and peers after an exchange. */
  ghost predicate Exchanged(cfg: Config, s: State, h: History, l: NodeId, p: NodeId, m: AppendRequest, s': State, h': History) {
    && Pairs(cfg, s, h) && PeerKeys(cfg, s)
    && l in s.nodes && p in s.nodes && l != p && s.nodes[l].role == Leader
    && s'.nodes.Keys == s.nodes.Keys && (forall k | k in s.nodes && k != l && k != p :: s'.nodes[k] == s.nodes[k])
    && Received(s.nodes[l], m, s.nodes[p], s'.nodes[p]) && Sent(p, s.nodes[l], s'.nodes[l])
    && (s.nodes[p].term <= s.nodes[l].term ==> Sorted(s'.nodes[p].log, s.nodes[l].term))
    && h'.candLog == h.candLog && StoredGrows(h, h')
  }

  lemma ExchangePeers(cfg: Config, s: State, h: History, l: NodeId, p: NodeId, m: AppendRequest, s': State, h': History)
    requires Exchanged(cfg, s, h, l, p, m, s', h') && PeerAt(cfg, s', h', l, p)
    ensures PeersOk(cfg, s', h')
  {
    forall a, b | a in s'.nodes && s'.nodes[a].role == Leader && b in s'.nodes[a].next
      ensures PeerAt(cfg, s', h', a, b)
    {
      if a != l {
        OtherLeader(cfg, s, h, l, p, m, s', h', a, b);
      } else if b != p {
        SenderPeer(cfg, s, h, l, p, s', h', b);
      }
    }
  }

  lemma SenderPeer(cfg: Config, s: State, h: History, l: NodeId, p: NodeId, s': State, h': History, b: NodeId)
    requires Pairs(cfg, s, h) && PeerKeys(cfg, s)
    requires l in s.nodes && s.nodes[l].role == Leader && s'.nodes.Keys == s.nodes.Keys
    requires Sent(p, s.nodes[l], s'.nodes[l]) && s'.nodes[l].role == Leader
    requires b in s'.nodes[l].next && b != p && (b in s.nodes && b != l ==> s'.nodes[b] == s.nodes[b])
    requires h'.candLog == h.candLog && StoredGrows(h, h')
    ensures PeerAt(cfg, s', h', l, b)
  {
    PairAt(cfg, s, h, l, b);
    SenderAndOther(cfg.limits, h, h', l, s.nodes[l], s'.nodes[l], p, b, s.nodes[b]);
  }

  lemma OtherLeader(cfg: Config, s: State, h: History, l: NodeId, p: NodeId, m: AppendRequest, s': State, h': History, a: NodeId, b: NodeId)
    requires Exchanged(cfg, s, h, l, p, m, s', h')
    requires a in s'.nodes && s'.nodes[a].role == Leader && b in s'.nodes[a].next && a != l
    ensures PeerAt(cfg, s', h', a, b)
  {
    assert s'.nodes[a] == s.nodes[a];
    PairAt(cfg, s, h, a, b);
    LeadersDiffer(cfg, s, h, a, l);
    var A, B, B' := s.nodes[a], s.nodes[b], s'.nodes[b];
    if b == p {
      OtherAndReceiver(cfg.limits, h, h', a, A, s.nodes[l], m, p, B, B');
    } else if b == l {
      OtherAndSender(cfg.limits, h, h', a, A, l, B, B', p);
    } else {
      PeerKept(cfg.limits, h, h', a, A, A, b, B, B);
    }
  }

  /** The sender and the receiver themselves. */
  lemma ExchangePair(limits: Limits, h: History, h': History, self: NodeId, l: Node, p: NodeId, f: Node, lost: bool, m: AppendRequest, f': Node, l': Node)
    requires p in l.next && p in l.matched && l.role == Leader && Pair(limits, h, self, l, p, f)
    requires Canon(h.termLog, l.log) && Sorted(l.log, l.term) && Canon(h.termLog, f.log)
    requires m == AppendRequestOf(limits, l, self, l.next[p]) && f' == HandleAppend(f, m)
    requires l' == if lost then l else HandleAppendReply(l, p, m, AppendReplyOf(f, m))
    requires h'.candLog == h.candLog && StoredGrows(h, h')
    requires f.term <= l.term && Fits(f.log, m) && LastTerm(f'.log) == l.term ==> |f'.log| <= StoredUpTo(h', l.term, p)
    ensures Serves(limits, l, p, m) && Received(l, m, f, f') && Sent(p, l, l')
    ensures l'.role == Leader ==> p in l'.next && p in l'.matched && PeerGood(limits, h', self, l', p, f')
    ensures f.term <= l.term ==>
      && (Fits(f.log, m) ==> f'.log == l.log[..m.prevIndex + |m.entries|])
      && Canon(h.termLog, f'.log) && Sorted(f'.log, l.term)
      && forall k: nat | Agree(f.log, l.log, k) :: Agree(f'.log, l.log, k)
  {
    MessageServes(limits, l, self, p);
    SentBy(p, l, m, AppendReplyOf(f, m));
    ReceivedBy(l, m, f);
    hide AppendRequestOf, HandleAppend, BatchFrom, QuorumIndex;
    if f.term <= l.term {
      hide Canon, Sorted;
      PairAccepted(limits, h, h', self, l, p, f, lost, m, f', l');
    } else if lost {
      hide Canon, Sorted, HandleAppendReply;
      PeerKept(limits, h, h', self, l, l', p, f, f');
    }
  }

  /** The receiver is in no later term: it takes the message. */
  lemma PairAccepted(limits: Limits, h: History, h': History, self: NodeId, l: Node, p: NodeId, f: Node, lost: bool, m: AppendRequest, f': Node, l': Node)
    requires p in l.next && p in l.matched && l.role == Leader && PeerGood(limits, h, self, l, p, f) && Serves(limits, l, p, m)
    requires Canon(h.termLog, l.log) && Sorted(l.log, l.term) && Canon(h.termLog, f.log) && Sorted(f.log, f.term)
    requires f.term <= l.term && f'.term == l.term && f'.log == LogAfter(f.log, m)
    requires l' == if lost then l else HandleAppendReply(l, p, m, AppendReplyOf(f, m))
    requires h'.candLog == h.candLog && StoredGrows(h, h')
    requires Fits(f.log, m) && LastTerm(f'.log) == l.term ==> |f'.log| <= StoredUpTo(h', l.term, p)
    ensures p in l'.next && p in l'.matched && PeerGood(limits, h', self, l', p, f')
    ensures Fits(f.log, m) ==> f'.log == l.log[..m.prevIndex + |m.entries|]
    ensures Canon(h.termLog, f'.log) && Sorted(f'.log, l.term)
    ensures forall k: nat | Agree(f.log, l.log, k) :: Agree(f'.log, l.log, k)
  {
    AppendedLog(h.termLog, l.log, l.term, f.log, m);
    hide Canon, Sorted, StoredGrows, LogAfter, AppendReplyOf, QuorumIndex;
    PeerDelivered(limits, h, h', self, l, p, f, m, f');
    if !lost {
      PeerAnswered(limits, h', self, l, p, f, m, f', l');
      KeysAfterReply(l, p, m, AppendReplyOf(f, m));
    }
    hide PeerGood, HandleAppendReply, Reach;
  }

  lemma KeysAfterReply(l: Node, p: NodeId, m: AppendRequest, r: AppendReply)
    requires p in l.next && p in l.matched
    ensures p in HandleAppendReply(l, p, m, r).next && p in HandleAppendReply(l, p, m, r).matched
  {
  }
}
