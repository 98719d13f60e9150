/** Logs: every prefix of every log that ends in an entry of term T is a prefix of the log of the one
    node that authored T.  This is stronger than log matching and gives the unique author of a term. */
module Logs {
  import opened Types
  import opened Protocol
  import opened Cluster
  import opened Elections

  // ---------------------------------------------------------------- the invariant

  /** Terms never decrease along a log and lie between 1 and `bound`. */
  ghost predicate Sorted(log: Log, bound: nat) {
    && (forall i | 0 <= i < |log| :: 1 <= log[i].term <= bound)
    && (forall i, j | 0 <= i < j < |log| :: log[i].term <= log[j].term)
  }

  /** Each prefix that ends in an entry of term T is a prefix of the log recorded for T. */
  ghost predicate Canon(termLog: map<nat, Log>, log: Log) {
    forall i | 0 <= i < |log| ::
      log[i].term in termLog && Agree(log, termLog[log[i].term], i + 1)
  }

  ghost predicate LogGood(h: History, self: NodeId, n: Node) {
    && Sorted(n.log, n.term)
    && Canon(h.termLog, n.log)
    && (n.role != Follower ==>
          && Key(n.term, self) in h.candLog
          && (n.log == h.candLog[Key(n.term, self)]
              || (n.role == Leader && n.term in h.author && h.author[n.term] == self)))
  }

  ghost predicate LogsOk(s: State, h: History) {
    forall n | n in s.nodes :: LogGood(h, n, s.nodes[n])
  }

  /** A candidate starts with entries of earlier terms only. */
  ghost predicate CandLogGood(termLog: map<nat, Log>, term: nat, log: Log) {
    term >= 1 && Sorted(log, term - 1) && Canon(termLog, log)
  }

  ghost predicate CandLogsOk(h: History) {
    forall c | c in h.candLog :: CandLogGood(h.termLog, c.term, h.candLog[c])
  }

  /** The log of a term's author: its log as a candidate, then at least one entry, all of the term itself. */
  ghost predicate AuthorLog(term: nat, cand: Log, log: Log) {
    && |cand| < |log| && cand <= log
    && forall i | |cand| <= i < |log| :: log[i].term == term
  }

  /** The author of a term never gave it away, and as long as it stays in the term it leads it. */
  ghost predicate AuthorNode(term: nat, log: Log, a: Node) {
    && term <= a.term && term !in a.voteFor
    && (a.term == term ==> a.role == Leader && a.log == log)
  }

  ghost predicate AuthorGood(cfg: Config, s: State, h: History, term: nat)
    requires term in h.author
  {
    var a := h.author[term];
    && term in h.termLog && a in s.nodes && Key(term, a) in h.candLog
    && AuthorLog(term, h.candLog[Key(term, a)], h.termLog[term])
    && Canon(h.termLog, h.termLog[term])
    && Majority(cfg, Voters(s, term, a))
    && AuthorNode(term, h.termLog[term], s.nodes[a])
  }

  ghost predicate AuthorsOk(cfg: Config, s: State, h: History) {
    && h.termLog.Keys == h.author.Keys
    && forall term | term in h.author :: AuthorGood(cfg, s, h, term)
  }

  ghost predicate LogInv(cfg: Config, s: State, h: History) {
    LogsOk(s, h) && CandLogsOk(h) && AuthorsOk(cfg, s, h)
  }

  lemma InitLogs(cfg: Config)
    ensures LogInv(cfg, Init(cfg), NO_HISTORY)
  {
    var s := Init(cfg);
    assert forall n | n in s.nodes :: s.nodes[n] == InitNode(cfg, n);
  }

  // ---------------------------------------------------------------- facts about logs

  lemma CanonAgree(termLog: map<nat, Log>, a: Log, b: Log, k: nat)
    requires Canon(termLog, a) && Canon(termLog, b)
    requires k <= |a| && k <= |b| && TermAt(a, k) == TermAt(b, k)
    ensures Agree(a, b, k)
  {
    if k > 0 {
      assert Agree(a, termLog[a[k - 1].term], k);
      assert Agree(b, termLog[b[k - 1].term], k);
    }
  }

  lemma CanonPrefix(termLog: map<nat, Log>, log: Log, k: nat)
    requires Canon(termLog, log) && k <= |log|
    ensures Canon(termLog, log[..k])
  {
    forall i | 0 <= i < k
      ensures log[..k][i].term in termLog && Agree(log[..k], termLog[log[..k][i].term], i + 1)
    {
      assert Agree(log, termLog[log[i].term], i + 1);
      assert log[..k][..i + 1] == log[..i + 1];
    }
  }

  lemma SortedPrefix(log: Log, bound: nat, k: nat)
    requires Sorted(log, bound) && k <= |log|
    ensures Sorted(log[..k], bound)
  {
  }

  /** Recorded logs only ever grow. */
  ghost predicate Grows(termLog: map<nat, Log>, termLog': map<nat, Log>) {
    forall t | t in termLog :: t in termLog' && termLog[t] <= termLog'[t]
  }

  lemma CanonGrows(termLog: map<nat, Log>, termLog': map<nat, Log>, log: Log)
    requires Canon(termLog, log) && Grows(termLog, termLog')
    ensures Canon(termLog', log)
  {
    forall i | 0 <= i < |log|
      ensures log[i].term in termLog' && Agree(log, termLog'[log[i].term], i + 1)
    {
      var t := log[i].term;
      assert Agree(log, termLog[t], i + 1);
      assert termLog'[t][..i + 1] == termLog[t][..i + 1];
    }
  }

  // ---------------------------------------------------------------- leaders and authors

  /** A node that leads a term is the only possible author of that term, and if it is the author,
      the recorded log is its own. */
  lemma LeaderIsAuthor(cfg: Config, s: State, h: History, l: NodeId)
    requires ElectionInv(cfg, s, h) && AuthorsOk(cfg, s, h)
    requires l in s.nodes && s.nodes[l].role == Leader && s.nodes[l].term in h.author
    ensures h.author[s.nodes[l].term] == l && s.nodes[l].log == h.termLog[s.nodes[l].term]
  {
    var term := s.nodes[l].term;
    assert AuthorGood(cfg, s, h, term);
    assert NodeGood(cfg, h.candLog, l, s.nodes[l]);
    WinnersAgree(cfg, s, term, l, h.author[term]);
  }

  /** No log holds an entry of a leader's term that the leader itself does not hold. */
  lemma LeaderHasItsTerm(cfg: Config, s: State, h: History, l: NodeId, log: Log, i: nat)
    requires ElectionInv(cfg, s, h) && AuthorsOk(cfg, s, h) && Canon(h.termLog, log)
    requires l in s.nodes && s.nodes[l].role == Leader
    requires i < |log| && log[i].term == s.nodes[l].term
    ensures i < |s.nodes[l].log|
  {
    assert Agree(log, h.termLog[log[i].term], i + 1);
    LeaderIsAuthor(cfg, s, h, l);
  }

  /** A leader's log is what it had as a candidate followed by entries of its own term. */
  lemma LeaderLog(cfg: Config, s: State, h: History, l: NodeId)
    requires ElectionInv(cfg, s, h) && LogInv(cfg, s, h)
    requires l in s.nodes && s.nodes[l].role == Leader
    ensures Key(s.nodes[l].term, l) in h.candLog && h.candLog[Key(s.nodes[l].term, l)] <= s.nodes[l].log
    ensures forall i | |h.candLog[Key(s.nodes[l].term, l)]| <= i < |s.nodes[l].log| :: s.nodes[l].log[i].term == s.nodes[l].term
  {
    assert LogGood(h, l, s.nodes[l]);
    if s.nodes[l].log != h.candLog[Key(s.nodes[l].term, l)] {
      LeaderIsAuthor(cfg, s, h, l);
      assert AuthorGood(cfg, s, h, s.nodes[l].term);
    }
  }

  // ---------------------------------------------------------------- the single nodes

  lemma TimeoutLog(h: History, self: NodeId, n: Node, h': History)
    requires LogGood(h, self, n)
    requires h'.candLog == h.candLog[Key(n.term + 1, self) := n.log] && h'.termLog == h.termLog
    ensures LogGood(h', self, BecomeCandidate(n))
  {
  }

  lemma TimeoutAuthor(term: nat, log: Log, n: Node)
    requires AuthorNode(term, log, n) && n.role != Leader
    ensures AuthorNode(term, log, BecomeCandidate(n))
  {
  }

  lemma AskVoteLog(h: History, req: VoteRequest, n: Node)
    requires LogGood(h, req.to, n)
    ensures LogGood(h, req.to, HandleVoteRequest(n, req))
  {
  }

  /** Once a leader has appended in its term, the up-to-date check stops it from granting that term. */
  lemma AskVoteAuthor(term: nat, log: Log, req: VoteRequest, n: Node)
    requires AuthorNode(term, log, n) && LastTerm(log) == term
    requires req.lastTerm < req.term
    ensures AuthorNode(term, log, HandleVoteRequest(n, req))
  {
  }

  lemma TakeReplyLog(h: History, size: nat, y: VoteReply, n: Node)
    requires LogGood(h, y.candidate, n) && !StaleDenial(n, y)
    ensures LogGood(h, y.candidate, HandleVoteReply(n, y.candidate, size, y))
  {
  }

  lemma TakeReplyAuthor(term: nat, log: Log, size: nat, y: VoteReply, n: Node)
    requires AuthorNode(term, log, n) && !StaleDenial(n, y)
    ensures AuthorNode(term, log, HandleVoteReply(n, y.candidate, size, y))
  {
  }

  /** The receiver's log after an exchange with a leader whose log is `log`. */
  lemma AppendedLog(termLog: map<nat, Log>, log: Log, bound: nat, old_: Log, m: AppendRequest)
    requires Canon(termLog, log) && Sorted(log, bound) && Canon(termLog, old_) && Sorted(old_, bound)
    requires m.prevIndex + |m.entries| <= |log| && m.prevTerm == TermAt(log, m.prevIndex)
    requires m.entries == log[m.prevIndex..m.prevIndex + |m.entries|]
    ensures Fits(old_, m) ==> Agree(old_, log, m.prevIndex) && LogAfter(old_, m) == log[..m.prevIndex + |m.entries|]
    ensures !Fits(old_, m) ==> LogAfter(old_, m) <= old_
    ensures Canon(termLog, LogAfter(old_, m)) && Sorted(LogAfter(old_, m), bound)
  {
    if Fits(old_, m) {
      CanonAgree(termLog, old_, log, m.prevIndex);
      assert log[..m.prevIndex] + m.entries == log[..m.prevIndex + |m.entries|];
      CanonPrefix(termLog, log, m.prevIndex + |m.entries|);
      SortedPrefix(log, bound, m.prevIndex + |m.entries|);
    } else if |old_| < m.prevIndex {
    } else {
      CanonPrefix(termLog, old_, m.prevIndex - 1);
      SortedPrefix(old_, bound, m.prevIndex - 1);
    }
  }

  lemma AppendLog(h: History, self: NodeId, n: Node, m: AppendRequest)
    requires LogGood(h, self, n) && !(n.role == Leader && n.term == m.term)
    requires n.term <= m.term ==> Canon(h.termLog, LogAfter(n.log, m)) && Sorted(LogAfter(n.log, m), m.term)
    ensures LogGood(h, self, HandleAppend(n, m))
  {
  }

  lemma AppendAuthor(term: nat, log: Log, n: Node, m: AppendRequest)
    requires AuthorNode(term, log, n) && !(n.role == Leader && n.term == m.term)
    ensures AuthorNode(term, log, HandleAppend(n, m))
  {
  }

  lemma AppendReplyLog(h: History, self: NodeId, n: Node, p: NodeId, m: AppendRequest, r: AppendReply)
    requires LogGood(h, self, n) && p in n.next
    ensures LogGood(h, self, HandleAppendReply(n, p, m, r))
    ensures HandleAppendReply(n, p, m, r).log == n.log
  {
  }

  lemma AppendReplyAuthor(term: nat, log: Log, n: Node, p: NodeId, m: AppendRequest, r: AppendReply)
    requires AuthorNode(term, log, n) && p in n.next
    ensures AuthorNode(term, log, HandleAppendReply(n, p, m, r))
  {
  }

  // ---------------------------------------------------------------- the whole cluster

  lemma KeepAuthors(cfg: Config, s: State, h: History, s': State, h': History)
    requires AuthorsOk(cfg, s, h) && Forward(s, s') && s'.nodes.Keys == cfg.members
    requires h'.author == h.author && h'.termLog == h.termLog && Extends(h.candLog, h'.candLog)
    requires forall t | t in h.author :: AuthorNode(t, h.termLog[t], s'.nodes[h.author[t]])
    ensures AuthorsOk(cfg, s', h')
  {
    forall t | t in h'.author ensures AuthorGood(cfg, s', h', t) {
      assert AuthorGood(cfg, s, h, t);
      ForwardMajority(cfg, s, s', t, h.author[t]);
    }
  }

  lemma MoreHistory(h: History, h': History, self: NodeId, n: Node)
    requires LogGood(h, self, n) && Extends(h.candLog, h'.candLog) && Grows(h.termLog, h'.termLog)
    requires n.role == Leader && n.term in h.author ==> n.term in h'.author && h'.author[n.term] == h.author[n.term]
    ensures LogGood(h', self, n)
  {
    CanonGrows(h.termLog, h'.termLog, n.log);
  }

  lemma TimeoutLogs(cfg: Config, s: State, h: History, n: NodeId, s': State, h': History)
    requires s.nodes.Keys == cfg.members && LogInv(cfg, s, h) && n in s.nodes && s.nodes[n].role != Leader
    requires Extends(h.candLog, h'.candLog) && Forward(s, s')
    requires s'.nodes == s.nodes[n := BecomeCandidate(s.nodes[n])]
    requires h' == h.(candLog := h.candLog[Key(s.nodes[n].term + 1, n) := s.nodes[n].log])
    ensures LogInv(cfg, s', h')
  {
    TimeoutNodeLogs(s, h, n, s', h');
    TimeoutAuthors(cfg, s, h, n, s', h');
  }

  lemma TimeoutNodeLogs(s: State, h: History, n: NodeId, s': State, h': History)
    requires LogsOk(s, h) && CandLogsOk(h) && n in s.nodes
    requires Extends(h.candLog, h'.candLog)
    requires s'.nodes == s.nodes[n := BecomeCandidate(s.nodes[n])]
    requires h' == h.(candLog := h.candLog[Key(s.nodes[n].term + 1, n) := s.nodes[n].log])
    ensures LogsOk(s', h') && CandLogsOk(h')
  {
    assert LogGood(h, n, s.nodes[n]);
    assert CandLogGood(h.termLog, s.nodes[n].term + 1, s.nodes[n].log);
    forall k | k in s'.nodes ensures LogGood(h', k, s'.nodes[k]) {
      assert LogGood(h, k, s.nodes[k]);
      if k == n { TimeoutLog(h, n, s.nodes[n], h'); } else { MoreHistory(h, h', k, s.nodes[k]); }
    }
    forall c | c in h'.candLog ensures CandLogGood(h'.termLog, c.term, h'.candLog[c]) {
      if c in h.candLog { assert CandLogGood(h.termLog, c.term, h.candLog[c]); }
    }
  }

  lemma TimeoutAuthors(cfg: Config, s: State, h: History, n: NodeId, s': State, h': History)
    requires s.nodes.Keys == cfg.members && AuthorsOk(cfg, s, h) && n in s.nodes && s.nodes[n].role != Leader && Forward(s, s')
    requires s'.nodes == s.nodes[n := BecomeCandidate(s.nodes[n])]
    requires h'.author == h.author && h'.termLog == h.termLog && Extends(h.candLog, h'.candLog)
    ensures AuthorsOk(cfg, s', h')
  {
    forall t | t in h.author ensures AuthorNode(t, h.termLog[t], s'.nodes[h.author[t]]) {
      assert AuthorGood(cfg, s, h, t);
      if h.author[t] == n { TimeoutAuthor(t, h.termLog[t], s.nodes[n]); }
    }
    KeepAuthors(cfg, s, h, s', h');
  }

  /** A step that changes one node and no history. */
  lemma ChangeLogs(cfg: Config, s: State, h: History, n: NodeId, n': Node, s': State, h': History)
    requires s.nodes.Keys == cfg.members && LogInv(cfg, s, h) && n in s.nodes && Forward(s, s')
    requires s'.nodes == s.nodes[n := n'] && LogGood(h, n, n') && h' == h.(stored := h'.stored)
    requires forall t | t in h.author && h.author[t] == n :: AuthorNode(t, h.termLog[t], n')
    ensures LogInv(cfg, s', h')
  {
    hide Sorted, Canon, Forward;
    forall k | k in s'.nodes ensures LogGood(h', k, s'.nodes[k]) {
      if k != n { assert LogGood(h, k, s.nodes[k]); }
    }
    forall t | t in h.author ensures AuthorNode(t, h.termLog[t], s'.nodes[h.author[t]]) {
      assert AuthorGood(cfg, s, h, t);
    }
    KeepAuthors(cfg, s, h, s', h');
  }

  lemma AskVoteLogs(cfg: Config, s: State, h: History, req: VoteRequest, s': State)
    requires NodesOk(cfg, s, h) && LogInv(cfg, s, h) && Forward(s, s') && RequestGood(s, h.candLog, req)
    requires s'.nodes == s.nodes[req.to := HandleVoteRequest(s.nodes[req.to], req)]
    ensures LogInv(cfg, s', h)
  {
    var n := s.nodes[req.to];
    assert LogGood(h, req.to, n);
    AskVoteLog(h, req, n);
    assert req.lastTerm < req.term;
    forall t | t in h.author && h.author[t] == req.to ensures AuthorNode(t, h.termLog[t], HandleVoteRequest(n, req)) {
      assert AuthorGood(cfg, s, h, t);
      AskVoteAuthor(t, h.termLog[t], req, n);
    }
    ChangeLogs(cfg, s, h, req.to, HandleVoteRequest(n, req), s', h);
  }

  lemma TakeReplyLogs(cfg: Config, s: State, h: History, y: VoteReply, s': State)
    requires NodesOk(cfg, s, h) && LogInv(cfg, s, h) && Forward(s, s')
    requires y.candidate in s.nodes && !StaleDenial(s.nodes[y.candidate], y)
    requires s'.nodes == s.nodes[y.candidate := HandleVoteReply(s.nodes[y.candidate], y.candidate, |cfg.members|, y)]
    ensures LogInv(cfg, s', h)
  {
    var n, size := s.nodes[y.candidate], |cfg.members|;
    assert LogGood(h, y.candidate, n);
    TakeReplyLog(h, size, y, n);
    forall t | t in h.author && h.author[t] == y.candidate
      ensures AuthorNode(t, h.termLog[t], HandleVoteReply(n, y.candidate, size, y))
    {
      assert AuthorGood(cfg, s, h, t);
      TakeReplyAuthor(t, h.termLog[t], size, y, n);
    }
    ChangeLogs(cfg, s, h, y.candidate, HandleVoteReply(n, y.candidate, size, y), s', h);
  }

  lemma ApplyLogs(cfg: Config, s: State, h: History, n: NodeId, s': State)
    requires NodesOk(cfg, s, h) && LogInv(cfg, s, h) && n in s.nodes && Forward(s, s')
    requires s'.nodes == s.nodes[n := ApplyCommitted(s.nodes[n])]
    ensures LogInv(cfg, s', h)
  {
    assert LogGood(h, n, s.nodes[n]);
    forall t | t in h.author && h.author[t] == n ensures AuthorNode(t, h.termLog[t], ApplyCommitted(s.nodes[n])) {
      assert AuthorGood(cfg, s, h, t);
    }
    ChangeLogs(cfg, s, h, n, ApplyCommitted(s.nodes[n]), s', h);
  }

  lemma ClientLogs(cfg: Config, s: State, h: History, n: NodeId, op: Op, s': State, h': History)
    requires ElectionInv(cfg, s, h) && LogInv(cfg, s, h) && Forward(s, s')
    requires n in s.nodes && s.nodes[n].role == Leader
    requires s'.nodes == s.nodes[n := ClientAppend(s.nodes[n], op)]
    requires h'.candLog == h.candLog && h'.author == h.author[s.nodes[n].term := n]
    requires h'.termLog == h.termLog[s.nodes[n].term := s'.nodes[n].log]
    ensures LogInv(cfg, s', h') && Grows(h.termLog, h'.termLog)
    ensures s.nodes[n].term in h.author ==> h.author[s.nodes[n].term] == n && h.termLog[s.nodes[n].term] == s.nodes[n].log
  {
    hide ElectionInv, LogInv;
    ClientFacts(cfg, s, h, n, op);
    hide LogsOk, CandLogsOk, AuthorsOk, Forward, Canon, Majority, AuthorLog, Grows;
    ClientCanon(h, s.nodes[n], s'.nodes[n].log, h');
    ClientNodeLogs(s, h, n, op, s', h');
    ForwardMajority(cfg, s, s', s.nodes[n].term, n);
    ClientAuthors(cfg, s, h, n, s', h');
    LogInvOf(cfg, s', h');
  }

  lemma LogInvOf(cfg: Config, s: State, h: History)
    requires LogsOk(s, h) && CandLogsOk(h) && AuthorsOk(cfg, s, h)
    ensures LogInv(cfg, s, h)
  {
  }

  /** What is known about a leader that appends. */
  lemma ClientFacts(cfg: Config, s: State, h: History, n: NodeId, op: Op)
    requires ElectionInv(cfg, s, h) && LogInv(cfg, s, h) && n in s.nodes && s.nodes[n].role == Leader
    ensures s.nodes.Keys == cfg.members && LogsOk(s, h) && CandLogsOk(h) && AuthorsOk(cfg, s, h)
    ensures var l := s.nodes[n];
      && Canon(h.termLog, l.log) && l.term !in l.voteFor && Majority(cfg, Voters(s, l.term, n)) && Key(l.term, n) in h.candLog
      && AuthorLog(l.term, h.candLog[Key(l.term, n)], ClientAppend(l, op).log)
      && (l.term in h.termLog ==> l.term in h.author)
      && (l.term in h.author ==> h.author[l.term] == n && l.term in h.termLog && h.termLog[l.term] == l.log)
  {
    hide Sorted, CandOk, RequestsOk, RepliesOk, CountOk, Canon, AuthorLog, Majority;
    var l := s.nodes[n];
    assert LogGood(h, n, l) && NodeGood(cfg, h.candLog, n, l);
    LeaderLog(cfg, s, h, n);
    AppendAuthorLog(l, h.candLog[Key(l.term, n)], op);
    assert Majority(cfg, Voters(s, l.term, n));
    hide LeadOk, NodesOk, NodeGood;
    if l.term in h.termLog { AuthorOfTerm(cfg, s, h, l.term); }
    if l.term in h.author { LeaderIsAuthor(cfg, s, h, n); }
  }

  lemma AuthorOfTerm(cfg: Config, s: State, h: History, t: nat)
    requires LogInv(cfg, s, h) && t in h.termLog
    ensures t in h.author
  {
  }

  lemma AppendAuthorLog(l: Node, cand: Log, op: Op)
    requires cand <= l.log && forall i | |cand| <= i < |l.log| :: l.log[i].term == l.term
    ensures AuthorLog(l.term, cand, ClientAppend(l, op).log)
  {
  }

  lemma ClientNodeLogs(s: State, h: History, n: NodeId, op: Op, s': State, h': History)
    requires LogsOk(s, h) && CandLogsOk(h)
    requires n in s.nodes && s.nodes[n].role == Leader
    requires s.nodes[n].term in h.author ==> h.author[s.nodes[n].term] == n
    requires s'.nodes == s.nodes[n := ClientAppend(s.nodes[n], op)]
    requires h'.candLog == h.candLog && h'.author == h.author[s.nodes[n].term := n]
    requires Grows(h.termLog, h'.termLog) && Canon(h'.termLog, s'.nodes[n].log)
    ensures LogsOk(s', h') && CandLogsOk(h')
  {
    forall k | k in s'.nodes ensures LogGood(h', k, s'.nodes[k]) {
      assert LogGood(h, k, s.nodes[k]);
      if k != n { MoreHistory(h, h', k, s.nodes[k]); }
    }
    forall c | c in h'.candLog ensures CandLogGood(h'.termLog, c.term, h'.candLog[c]) {
      assert CandLogGood(h.termLog, c.term, h.candLog[c]);
      CanonGrows(h.termLog, h'.termLog, h.candLog[c]);
    }
  }

  lemma ClientCanon(h: History, n: Node, log': Log, h': History)
    requires Canon(h.termLog, n.log) && |log'| == |n.log| + 1 && n.log <= log' && log'[|n.log|].term == n.term
    requires n.term in h.termLog ==> h.termLog[n.term] == n.log
    requires h'.termLog == h.termLog[n.term := log']
    ensures Grows(h.termLog, h'.termLog) && Canon(h'.termLog, log')
  {
    CanonGrows(h.termLog, h'.termLog, n.log);
    forall i | 0 <= i < |log'| ensures log'[i].term in h'.termLog && Agree(log', h'.termLog[log'[i].term], i + 1) {
      if i < |n.log| {
        assert Agree(n.log, h'.termLog[n.log[i].term], i + 1);
        assert log'[..i + 1] == n.log[..i + 1];
      }
    }
  }

  lemma ClientAuthors(cfg: Config, s: State, h: History, n: NodeId, s': State, h': History)
    requires s.nodes.Keys == s'.nodes.Keys == cfg.members && AuthorsOk(cfg, s, h) && Forward(s, s')
    requires n in s.nodes && s'.nodes == s.nodes[n := s'.nodes[n]] && s'.nodes[n].role == Leader
    requires s'.nodes[n].term == s.nodes[n].term && s'.nodes[n].voteFor == s.nodes[n].voteFor
    requires Key(s.nodes[n].term, n) in h.candLog && s.nodes[n].term !in s.nodes[n].voteFor
    requires Majority(cfg, Voters(s', s.nodes[n].term, n))
    requires AuthorLog(s.nodes[n].term, h.candLog[Key(s.nodes[n].term, n)], s'.nodes[n].log)
    requires h'.candLog == h.candLog && h'.author == h.author[s.nodes[n].term := n]
    requires h'.termLog == h.termLog[s.nodes[n].term := s'.nodes[n].log]
    requires Grows(h.termLog, h'.termLog) && Canon(h'.termLog, s'.nodes[n].log)
    ensures AuthorsOk(cfg, s', h')
  {
    hide Canon, Majority, AuthorLog, Forward;
    var term := s.nodes[n].term;
    forall t | t in h'.author && t != term ensures AuthorGood(cfg, s', h', t) {
      assert AuthorGood(cfg, s, h, t);
      ForwardMajority(cfg, s, s', t, h.author[t]);
      CanonGrows(h.termLog, h'.termLog, h.termLog[t]);
    }
    assert AuthorGood(cfg, s', h', term);
  }
}
