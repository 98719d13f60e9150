/** Which entries can no longer be lost.  An entry of term t at index k is open while the nodes that
    stored it in t, together with those that have not left t yet, meet every majority.  An open entry
    is in the log of every later leader and is never cut from a log that stored it in its term. */
module Locks {
  import opened Types
  import opened Protocol
  import opened Cluster
  import opened Elections
  import opened Logs
  import opened Replication
  import opened Steps

  /** Index k of the log of term t's author holds an entry of t itself. */
  ghost predicate Point(h: History, t: nat, k: nat) {
    t in h.termLog && 1 <= k <= |h.termLog[t]| && h.termLog[t][k - 1].term == t
  }

  ghost function Support(s: State, h: History, t: nat, k: nat): set<NodeId> {
    set q | q in s.nodes && (s.nodes[q].term <= t || StoredUpTo(h, t, q) >= k)
  }

  ghost predicate Open(s: State, h: History, t: nat, k: nat) {
    Point(h, t, k) && 2 * |Support(s, h, t, k)| >= |s.nodes|
  }

  /** Everything stored is a point of its author's log, and authors store what they append. */
  ghost predicate StoredOk(s: State, h: History) {
    && (forall c | c in h.stored :: Point(h, c.term, h.stored[c]) && c.node in s.nodes && c.term <= s.nodes[c.node].term)
    && (forall t | t in h.author :: t in h.termLog && StoredUpTo(h, t, h.author[t]) == |h.termLog[t]|)
  }

  /** Who stored an open entry in its term still has it. */
  ghost predicate HoldOk(s: State, h: History) {
    forall t: nat, k: nat, q | Open(s, h, t, k) && q in s.nodes && StoredUpTo(h, t, q) >= k ::
      Agree(h.termLog[t], s.nodes[q].log, k)
  }

  /** v's vote stands behind the candidacy c. */
  ghost predicate Backs(s: State, v: NodeId, c: Key) {
    v in s.nodes && (v == c.node || VotedFor(s.nodes[v], c.term, c.node))
  }

  /** A later candidacy backed by someone who stored an open entry started with that entry. */
  ghost predicate BackOk(s: State, h: History) {
    forall t: nat, k: nat, v, c | Open(s, h, t, k) && Backs(s, v, c) && StoredUpTo(h, t, v) >= k && c in h.candLog && t < c.term ::
      Agree(h.termLog[t], h.candLog[c], k)
  }

  ghost predicate LockInv(s: State, h: History) {
    StoredOk(s, h) && HoldOk(s, h) && BackOk(s, h)
  }

  lemma InitLocks(cfg: Config)
    ensures LockInv(Init(cfg), NO_HISTORY)
  {
  }

  // ---------------------------------------------------------------- later leaders

  lemma AgreeTrans(a: Log, b: Log, c: Log, k: nat)
    requires Agree(a, b, k) && Agree(b, c, k)
    ensures Agree(a, c, k) && Agree(b, a, k)
  {
  }

  lemma AgreeLess(a: Log, b: Log, k: nat, j: nat)
    requires Agree(a, b, k) && j <= k
    ensures Agree(a, b, j)
  {
    assert a[..j] == a[..k][..j];
    assert b[..j] == b[..k][..j];
  }

  lemma AgreePrefix(a: Log, b: Log, longer: Log, k: nat)
    requires Agree(a, b, k) && b <= longer
    ensures Agree(a, longer, k)
  {
    assert longer[..k] == b[..k];
  }

  /** Whoever backs a candidacy has reached its term. */
  lemma BackersTerm(cfg: Config, s: State, h: History, v: NodeId, c: Key)
    requires ElectionInv(cfg, s, h) && Backs(s, v, c) && c in h.candLog
    ensures c.term <= s.nodes[v].term
  {
    assert NodeGood(cfg, h.candLog, v, s.nodes[v]);
  }

  /** Any candidate of a later term that has a majority started with every open entry. */
  lemma WinnerHolds(cfg: Config, s: State, h: History, t: nat, k: nat, c: Key)
    requires ElectionInv(cfg, s, h) && BackOk(s, h) && Open(s, h, t, k)
    requires c in h.candLog && t < c.term && Majority(cfg, Voters(s, c.term, c.node))
    ensures Agree(h.termLog[t], h.candLog[c], k)
  {
    hide ElectionInv;
    WinnerMeets(cfg, s, h, t, k, c);
    var v :| v in Voters(s, c.term, c.node) && v in Support(s, h, t, k);
    assert Backs(s, v, c);
    BackersTerm(cfg, s, h, v, c);
  }

  lemma WinnerMeets(cfg: Config, s: State, h: History, t: nat, k: nat, c: Key)
    requires ElectionInv(cfg, s, h) && Open(s, h, t, k)
    requires c in h.candLog && Majority(cfg, Voters(s, c.term, c.node))
    ensures c.node in s.nodes && exists v :: v in Voters(s, c.term, c.node) && v in Support(s, h, t, k)
  {
    assert |s.nodes| == |s.nodes.Keys| == |cfg.members|;
    MajoritiesMeet(cfg, Voters(s, c.term, c.node), Support(s, h, t, k));
  }

  /** The log of a later author holds every open entry. */
  lemma AuthorHolds(cfg: Config, s: State, h: History, t: nat, k: nat, t2: nat)
    requires ElectionInv(cfg, s, h) && AuthorsOk(cfg, s, h) && BackOk(s, h) && Open(s, h, t, k)
    requires t2 in h.termLog && t < t2
    ensures Agree(h.termLog[t], h.termLog[t2], k)
  {
    assert AuthorGood(cfg, s, h, t2);
    WinnerHolds(cfg, s, h, t, k, Key(t2, h.author[t2]));
    AgreePrefix(h.termLog[t], h.candLog[Key(t2, h.author[t2])], h.termLog[t2], k);
  }

  /** A leader holds every open entry of its own and of earlier terms. */
  lemma LeaderHolds(cfg: Config, s: State, h: History, t: nat, k: nat, l: NodeId)
    requires CoreInv(cfg, s, h) && BackOk(s, h) && Open(s, h, t, k)
    requires l in s.nodes && s.nodes[l].role == Leader && t <= s.nodes[l].term
    ensures Agree(h.termLog[t], s.nodes[l].log, k)
  {
    if t == s.nodes[l].term {
      LeaderIsAuthor(cfg, s, h, l);
    } else {
      LeaderLog(cfg, s, h, l);
      var c := Key(s.nodes[l].term, l);
      WinnerHolds(cfg, s, h, t, k, c);
      AgreePrefix(h.termLog[t], h.candLog[c], s.nodes[l].log, k);
    }
  }

  // ---------------------------------------------------------------- votes carry open entries over

  lemma TermLogSorted(cfg: Config, s: State, h: History, t: nat)
    requires CandLogsOk(h) && AuthorsOk(cfg, s, h) && t in h.termLog
    ensures Sorted(h.termLog[t], t)
  {
    assert AuthorGood(cfg, s, h, t);
    var cand := h.candLog[Key(t, h.author[t])];
    assert CandLogGood(h.termLog, t, cand);
    forall i | 0 <= i < |cand| ensures h.termLog[t][i] == cand[i] {}
  }

  /** The up-to-date check: a voter that holds a point of term t only elects candidates that hold it,
      provided the logs of the terms in between hold it. */
  lemma UpToDateHolds(termLog: map<nat, Log>, t: nat, k: nat, mine: Log, bound: nat, cand: Log)
    requires t in termLog && 1 <= k <= |termLog[t]| && termLog[t][k - 1].term == t && Sorted(termLog[t], t)
    requires Sorted(mine, bound) && Agree(termLog[t], mine, k)
    requires Canon(termLog, cand) && UpToDate(LastTerm(cand), |cand|, mine)
    requires LastTerm(cand) in termLog && t < LastTerm(cand) ==> Agree(termLog[t], termLog[LastTerm(cand)], k)
    ensures Agree(termLog[t], cand, k)
  {
    AgreeAt(termLog[t], mine, k, k - 1);
    assert LastTerm(mine) >= t;
    var j, t2 := |cand|, LastTerm(cand);
    assert j >= 1;
    assert Agree(cand, termLog[cand[j - 1].term], j);
    if t2 == t {
      AgreeLess(cand, termLog[t], j, k);
    } else {
      if j < k {
        AgreeAt(termLog[t], termLog[t2], k, j - 1);
        AgreeAt(cand, termLog[t2], j, j - 1);
      }
      AgreeLess(cand, termLog[t2], j, k);
      AgreeTrans(termLog[t], termLog[t2], cand, k);
    }
  }

  // ---------------------------------------------------------------- open entries only get fewer

  /** Only nodes that have not left a term yet can newly store entries of it. */
  ghost predicate StoredInTerm(s: State, h: History, h': History) {
    forall t, q :: StoredUpTo(h, t, q) < StoredUpTo(h', t, q) ==> q in s.nodes && s.nodes[q].term <= t
  }

  lemma OpenBefore(s: State, h: History, s': State, h': History, t: nat, k: nat)
    requires Open(s', h', t, k) && Point(h, t, k) && Forward(s, s') && StoredInTerm(s, h, h')
    ensures Open(s, h, t, k)
  {
    forall q | q in Support(s', h', t, k) ensures q in Support(s, h, t, k) {
      assert NodeForward(s.nodes[q], s'.nodes[q]);
      assert StoredUpTo(h, t, q) < StoredUpTo(h', t, q) ==> s.nodes[q].term <= t;
    }
    SubsetSize(Support(s', h', t, k), Support(s, h, t, k));
    assert |s'.nodes| == |s'.nodes.Keys| == |s.nodes.Keys| == |s.nodes|;
  }

  /** A candidacy, or a vote for one, that is new in this step. */
  ghost predicate NewBacking(s: State, h: History, s': State, h': History, v: NodeId, c: Key) {
    Backs(s', v, c) && c in h'.candLog && !(Backs(s, v, c) && c in h.candLog)
  }

  ghost predicate Carries(s: State, h: History, v: NodeId, term: nat, log: Log) {
    forall t: nat, k: nat | Open(s, h, t, k) && StoredUpTo(h, t, v) >= k && t < term :: Agree(h.termLog[t], log, k)
  }

  /** Steps that change no log and store nothing. */
  lemma KeepLocks(s: State, h: History, s': State, h': History)
    requires LockInv(s, h) && Forward(s, s')
    requires h'.termLog == h.termLog && h'.author == h.author && h'.stored == h.stored && Extends(h.candLog, h'.candLog)
    requires forall q | q in s.nodes :: s'.nodes[q].log == s.nodes[q].log
    requires forall v, c | NewBacking(s, h, s', h', v, c) :: Carries(s, h, v, c.term, h'.candLog[c])
    ensures LockInv(s', h')
  {
    hide HoldOk, StoredOk, BackOk, Forward;
    KeepStored(s, h, s', h');
    KeepHold(s, h, s', h');
    KeepBacking(s, h, s', h');
  }

  lemma KeepHold(s: State, h: History, s': State, h': History)
    requires HoldOk(s, h) && Forward(s, s') && h'.termLog == h.termLog && h'.stored == h.stored
    requires forall q | q in s.nodes :: s'.nodes[q].log == s.nodes[q].log
    ensures HoldOk(s', h')
  {
    forall t: nat, k: nat, q | Open(s', h', t, k) && q in s'.nodes && StoredUpTo(h', t, q) >= k
      ensures Agree(h'.termLog[t], s'.nodes[q].log, k)
    {
      OpenBefore(s, h, s', h', t, k);
    }
  }

  lemma KeepStored(s: State, h: History, s': State, h': History)
    requires StoredOk(s, h) && Forward(s, s')
    requires h'.termLog == h.termLog && h'.author == h.author && h'.stored == h.stored
    ensures StoredOk(s', h')
  {
    forall c | c in h'.stored ensures Point(h', c.term, h'.stored[c]) && c.node in s'.nodes && c.term <= s'.nodes[c.node].term {
      assert NodeForward(s.nodes[c.node], s'.nodes[c.node]);
    }
  }

  /** Steps in which open entries are not extended: only the new candidacies and votes matter. */
  lemma KeepBacking(s: State, h: History, s': State, h': History)
    requires BackOk(s, h) && Forward(s, s') && StoredInTerm(s, h, h')
    requires h'.termLog == h.termLog && Extends(h.candLog, h'.candLog)
    requires forall v, c | NewBacking(s, h, s', h', v, c) :: Carries(s, h, v, c.term, h'.candLog[c])
    requires forall t: nat, v, c | Backs(s, v, c) && c in h.candLog && t < c.term :: StoredUpTo(h', t, v) == StoredUpTo(h, t, v)
    requires forall t: nat, v, c | NewBacking(s, h, s', h', v, c) && t < c.term :: StoredUpTo(h', t, v) == StoredUpTo(h, t, v)
    ensures BackOk(s', h')
  {
    forall t: nat, k: nat, v, c | Open(s', h', t, k) && Backs(s', v, c) && StoredUpTo(h', t, v) >= k && c in h'.candLog && t < c.term
      ensures Agree(h'.termLog[t], h'.candLog[c], k)
    {
      OpenBefore(s, h, s', h', t, k);
      if NewBacking(s, h, s', h', v, c) {
        assert Carries(s, h, v, c.term, h'.candLog[c]);
      }
    }
  }

  lemma TimeoutLocks(cfg: Config, s: State, h: History, n: NodeId, s': State, h': History)
    requires CoreInv(cfg, s, h) && LockInv(s, h) && n in s.nodes && Forward(s, s')
    requires s'.nodes == s.nodes[n := BecomeCandidate(s.nodes[n])]
    requires h' == h.(candLog := h.candLog[Key(s.nodes[n].term + 1, n) := s.nodes[n].log])
    ensures LockInv(s', h')
  {
    hide LogInv, PeersOk;
    NodeAt(cfg, s, h, n);
    FreshTerm(cfg, s, h, n);
    forall v, c | NewBacking(s, h, s', h', v, c) ensures Carries(s, h, v, c.term, h'.candLog[c]) {
      assert c == Key(s.nodes[n].term + 1, n);
      assert v == n;
    }
    hide ElectionInv, LockInv;
    KeepLocks(s, h, s', h');
  }

  lemma AskVoteLocks(cfg: Config, s: State, h: History, req: VoteRequest, s': State)
    requires CoreInv(cfg, s, h) && LockInv(s, h) && RequestGood(s, h.candLog, req) && Forward(s, s')
    requires s'.nodes == s.nodes[req.to := HandleVoteRequest(s.nodes[req.to], req)]
    ensures LockInv(s', h)
  {
    hide CoreInv, LockInv;
    forall v, c | NewBacking(s, h, s', h, v, c) ensures Carries(s, h, v, c.term, h.candLog[c]) {
      assert v == req.to && c == Key(req.term, req.from) && Grants(s.nodes[v], req);
      GrantCarries(cfg, s, h, req);
    }
    KeepLocks(s, h, s', h);
  }

  /** A granted vote goes to a candidate that holds every open entry the voter stored. */
  lemma GrantCarries(cfg: Config, s: State, h: History, req: VoteRequest)
    requires CoreInv(cfg, s, h) && LockInv(s, h) && RequestGood(s, h.candLog, req) && Grants(s.nodes[req.to], req)
    ensures Carries(s, h, req.to, req.term, h.candLog[Key(req.term, req.from)])
  {
    var v, c := s.nodes[req.to], Key(req.term, req.from);
    var cand := h.candLog[c];
    hide ElectionInv, PeersOk;
    assert LogGood(h, req.to, v);
    assert CandLogGood(h.termLog, c.term, cand);
    forall t: nat, k: nat | Open(s, h, t, k) && StoredUpTo(h, t, req.to) >= k && t < c.term
      ensures Agree(h.termLog[t], cand, k)
    {
      TermLogSorted(cfg, s, h, t);
      if LastTerm(cand) in h.termLog && t < LastTerm(cand) { AuthorHolds(cfg, s, h, t, k, LastTerm(cand)); }
      UpToDateHolds(h.termLog, t, k, v.log, v.term, cand);
    }
  }

  // ---------------------------------------------------------------- client entries

  lemma PointAfter(h: History, h': History, t: nat, k: nat)
    requires Grows(h.termLog, h'.termLog) && Point(h, t, k)
    ensures Point(h', t, k)
  {
    assert h'.termLog[t][k - 1] == h.termLog[t][k - 1];
  }

  lemma ClientStored(cfg: Config, s: State, h: History, n: NodeId, op: Op, s': State, h': History)
    requires StoredOk(s, h) && Forward(s, s') && n in s.nodes
    requires s'.nodes == s.nodes[n := ClientAppend(s.nodes[n], op)] && Grows(h.termLog, h'.termLog)
    requires h'.author == h.author[s.nodes[n].term := n] && h'.termLog == h.termLog[s.nodes[n].term := s'.nodes[n].log]
    requires h'.stored == h.stored[Key(s.nodes[n].term, n) := |s'.nodes[n].log|]
    ensures StoredOk(s', h')
  {
    hide Grows;
    forall c | c in h'.stored ensures Point(h', c.term, h'.stored[c]) && c.node in s'.nodes && c.term <= s'.nodes[c.node].term {
      if c != Key(s.nodes[n].term, n) {
        PointAfter(h, h', c.term, h.stored[c]);
        assert NodeForward(s.nodes[c.node], s'.nodes[c.node]);
      }
    }
  }

  lemma PointBefore(h: History, h': History, t: nat, k: nat, j: nat)
    requires Grows(h.termLog, h'.termLog) && Point(h', t, k) && Point(h, t, j) && k <= j
    ensures Point(h, t, k)
  {
    assert h'.termLog[t][k - 1] == h.termLog[t][k - 1];
  }

  lemma StoredPoint(s: State, h: History, t: nat, q: NodeId)
    requires StoredOk(s, h) && StoredUpTo(h, t, q) >= 1
    ensures Point(h, t, StoredUpTo(h, t, q)) && q in s.nodes && t <= s.nodes[q].term
  {
    assert Key(t, q) in h.stored;
  }

  lemma ClientHold(s: State, h: History, n: NodeId, op: Op, s': State, h': History)
    requires StoredOk(s, h) && HoldOk(s, h) && Forward(s, s') && n in s.nodes && StoredInTerm(s, h, h')
    requires s'.nodes == s.nodes[n := ClientAppend(s.nodes[n], op)] && Grows(h.termLog, h'.termLog)
    requires h'.termLog == h.termLog[s.nodes[n].term := s'.nodes[n].log]
    requires h'.stored == h.stored[Key(s.nodes[n].term, n) := |s'.nodes[n].log|]
    ensures HoldOk(s', h')
  {
    hide StoredOk;
    forall t: nat, k: nat, q | Open(s', h', t, k) && q in s'.nodes && StoredUpTo(h', t, q) >= k
      ensures Agree(h'.termLog[t], s'.nodes[q].log, k)
    {
      if q != n || t != s.nodes[n].term {
        StoredPoint(s, h, t, q);
        PointBefore(h, h', t, k, StoredUpTo(h, t, q));
        OpenBefore(s, h, s', h', t, k);
        AgreePrefix(s.nodes[q].log, h.termLog[t], h'.termLog[t], k);
        AgreePrefix(h'.termLog[t], s.nodes[q].log, s'.nodes[q].log, k);
      }
    }
  }

  lemma ClientBacking(cfg: Config, s: State, h: History, n: NodeId, op: Op, s': State, h': History)
    requires ElectionInv(cfg, s, h) && BackOk(s, h) && Forward(s, s') && n in s.nodes && StoredInTerm(s, h, h')
    requires s'.nodes == s.nodes[n := ClientAppend(s.nodes[n], op)] && Grows(h.termLog, h'.termLog)
    requires h'.candLog == h.candLog
    requires h'.stored == h.stored[Key(s.nodes[n].term, n) := |s'.nodes[n].log|]
    requires StoredOk(s, h)
    ensures BackOk(s', h')
  {
    hide ElectionInv, StoredOk, StoredInTerm, Forward;
    forall t: nat, k: nat, v, c | Open(s', h', t, k) && Backs(s', v, c) && StoredUpTo(h', t, v) >= k && c in h'.candLog && t < c.term
      ensures Agree(h'.termLog[t], h'.candLog[c], k)
    {
      assert Backs(s, v, c);
      BackersTerm(cfg, s, h, v, c);
      assert StoredUpTo(h', t, v) == StoredUpTo(h, t, v);
      StoredPoint(s, h, t, v);
      PointBefore(h, h', t, k, StoredUpTo(h, t, v));
      OpenBefore(s, h, s', h', t, k);
      AgreePrefix(h.candLog[c], h.termLog[t], h'.termLog[t], k);
    }
  }

  // ---------------------------------------------------------------- exchanges

  /** The receiver stored something of the sender's term. */
  ghost predicate Stores(l: Node, f: Node, m: AppendRequest, f': Node) {
    f.term <= l.term && Fits(f.log, m) && LastTerm(f'.log) == l.term
  }

  ghost predicate StoredBy(s: State, h: History, l: NodeId, p: NodeId, m: AppendRequest, s': State, h': History)
    requires l in s.nodes && p in s.nodes && p in s'.nodes
  {
    var t := s.nodes[l].term;
    h'.stored == if Stores(s.nodes[l], s.nodes[p], m, s'.nodes[p])
                 then h.stored[Key(t, p) := Max(|s'.nodes[p].log|, StoredUpTo(h, t, p))] else h.stored
  }

  /** What is stored is a prefix of the author's log. */
  lemma StoresPoint(cfg: Config, s: State, h: History, l: NodeId, f': Node, e: nat)
    requires CoreInv(cfg, s, h) && l in s.nodes && s.nodes[l].role == Leader && s.nodes[l].term >= 1
    requires e <= |s.nodes[l].log| && f'.log == s.nodes[l].log[..e] && LastTerm(f'.log) == s.nodes[l].term
    ensures Point(h, s.nodes[l].term, |f'.log|) && h.termLog[s.nodes[l].term] == s.nodes[l].log
  {
    LogAt(cfg, s, h, l);
    hide ElectionInv, PeersOk;
    assert Agree(s.nodes[l].log, h.termLog[s.nodes[l].log[e - 1].term], e);
    LeaderIsAuthor(cfg, s, h, l);
  }

  lemma LeaderTerm(cfg: Config, s: State, h: History, l: NodeId)
    requires ElectionInv(cfg, s, h) && l in s.nodes && s.nodes[l].role == Leader
    ensures s.nodes[l].term >= 1
  {
    assert NodeGood(cfg, h.candLog, l, s.nodes[l]);
  }

  lemma ExchangeStoredOk(s: State, h: History, l: NodeId, p: NodeId, m: AppendRequest, s': State, h': History)
    requires StoredOk(s, h) && Forward(s, s') && l in s.nodes && p in s.nodes && StoredBy(s, h, l, p, m, s', h')
    requires Stores(s.nodes[l], s.nodes[p], m, s'.nodes[p]) ==>
      Point(h, s.nodes[l].term, |s'.nodes[p].log|) && s'.nodes[p].term == s.nodes[l].term
    requires h' == h.(stored := h'.stored)
    ensures StoredOk(s', h')
  {
    hide Stores, StoredUpTo;
    StoredCovers(h);
    var at := Key(s.nodes[l].term, p);
    forall c | c in h'.stored ensures Point(h', c.term, h'.stored[c]) && c.node in s'.nodes && c.term <= s'.nodes[c.node].term {
      if c in h.stored { assert NodeForward(s.nodes[c.node], s'.nodes[c.node]); }
    }
    StoredStays(s, h, at, h');
  }

  lemma StoredCovers(h: History)
    ensures forall t, n :: StoredUpTo(h, t, n) == if Key(t, n) in h.stored then h.stored[Key(t, n)] else 0
  {
  }

  lemma StoredStays(s: State, h: History, at: Key, h': History)
    requires StoredOk(s, h) && h' == h.(stored := h'.stored)
    requires h'.stored == h.stored || (at in h'.stored && h'.stored == h.stored[at := h'.stored[at]] && Point(h, at.term, h'.stored[at])
      && StoredUpTo(h, at.term, at.node) <= h'.stored[at])
    ensures forall t | t in h'.author :: t in h'.termLog && StoredUpTo(h', t, h'.author[t]) == |h'.termLog[t]|
  {
  }

  /** The receiver keeps every open entry that it stored in the entry's own term. */
  lemma ReceiverHolds(cfg: Config, s: State, h: History, l: NodeId, p: NodeId, m: AppendRequest, f': Node, t: nat, k: nat)
    requires CoreInv(cfg, s, h) && LockInv(s, h) && Open(s, h, t, k)
    requires l in s.nodes && s.nodes[l].role == Leader && p in s.nodes && p in s.nodes[l].next
    requires EndsGood(cfg.limits, h, s.nodes[l], p, s.nodes[p], m, f') && s.nodes[p].term <= s.nodes[l].term
    requires StoredUpTo(h, t, p) >= k
    ensures Agree(h.termLog[t], f'.log, k)
  {
    hide CoreInv;
    StoredPoint(s, h, t, p);
    LeaderHolds(cfg, s, h, t, k, l);
    var P, L, F := h.termLog[t], s.nodes[l].log, s.nodes[p].log;
    assert Agree(P, F, k);
    hide LockInv;
    AgreeTrans(P, F, P, k);
    AgreeTrans(F, P, L, k);
    assert Agree(f'.log, L, k);
    AgreeTrans(P, L, P, k);
    AgreeTrans(f'.log, L, P, k);
    AgreeTrans(P, f'.log, P, k);
  }

  lemma ExchangeHold(cfg: Config, s: State, h: History, l: NodeId, p: NodeId, m: AppendRequest, s': State, h': History)
    requires CoreInv(cfg, s, h) && LockInv(s, h) && Forward(s, s') && StoredInTerm(s, h, h')
    requires l in s.nodes && s.nodes[l].role == Leader && p in s.nodes && p in s.nodes[l].next && l != p
    requires forall q | q in s.nodes && q != p :: s'.nodes[q].log == s.nodes[q].log
    requires EndsGood(cfg.limits, h, s.nodes[l], p, s.nodes[p], m, s'.nodes[p])
    requires Received(s.nodes[l], m, s.nodes[p], s'.nodes[p])
    requires StoredBy(s, h, l, p, m, s', h') && h' == h.(stored := h'.stored)
    requires Stores(s.nodes[l], s.nodes[p], m, s'.nodes[p]) ==> h.termLog[s.nodes[l].term] == s.nodes[l].log
    requires Stores(s.nodes[l], s.nodes[p], m, s'.nodes[p]) ==> s.nodes[l].term in h.termLog
    ensures HoldOk(s', h')
  {
    hide CoreInv, EndsGood, Stores, Received, StoredBy, StoredUpTo;
    forall t: nat, k: nat, q | Open(s', h', t, k) && q in s'.nodes && StoredUpTo(h', t, q) >= k
      ensures Agree(h'.termLog[t], s'.nodes[q].log, k)
    {
      OpenBefore(s, h, s', h', t, k);
      if q == p {
        ReceiverStillHolds(cfg, s, h, l, p, m, s', h', t, k);
      } else {
        OthersStored(s, h, l, p, m, s', h', t, q);
        StillHolds(s, h, t, k, q);
      }
    }
  }

  lemma OthersStored(s: State, h: History, l: NodeId, p: NodeId, m: AppendRequest, s': State, h': History, t: nat, q: NodeId)
    requires l in s.nodes && p in s.nodes && p in s'.nodes && q != p && StoredBy(s, h, l, p, m, s', h')
    ensures StoredUpTo(h', t, q) == StoredUpTo(h, t, q)
  {
  }

  lemma StillHolds(s: State, h: History, t: nat, k: nat, q: NodeId)
    requires LockInv(s, h) && Open(s, h, t, k) && q in s.nodes && StoredUpTo(h, t, q) >= k
    ensures Agree(h.termLog[t], s.nodes[q].log, k)
  {
  }

  lemma ReceiverStillHolds(cfg: Config, s: State, h: History, l: NodeId, p: NodeId, m: AppendRequest, s': State, h': History, t: nat, k: nat)
    requires CoreInv(cfg, s, h) && LockInv(s, h) && Open(s, h, t, k)
    requires l in s.nodes && s.nodes[l].role == Leader && p in s.nodes && p in s.nodes[l].next && p in s'.nodes
    requires EndsGood(cfg.limits, h, s.nodes[l], p, s.nodes[p], m, s'.nodes[p])
    requires Received(s.nodes[l], m, s.nodes[p], s'.nodes[p])
    requires StoredBy(s, h, l, p, m, s', h') && StoredUpTo(h', t, p) >= k
    requires Stores(s.nodes[l], s.nodes[p], m, s'.nodes[p]) ==> s.nodes[l].term in h.termLog && h.termLog[s.nodes[l].term] == s.nodes[l].log
    ensures Agree(h.termLog[t], s'.nodes[p].log, k)
  {
    hide CoreInv, EndsGood;
    if StoredUpTo(h, t, p) >= k {
      if s.nodes[p].term <= s.nodes[l].term {
        ReceiverHolds(cfg, s, h, l, p, m, s'.nodes[p], t, k);
      }
    } else {
      FreshlyStored(cfg.limits, h, s.nodes[l], p, s.nodes[p], m, s'.nodes[p], k);
    }
  }

  lemma FreshlyStored(limits: Limits, h: History, l: Node, p: NodeId, f: Node, m: AppendRequest, f': Node, k: nat)
    requires p in l.next && EndsGood(limits, h, l, p, f, m, f') && Stores(l, f, m, f') && k <= |f'.log|
    ensures Agree(l.log, f'.log, k)
  {
    assert l.log[..k] == f'.log[..k];
  }

  lemma ExchangeBacking(cfg: Config, s: State, h: History, l: NodeId, p: NodeId, m: AppendRequest, s': State, h': History)
    requires ElectionInv(cfg, s, h) && BackOk(s, h) && Forward(s, s') && StoredInTerm(s, h, h')
    requires l in s.nodes && p in s.nodes && StoredBy(s, h, l, p, m, s', h') && h' == h.(stored := h'.stored)
    requires forall q | q in s.nodes :: s'.nodes[q].voteFor == s.nodes[q].voteFor
    ensures BackOk(s', h')
  {
    forall t: nat, v, c | Backs(s, v, c) && c in h.candLog && t < c.term ensures StoredUpTo(h', t, v) == StoredUpTo(h, t, v) {
      BackersTerm(cfg, s, h, v, c);
    }
    hide ElectionInv, BackOk;
    assert forall v, c :: !NewBacking(s, h, s', h', v, c);
    KeepBacking(s, h, s', h');
  }

  // ---------------------------------------------------------------- every step

  ghost predicate SafeInv(cfg: Config, s: State, h: History) {
    CoreInv(cfg, s, h) && LockInv(s, h)
  }

  lemma InitSafe(cfg: Config)
    ensures SafeInv(cfg, Init(cfg), NO_HISTORY)
  {
    InitCore(cfg);
    InitLocks(cfg);
  }

  /** Recorded logs and stored prefixes only grow, and only in terms that have not been left. */
  ghost predicate HistoryGrows(s: State, h: History, h': History) {
    Extends(h.candLog, h'.candLog) && Grows(h.termLog, h'.termLog) && StoredGrows(h, h') && StoredInTerm(s, h, h')
  }

  lemma TimeoutStep(cfg: Config, s: State, h: History, n: NodeId, s': State, h': History)
    requires SafeInv(cfg, s, h) && Enabled(cfg, s, Timeout(n))
    requires s' == Do(cfg, s, Timeout(n)) && h' == Record(cfg, s, h, Timeout(n))
    ensures SafeInv(cfg, s', h') && Forward(s, s') && HistoryGrows(s, h, h')
  {
    hide ElectionInv, LogInv, PeersOk, LockInv, NodesOk, CandOk, Forward;
    StepElection(cfg, s, h, Timeout(n));
    TimeoutCore(cfg, s, h, n);
    TimeoutLocks(cfg, s, h, n, s', h');
    NodeAt(cfg, s, h, n);
    FreshTerm(cfg, s, h, n);
  }

  lemma AskVoteStep(cfg: Config, s: State, h: History, req: VoteRequest, s': State)
    requires SafeInv(cfg, s, h) && Enabled(cfg, s, AskVote(req)) && s' == Do(cfg, s, AskVote(req))
    ensures SafeInv(cfg, s', h) && Forward(s, s')
  {
    hide ElectionInv, LogInv, PeersOk, LockInv;
    StepElection(cfg, s, h, AskVote(req));
    AskVoteCore(cfg, s, h, req);
    RequestAt(cfg, s, h, req);
    AskVoteLocks(cfg, s, h, req, s');
  }

  lemma TakeReplyStep(cfg: Config, s: State, h: History, y: VoteReply, s': State)
    requires SafeInv(cfg, s, h) && Enabled(cfg, s, TakeReply(y)) && TimelyStep(s, TakeReply(y)) && s' == Do(cfg, s, TakeReply(y))
    ensures SafeInv(cfg, s', h) && Forward(s, s')
  {
    hide ElectionInv, LogInv, PeersOk, LockInv;
    StepElection(cfg, s, h, TakeReply(y));
    TakeReplyCore(cfg, s, h, y);
    LogAt(cfg, s, h, y.candidate);
    TakeReplyVotes(|cfg.members|, y, s.nodes[y.candidate]);
    assert forall v, c :: !NewBacking(s, h, s', h, v, c);
    KeepLocks(s, h, s', h);
  }

  lemma TakeReplyVotes(size: nat, y: VoteReply, n: Node)
    ensures HandleVoteReply(n, y.candidate, size, y).voteFor == n.voteFor
    ensures HandleVoteReply(n, y.candidate, size, y).log == n.log
    ensures HandleVoteReply(n, y.candidate, size, y).commit == n.commit
    ensures HandleVoteReply(n, y.candidate, size, y).applied == n.applied
  {
  }

  lemma ApplyStep(cfg: Config, s: State, h: History, n: NodeId, s': State)
    requires SafeInv(cfg, s, h) && Enabled(cfg, s, Apply(n)) && s' == Do(cfg, s, Apply(n))
    ensures SafeInv(cfg, s', h) && Forward(s, s')
  {
    hide ElectionInv, LogInv, PeersOk, LockInv;
    StepElection(cfg, s, h, Apply(n));
    ApplyCore(cfg, s, h, n);
    assert forall v, c :: !NewBacking(s, h, s', h, v, c);
    KeepLocks(s, h, s', h);
  }

  lemma ClientStep(cfg: Config, s: State, h: History, n: NodeId, op: Op, s': State, h': History)
    requires SafeInv(cfg, s, h) && Enabled(cfg, s, Client(n, op))
    requires s' == Do(cfg, s, Client(n, op)) && h' == Record(cfg, s, h, Client(n, op))
    ensures SafeInv(cfg, s', h') && Forward(s, s') && HistoryGrows(s, h, h') && s.nodes[n].role == Leader
  {
    hide ElectionInv, LogInv, PeersOk, StoredOk, HoldOk, BackOk, Forward, StoredInTerm, StoredGrows;
    ClientLeads(cfg, s, h, n);
    StepElection(cfg, s, h, Client(n, op));
    ClientGrows(cfg, s, h, n, h');
    ClientCore(cfg, s, h, n, op);
    ClientLocks(cfg, s, h, n, op, s', h');
  }

  /** Only a node that leads believes itself the leader. */
  lemma ClientLeads(cfg: Config, s: State, h: History, n: NodeId)
    requires ElectionInv(cfg, s, h) && n in s.nodes && s.nodes[n].leader == Some(n)
    ensures s.nodes[n].role == Leader
  {
    assert NodeGood(cfg, h.candLog, n, s.nodes[n]);
  }

  lemma ClientLocks(cfg: Config, s: State, h: History, n: NodeId, op: Op, s': State, h': History)
    requires ElectionInv(cfg, s, h) && LockInv(s, h) && Forward(s, s') && n in s.nodes && StoredInTerm(s, h, h')
    requires s'.nodes == s.nodes[n := ClientAppend(s.nodes[n], op)] && Grows(h.termLog, h'.termLog)
    requires h'.author == h.author[s.nodes[n].term := n] && h'.termLog == h.termLog[s.nodes[n].term := s'.nodes[n].log]
    requires h'.stored == h.stored[Key(s.nodes[n].term, n) := |s'.nodes[n].log|] && h'.candLog == h.candLog
    ensures LockInv(s', h')
  {
    hide ElectionInv, StoredOk, HoldOk, BackOk, Forward, StoredInTerm, Grows;
    ClientStored(cfg, s, h, n, op, s', h');
    ClientHold(s, h, n, op, s', h');
    ClientBacking(cfg, s, h, n, op, s', h');
  }

  lemma ClientGrows(cfg: Config, s: State, h: History, n: NodeId, h': History)
    requires CoreInv(cfg, s, h) && StoredOk(s, h) && n in s.nodes && s.nodes[n].role == Leader
    requires h'.stored == h.stored[Key(s.nodes[n].term, n) := |s.nodes[n].log| + 1]
    ensures StoredGrows(h, h') && StoredInTerm(s, h, h')
  {
    hide CoreInv, StoredOk;
    LeaderStored(cfg, s, h, n, n);
  }

  /** Nobody has stored more of a leader's term than the leader holds. */
  lemma LeaderStored(cfg: Config, s: State, h: History, l: NodeId, q: NodeId)
    requires CoreInv(cfg, s, h) && StoredOk(s, h) && l in s.nodes && s.nodes[l].role == Leader
    ensures StoredUpTo(h, s.nodes[l].term, q) <= |s.nodes[l].log|
  {
    hide ElectionInv, LogInv, PeersOk, StoredOk;
    if StoredUpTo(h, s.nodes[l].term, q) >= 1 {
      StoredPoint(s, h, s.nodes[l].term, q);
      LeaderOwns(cfg, s, h, l);
    }
  }

  lemma LeaderOwns(cfg: Config, s: State, h: History, l: NodeId)
    requires ElectionInv(cfg, s, h) && LogInv(cfg, s, h)
    requires l in s.nodes && s.nodes[l].role == Leader && s.nodes[l].term in h.termLog
    ensures s.nodes[l].term in h.author && h.author[s.nodes[l].term] == l && h.termLog[s.nodes[l].term] == s.nodes[l].log
  {
    hide ElectionInv;
    LeaderIsAuthor(cfg, s, h, l);
  }

  lemma ExchangeStep(cfg: Config, s: State, h: History, l: NodeId, p: NodeId, lost: bool, s': State, h': History)
    requires SafeInv(cfg, s, h) && Enabled(cfg, s, Exchange(l, p, lost))
    requires s' == Do(cfg, s, Exchange(l, p, lost)) && h' == Record(cfg, s, h, Exchange(l, p, lost))
    ensures SafeInv(cfg, s', h') && Forward(s, s') && HistoryGrows(s, h, h')
    ensures IsExchange(cfg, s, h, l, p, lost, MessageTo(cfg, s, l, p), s', h')
    ensures EndsGood(cfg.limits, h, s.nodes[l], p, s.nodes[p], MessageTo(cfg, s, l, p), s'.nodes[p])
  {
    hide ElectionInv, LogInv, PeersOk, LockInv, EndsGood, IsExchange, StoredBy, Forward, StoredInTerm, StoredGrows;
    var m := MessageTo(cfg, s, l, p);
    StepElection(cfg, s, h, Exchange(l, p, lost));
    NodeAt(cfg, s, h, l);
    ExchangeFacts(cfg, s, h, l, p, lost, m, s', h');
    hide Do, Record;
    ExchangeCore(cfg, s, h, l, p, lost, m, s', h');
    ExchangeLocks(cfg, s, h, l, p, lost, m, s', h');
  }

  lemma ExchangeFacts(cfg: Config, s: State, h: History, l: NodeId, p: NodeId, lost: bool, m: AppendRequest, s': State, h': History)
    requires Enabled(cfg, s, Exchange(l, p, lost)) && l != p && m == MessageTo(cfg, s, l, p)
    requires s' == Do(cfg, s, Exchange(l, p, lost)) && h' == Record(cfg, s, h, Exchange(l, p, lost))
    ensures IsExchange(cfg, s, h, l, p, lost, m, s', h') && StoredBy(s, h, l, p, m, s', h')
    ensures StoredInTerm(s, h, h') && HistoryGrows(s, h, h')
  {
    AcceptedLog(s.nodes[p], m);
    assert StoredBy(s, h, l, p, m, s', h');
    ExchangeGrows(s, h, l, p, m, s', h');
  }

  lemma AcceptedLog(n: Node, m: AppendRequest)
    ensures n.term <= m.term ==> HandleAppend(n, m).log == LogAfter(n.log, m)
  {
  }

  lemma ExchangeGrows(s: State, h: History, l: NodeId, p: NodeId, m: AppendRequest, s': State, h': History)
    requires l in s.nodes && p in s.nodes && p in s'.nodes && StoredBy(s, h, l, p, m, s', h')
    ensures StoredGrows(h, h') && StoredInTerm(s, h, h')
    ensures Stores(s.nodes[l], s.nodes[p], m, s'.nodes[p]) ==> |s'.nodes[p].log| <= StoredUpTo(h', s.nodes[l].term, p)
  {
  }

  lemma ExchangeLocks(cfg: Config, s: State, h: History, l: NodeId, p: NodeId, lost: bool, m: AppendRequest, s': State, h': History)
    requires CoreInv(cfg, s, h) && LockInv(s, h) && IsExchange(cfg, s, h, l, p, lost, m, s', h')
    requires Forward(s, s') && StoredInTerm(s, h, h') && StoredBy(s, h, l, p, m, s', h')
    ensures LockInv(s', h')
  {
    hide ElectionInv, LogInv, PeersOk, StoredOk, HoldOk, BackOk;
    ExchangeEnds(cfg, s, h, l, p, lost, m, s', h');
    LeaderTerm(cfg, s, h, l);
    if Stores(s.nodes[l], s.nodes[p], m, s'.nodes[p]) {
      StoresPoint(cfg, s, h, l, s'.nodes[p], m.prevIndex + |m.entries|);
    }
    ExchangeStoredOk(s, h, l, p, m, s', h');
    ExchangeHold(cfg, s, h, l, p, m, s', h');
    ExchangeVotes(s.nodes[l], p, s.nodes[p], m, AppendReplyOf(s.nodes[p], m));
    ExchangeBacking(cfg, s, h, l, p, m, s', h');
  }

  lemma ExchangeVotes(l: Node, p: NodeId, f: Node, m: AppendRequest, r: AppendReply)
    requires p in l.next
    ensures HandleAppend(f, m).voteFor == f.voteFor
    ensures HandleAppendReply(l, p, m, r).voteFor == l.voteFor
  {
  }

  /** Every step of a run with timely replies keeps all invariants. */
  lemma StepSafe(cfg: Config, s: State, h: History, step: Step)
    requires SafeInv(cfg, s, h) && Enabled(cfg, s, step) && TimelyStep(s, step)
    ensures SafeInv(cfg, Do(cfg, s, step), Record(cfg, s, h, step)) && Forward(s, Do(cfg, s, step))
    ensures HistoryGrows(s, h, Record(cfg, s, h, step))
  {
    hide SafeInv;
    var s', h' := Do(cfg, s, step), Record(cfg, s, h, step);
    match step {
      case Timeout(n) => TimeoutStep(cfg, s, h, n, s', h');
      case AskVote(req) => AskVoteStep(cfg, s, h, req, s');
      case TakeReply(y) => TakeReplyStep(cfg, s, h, y, s');
      case Client(n, op) => ClientStep(cfg, s, h, n, op, s', h');
      case Exchange(l, p, lost) => ExchangeStep(cfg, s, h, l, p, lost, s', h');
      case Apply(n) => ApplyStep(cfg, s, h, n, s');
    }
  }
}
