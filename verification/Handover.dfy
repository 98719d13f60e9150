/** Two leaders of one term.  A leader has not recorded a vote of its own, so it may still grant its
    term to another candidate.  That is the only way to a second leader, and the numbers allow it
    exactly in clusters with an odd number of members, three or more. */
module Handover {
  import opened Types
  import opened Protocol
  import opened Cluster
  import opened Elections
  import opened Logs
  import opened Replication
  import opened Steps
  import opened Locks
  import opened Commits
  import opened Safety
  import opened Traces
  import opened Moves

  ghost predicate LeadsIn(s: State, n: NodeId, t: nat) {
    n in s.nodes && s.nodes[n].role == Leader && s.nodes[n].term == t
  }

  /** Only the earlier leader can have a part in both elections. */
  lemma SharedVoter(cfg: Config, s: State, h: History, t: nat, l: NodeId, m: NodeId, v: NodeId)
    requires ElectionInv(cfg, s, h) && l in s.nodes && LeadsIn(s, m, t) && l != m
    requires v in Voters(s, t, l) && v in Voters(s, t, m)
    ensures v == l && VotedFor(s.nodes[l], t, m)
  {
    NodeAt(cfg, s, h, m);
  }

  /** The voters of both leaders, once the second one leads. */
  lemma BothMajorities(cfg: Config, states: seq<State>, steps: seq<Step>, i: nat, j: nat, l: NodeId, m: NodeId, t: nat)
    requires TimelyRun(cfg, states, steps) && i <= j <= |steps| && LeadsIn(states[i], l, t) && LeadsIn(states[j], m, t)
    ensures l in states[j].nodes && ElectionInv(cfg, states[j], HistoryAt(cfg, states, steps, j))
    ensures Majority(cfg, Voters(states[j], t, l)) && Majority(cfg, Voters(states[j], t, m))
  {
    hide ElectionInv, LogInv, PeersOk, LockInv, Majority, Do, Enabled;
    var hi, hj := HistoryAt(cfg, states, steps, i), HistoryAt(cfg, states, steps, j);
    RunSafe(cfg, states, steps, i);
    RunSafe(cfg, states, steps, j);
    RunLater(cfg, states, steps, i, j);
    NodeAt(cfg, states[i], hi, l);
    NodeAt(cfg, states[j], hj, m);
    LeaderMajority(cfg, states[i], hi, l);
    LeaderMajority(cfg, states[j], hj, m);
    ForwardMajority(cfg, states[i], states[j], t, l);
  }

  /** A second leader of a term has been granted the term by the first. */
  lemma SecondLeaderWasGranted(cfg: Config, states: seq<State>, steps: seq<Step>, i: nat, j: nat, l: NodeId, m: NodeId, t: nat)
    requires TimelyRun(cfg, states, steps) && i <= j <= |steps| && LeadsIn(states[i], l, t) && LeadsIn(states[j], m, t) && l != m
    ensures l in states[j].nodes && VotedFor(states[j].nodes[l], t, m)
  {
    hide ElectionInv, Do, Enabled, TimelyStep, Init;
    BothMajorities(cfg, states, steps, i, j, l, m, t);
    MajoritiesMeet(cfg, Voters(states[j], t, l), Voters(states[j], t, m));
    var v :| v in Voters(states[j], t, l) && v in Voters(states[j], t, m);
    SharedVoter(cfg, states[j], HistoryAt(cfg, states, steps, j), t, l, m, v);
  }

  /** Two majorities of an even cluster share more than one member. */
  lemma EvenHasOneLeader(cfg: Config, states: seq<State>, steps: seq<Step>, i: nat, j: nat, l: NodeId, m: NodeId, t: nat)
    requires TimelyRun(cfg, states, steps) && i <= j <= |steps| && LeadsIn(states[i], l, t) && LeadsIn(states[j], m, t)
    requires |cfg.members| % 2 == 0
    ensures l == m
  {
    hide ElectionInv, Do, Enabled, TimelyStep, Init;
    BothMajorities(cfg, states, steps, i, j, l, m, t);
    var a, b := Voters(states[j], t, l), Voters(states[j], t, m);
    assert |a + b| == |a| + |b| - |a * b|;
    SubsetSize(a + b, cfg.members);
    if l != m {
      forall v | v in a * b ensures v in {l} { SharedVoter(cfg, states[j], HistoryAt(cfg, states, steps, j), t, l, m, v); }
      SubsetSize(a * b, {l});
    }
  }

  // ---------------------------------------------------------------- the run of an odd cluster

  datatype Parts = Parts(a: NodeId, c: NodeId, first: set<NodeId>, second: set<NodeId>)

  /** Two candidates; the supporters of the first are one more than those of the second. */
  ghost predicate PartsOk(cfg: Config, k: Parts) {
    && k.a != k.c && k.a !in k.first + k.second && k.c !in k.first + k.second && k.first !! k.second
    && cfg.members == k.first + k.second + {k.a, k.c}
    && |k.first| == |k.second| + 1 && |cfg.members| == 2 * |k.first| + 1
  }

  lemma {:induction false} Take(s: set<NodeId>, n: nat) returns (part: set<NodeId>)
    requires n <= |s|
    ensures part <= s && |part| == n
  {
    if n == 0 {
      part := {};
    } else {
      var rest := Take(s, n - 1);
      assert |s - rest| == |s| - |rest|;
      var x :| x in s - rest;
      part := rest + {x};
    }
  }

  lemma PickParts(cfg: Config) returns (k: Parts)
    requires |cfg.members| % 2 == 1 && |cfg.members| >= 3
    ensures PartsOk(cfg, k)
  {
    var a :| a in cfg.members;
    assert |cfg.members - {a}| == |cfg.members| - 1;
    var c :| c in cfg.members - {a};
    var others := cfg.members - {a} - {c};
    assert |others| == |cfg.members| - 2;
    var first := Take(others, |cfg.members| / 2);
    k := Parts(a, c, first, others - first);
    assert |others - first| == |others| - |first|;
    assert cfg.members == first + (others - first) + {a, c};
  }

  ghost predicate Untouched(s: State, group: set<NodeId>) {
    forall v | v in group :: v in s.nodes && s.nodes[v].term == 0 && s.nodes[v].log == []
  }

  ghost predicate AllAsked(s: State, c: NodeId, group: set<NodeId>) {
    forall v | v in group :: VoteRequest(c, v, 1, 0, 0) in s.requests
  }

  /** a leads, c still stands, and c's requests to a and to its supporters are under way. */
  ghost predicate HalfWay(s: State, k: Parts) {
    && Stands(s, k.c) && LeadsIn(s, k.a, 1) && s.nodes[k.a].log == [] && s.nodes[k.a].voteFor == map[]
    && Untouched(s, k.second) && AllAsked(s, k.c, k.second + {k.a})
  }

  /** c stands and has asked everyone it will need; nobody else has moved. */
  ghost predicate SecondStands(s: State, k: Parts) {
    && Stands(s, k.c) && Untouched(s, k.first + k.second + {k.a}) && AllAsked(s, k.c, k.second + {k.a})
    && s.nodes[k.a].role == Follower && s.nodes[k.a].voteFor == map[]
  }

  lemma SecondFirst(cfg: Config, k: Parts) returns (tr: Trace)
    requires PartsOk(cfg, k)
    ensures Good(cfg, tr) && SecondStands(Now(tr), k)
  {
    hide Good, Now, Fed, Quietly, NothingFed;
    var tr0 := StartFresh(cfg);
    IsGood(cfg, tr0);
    tr := MoveTimeout(cfg, tr0, k.c);
    hide SecondStands;
    SecondIsUp(cfg, Now(tr0), Now(tr), k);
  }

  lemma SecondIsUp(cfg: Config, s: State, s': State, k: Parts)
    requires PartsOk(cfg, k) && s.nodes.Keys == cfg.members && (forall n | n in s.nodes :: Fresh(s, n)) && Only(s, s', {k.c})
    requires s'.nodes[k.c] == BecomeCandidate(s.nodes[k.c])
    requires forall p | p in cfg.members && p != k.c :: VoteRequestOf(s'.nodes[k.c], k.c, p) in s'.requests
    ensures SecondStands(s', k)
  {
    assert k.c in s.nodes && k.a in s.nodes && k.a != k.c;
    assert Fresh(s, k.c) && Fresh(s, k.a) && s'.nodes[k.a] == s.nodes[k.a];
    hide Untouched, AllAsked, Fresh, PartsOk;
    StillUntouched(s, s', cfg.members - {k.c}, k.c);
    CandidateAsked(s', k.c, cfg.members - {k.c});
    AmongAll(cfg, s', k);
  }

  lemma AmongAll(cfg: Config, s: State, k: Parts)
    requires PartsOk(cfg, k) && Untouched(s, cfg.members - {k.c}) && AllAsked(s, k.c, cfg.members - {k.c})
    ensures Untouched(s, k.first + k.second + {k.a}) && AllAsked(s, k.c, k.second + {k.a})
  {
  }

  lemma StillUntouched(s: State, s': State, group: set<NodeId>, c: NodeId)
    requires (forall n | n in s.nodes :: Fresh(s, n)) && Only(s, s', {c}) && group <= s.nodes.Keys && c !in group
    ensures Untouched(s', group)
  {
    forall v | v in group ensures v in s'.nodes && s'.nodes[v].term == 0 && s'.nodes[v].log == [] {
      assert Fresh(s, v) && s'.nodes[v] == s.nodes[v];
    }
  }

  lemma CandidateAsked(s: State, c: NodeId, group: set<NodeId>)
    requires c in s.nodes && s.nodes[c].term == 1 && s.nodes[c].log == []
    requires forall p | p in group :: VoteRequestOf(s.nodes[c], c, p) in s.requests
    ensures AllAsked(s, c, group)
  {
    forall v | v in group ensures VoteRequest(c, v, 1, 0, 0) in s.requests {
      assert VoteRequestOf(s.nodes[c], c, v) == VoteRequest(c, v, 1, 0, 0);
    }
  }

  lemma FirstElected(cfg: Config, k: Parts) returns (tr: Trace)
    requires PartsOk(cfg, k)
    ensures Good(cfg, tr) && HalfWay(Now(tr), k)
  {
    hide Good, Now, Fed, Quietly, Won;
    var tr1 := SecondFirst(cfg, k);
    FirstIsReady(cfg, Now(tr1), k);
    hide SecondStands, Willing, HalfWay;
    tr := Elect(cfg, tr1, k.a, k.first);
    FirstWon(cfg, Now(tr1), Now(tr), k);
  }

  lemma FirstIsReady(cfg: Config, s: State, k: Parts)
    requires PartsOk(cfg, k) && SecondStands(s, k)
    ensures k.a in cfg.members && k.first <= cfg.members - {k.a} && 1 + |k.first| > |cfg.members| / 2 >= 1
    ensures k.a in s.nodes && s.nodes[k.a].role != Leader && Willing(s, k.first, BecomeCandidate(s.nodes[k.a]))
  {
  }

  lemma FirstWon(cfg: Config, s: State, s': State, k: Parts)
    requires PartsOk(cfg, k) && k.a in s.nodes && SecondStands(s, k)
    requires Won(s.(nodes := s.nodes[k.a := BecomeCandidate(s.nodes[k.a])]), s', k.a, k.first)
    ensures HalfWay(s', k)
  {
    var s1 := s.(nodes := s.nodes[k.a := BecomeCandidate(s.nodes[k.a])]);
    forall v | v in k.second + {k.c} ensures v in s'.nodes && s'.nodes[v] == s.nodes[v] {
      assert v in s1.nodes && s1.nodes[v] == s.nodes[v];
    }
    forall v | v in k.second + {k.a} ensures VoteRequest(k.c, v, 1, 0, 0) in s'.requests {
      assert VoteRequest(k.c, v, 1, 0, 0) in s1.requests;
    }
  }

  /** c has the vote of the leader a, which is no longer leader. */
  lemma LeaderGrants(cfg: Config, tr: Trace, k: Parts) returns (tr': Trace)
    requires PartsOk(cfg, k) && Good(cfg, tr) && HalfWay(Now(tr), k)
    ensures Good(cfg, tr') && Quietly(cfg, tr, tr') && Untouched(Now(tr'), k.second) && AllAsked(Now(tr'), k.c, k.second)
    ensures k.c in Now(tr').nodes && Now(tr').nodes[k.c].term == 1 && Now(tr').nodes[k.c].log == []
    ensures if |cfg.members| == 3 then Now(tr').nodes[k.c].role == Leader
            else Now(tr').nodes[k.c].role == Candidate && Now(tr').nodes[k.c].voteQuorum == 2
  {
    hide Good, Fed, Quietly, Now;
    var ask := VoteRequest(k.c, k.a, 1, 0, 0);
    var tr1 := MoveAsk(cfg, tr, ask);
    assert Grants(Now(tr).nodes[k.a], ask);
    tr' := MoveReply(cfg, tr1, VoteReply(k.a, k.c, 1, 1, true));
    QuietlyTrans(cfg, tr, tr1, tr');
  }

  /** In every odd cluster of at least three, two nodes can lead the same term one after the other. */
  lemma TwoLeadersInTurn(cfg: Config) returns (tr: Trace, i: nat, a: NodeId, c: NodeId)
    requires |cfg.members| % 2 == 1 && |cfg.members| >= 3
    ensures Good(cfg, tr) && i < |tr.steps| && a != c && LeadsIn(tr.states[i], a, 1) && LeadsIn(tr.states[|tr.steps|], c, 1)
  {
    hide Fed, Quietly, Now, Running, Good, Won, Untouched, AllAsked;
    var k := PickParts(cfg);
    var tr1 := FirstElected(cfg, k);
    var tr2 := LeaderGrants(cfg, tr1, k);
    tr := tr2;
    if |cfg.members| > 3 {
      StillRuns(cfg, Now(tr2), k);
      tr := Collect(cfg, tr2, k.c, k.second);
      WonLeads(Now(tr2), Now(tr), k.c, k.second);
      QuietlyTrans(cfg, tr1, tr2, tr);
    }
    i, a, c := |tr1.steps|, k.a, k.c;
    EarlierMoment(cfg, tr1, tr);
  }

  lemma WonLeads(s: State, s': State, c: NodeId, group: set<NodeId>)
    requires c in s.nodes && Won(s, s', c, group)
    ensures LeadsIn(s', c, s.nodes[c].term)
  {
  }

  lemma StillRuns(cfg: Config, s: State, k: Parts)
    requires PartsOk(cfg, k) && |cfg.members| > 3 && Untouched(s, k.second) && AllAsked(s, k.c, k.second)
    requires k.c in s.nodes && s.nodes[k.c].role == Candidate && s.nodes[k.c].term == 1 && s.nodes[k.c].log == []
    requires s.nodes[k.c].voteQuorum == 2
    ensures Running(cfg, s, k.c, k.second)
  {
    forall v | v in k.second ensures VoteRequestOf(s.nodes[k.c], k.c, v) in s.requests {
      assert VoteRequestOf(s.nodes[k.c], k.c, v) == VoteRequest(k.c, v, 1, 0, 0);
    }
  }

  lemma EarlierMoment(cfg: Config, tr: Trace, tr': Trace)
    requires Quietly(cfg, tr, tr')
    ensures |tr.steps| <= |tr'.steps| && |tr'.states| == |tr'.steps| + 1
    ensures tr'.states[|tr.steps|] == Now(tr) && tr'.states[|tr'.steps|] == Now(tr')
  {
  }

  // ---------------------------------------------------------------- the exact condition

  ghost predicate NeverTwoLeadersOfATerm(cfg: Config) {
    forall states, steps, i: nat, j: nat, l, m, t: nat |
      TimelyRun(cfg, states, steps) && i <= j <= |steps| && LeadsIn(states[i], l, t) && LeadsIn(states[j], m, t) :: l == m
  }

  /** Each term has at most one leader in all timely runs exactly in clusters of even size and of size one. */
  lemma OneLeaderPerTermExactly(cfg: Config)
    ensures NeverTwoLeadersOfATerm(cfg) <==> |cfg.members| % 2 == 0 || |cfg.members| == 1
  {
    if |cfg.members| % 2 == 0 {
      forall states, steps, i: nat, j: nat, l, m, t: nat |
        TimelyRun(cfg, states, steps) && i <= j <= |steps| && LeadsIn(states[i], l, t) && LeadsIn(states[j], m, t)
        ensures l == m
      {
        EvenHasOneLeader(cfg, states, steps, i, j, l, m, t);
      }
    } else if |cfg.members| == 1 {
      forall states, steps, i: nat, j: nat, l, m, t: nat |
        TimelyRun(cfg, states, steps) && i <= j <= |steps| && LeadsIn(states[i], l, t) && LeadsIn(states[j], m, t)
        ensures l == m
      {
        OnlyMember(cfg, states, steps, i, l);
        OnlyMember(cfg, states, steps, j, m);
        SubsetSize({l, m}, cfg.members);
      }
    } else {
      var tr, i, a, c := TwoLeadersInTurn(cfg);
      assert TimelyRun(cfg, tr.states, tr.steps);
    }
  }

  lemma OnlyMember(cfg: Config, states: seq<State>, steps: seq<Step>, i: nat, l: NodeId)
    requires TimelyRun(cfg, states, steps) && i <= |steps| && l in states[i].nodes
    ensures l in cfg.members
  {
    hide SafeInv, Do, Enabled, TimelyStep, Init;
    RunSafe(cfg, states, steps, i);
    MemberCount(cfg, states[i], HistoryAt(cfg, states, steps, i));
  }
}
