/** What the commit guard is worth.  A leader counts match indices as soon as the last entry of an
    acknowledged batch is of its own term; it does not test the entry that it commits.  With up to
    four members that is enough.  With five or more, for every cluster and all limits on batches,
    there is a run in which two nodes apply different entries at the same index. */
module CommitRule {
  import opened Types
  import opened Protocol
  import opened Cluster
  import opened Safety
  import opened Traces
  import opened Moves

  /** Two leaders that take turns, a bystander, and the others. */
  datatype Cast = Cast(a: NodeId, b: NodeId, e: NodeId, crowd: set<NodeId>)

  ghost predicate CastOk(cfg: Config, k: Cast) {
    && k.a != k.b && k.a != k.e && k.b != k.e && k.a !in k.crowd && k.b !in k.crowd && k.e !in k.crowd
    && cfg.members == k.crowd + {k.a, k.b, k.e} && |k.crowd| >= 2 && |cfg.members| == |k.crowd| + 3
  }

  lemma PickCast(cfg: Config) returns (k: Cast)
    requires |cfg.members| >= 5
    ensures CastOk(cfg, k)
  {
    var a :| a in cfg.members;
    var m1 := cfg.members - {a};
    assert |m1| == |cfg.members| - 1;
    var b :| b in m1;
    var m2 := m1 - {b};
    assert |m2| == |m1| - 1;
    var e :| e in m2;
    k := Cast(a, b, e, m2 - {e});
  }

  const ANY_OP: Op := GetAllServers

  const X: Entry := Entry(1, ANY_OP)
  const Y: Entry := Entry(2, ANY_OP)
  const Z: Entry := Entry(3, ANY_OP)
  const W: Entry := Entry(4, ANY_OP)

  ghost predicate Crowd(s: State, k: Cast, term: nat, log: Log) {
    forall v | v in k.crowd :: v in s.nodes && s.nodes[v].term <= term && s.nodes[v].log == log
  }

  /** A candidate of the cast wins with the votes of the crowd. */
  lemma CrowdElects(cfg: Config, k: Cast, tr: Trace, c: NodeId, t: nat, log: Log, crowdLog: Log) returns (tr': Trace)
    requires CastOk(cfg, k) && NothingFed(cfg, tr) && c in cfg.members && c !in k.crowd
    requires IsAt(Now(tr), c, t, log) && Now(tr).nodes[c].role != Leader && Crowd(Now(tr), k, t, crowdLog)
    requires UpToDate(LastTerm(log), |log|, crowdLog)
    ensures NothingFed(cfg, tr') && Only(Now(tr), Now(tr'), k.crowd + {c})
    ensures IsAt(Now(tr'), c, t + 1, log) && Now(tr').nodes[c].role == Leader && Crowd(Now(tr'), k, t + 1, crowdLog)
    ensures forall p | p in Now(tr').nodes[c].matched :: Now(tr').nodes[c].matched[p] == 0
    ensures forall p | p in cfg.members && p != c && p !in k.crowd :: VoteRequest(c, p, t + 1, LastTerm(log), |log|) in Now(tr').requests
  {
    hide Good, Now, Fed, Quietly, NothingFed, Won;
    IsGood(cfg, tr);
    CrowdWilling(Now(tr), k, c, t, log, crowdLog);
    hide Willing;
    tr' := Elect(cfg, tr, c, k.crowd);
    StillNothing(cfg, tr, tr');
    CrowdWon(Now(tr), Now(tr'), k, c, t, log, crowdLog);
    hide IsAt, Crowd, Only;
    forall p | p in cfg.members && p != c && p !in k.crowd
      ensures VoteRequest(c, p, t + 1, LastTerm(log), |log|) in Now(tr').requests
    {
      assert VoteRequestOf(BecomeCandidate(Now(tr).nodes[c]), c, p) == VoteRequest(c, p, t + 1, LastTerm(log), |log|);
    }
  }

  lemma CrowdWilling(s: State, k: Cast, c: NodeId, t: nat, log: Log, crowdLog: Log)
    requires IsAt(s, c, t, log) && Crowd(s, k, t, crowdLog) && UpToDate(LastTerm(log), |log|, crowdLog)
    ensures c in s.nodes && s.nodes[c].term == t && s.nodes[c].log == log && Willing(s, k.crowd, BecomeCandidate(s.nodes[c]))
  {
  }

  lemma CrowdWon(s: State, s': State, k: Cast, c: NodeId, t: nat, log: Log, crowdLog: Log)
    requires IsAt(s, c, t, log) && Crowd(s, k, t, crowdLog) && c !in k.crowd
    requires Won(s.(nodes := s.nodes[c := BecomeCandidate(s.nodes[c])]), s', c, k.crowd)
    ensures Only(s, s', k.crowd + {c}) && IsAt(s', c, t + 1, log) && s'.nodes[c].role == Leader && Crowd(s', k, t + 1, crowdLog)
    ensures forall p | p in s'.nodes[c].matched :: s'.nodes[c].matched[p] == 0
  {
    var s1 := s.(nodes := s.nodes[c := BecomeCandidate(s.nodes[c])]);
    forall v | v in k.crowd ensures v in s'.nodes && s'.nodes[v].term <= t + 1 && s'.nodes[v].log == crowdLog {
      assert v in s1.nodes && s1.nodes[v] == s.nodes[v];
    }
  }

  /** A command for a leader of the cast. */
  lemma Command(cfg: Config, k: Cast, tr: Trace, c: NodeId, t: nat, log: Log) returns (tr': Trace)
    requires CastOk(cfg, k) && NothingFed(cfg, tr) && IsAt(Now(tr), c, t, log) && Now(tr).nodes[c].role == Leader
    ensures NothingFed(cfg, tr') && Only(Now(tr), Now(tr'), {c}) && Now(tr').requests == Now(tr).requests
    ensures IsAt(Now(tr'), c, t, log + [Entry(t, ANY_OP)]) && Now(tr').nodes[c].role == Leader
    ensures Now(tr').nodes[c].matched == Now(tr).nodes[c].matched
  {
    hide Good, Now, Fed, Quietly, NothingFed;
    IsGood(cfg, tr);
    tr' := MoveClient(cfg, tr, c, ANY_OP);
    StillNothing(cfg, tr, tr');
  }

  /** A leader whose log is better than the candidate's steps down. */
  lemma StepDown(cfg: Config, tr: Trace, n: NodeId, t: nat, log: Log, req: VoteRequest) returns (tr': Trace)
    requires NothingFed(cfg, tr) && IsAt(Now(tr), n, t, log) && req in Now(tr).requests && req.to == n
    requires t < req.term && !UpToDate(req.lastTerm, req.lastIndex, log)
    ensures NothingFed(cfg, tr') && Only(Now(tr), Now(tr'), {n})
    ensures IsAt(Now(tr'), n, req.term, log) && Now(tr').nodes[n].role == Follower
  {
    hide Good, Now, Fed, Quietly, NothingFed;
    IsGood(cfg, tr);
    tr' := Depose(cfg, tr, req);
    StillNothing(cfg, tr, tr');
  }

  /** First term: a leads and appends x, which nobody else receives. */
  lemma Act1(cfg: Config, k: Cast) returns (tr: Trace)
    requires CastOk(cfg, k)
    ensures NothingFed(cfg, tr)
    ensures IsAt(Now(tr), k.a, 1, [X]) && IsAt(Now(tr), k.b, 0, []) && IsAt(Now(tr), k.e, 0, []) && Crowd(Now(tr), k, 1, [])
    ensures Now(tr).nodes[k.e].role == Follower
  {
    hide Good, Now, Fed, Quietly, NothingFed;
    var tr0 := StartFresh(cfg);
    assert Fresh(Now(tr0), k.a) && Fresh(Now(tr0), k.b) && Fresh(Now(tr0), k.e);
    assert Crowd(Now(tr0), k, 0, []) by { assert forall v | v in k.crowd :: Fresh(Now(tr0), v); }
    var tr1 := CrowdElects(cfg, k, tr0, k.a, 0, [], []);
    tr := Command(cfg, k, tr1, k.a, 1, []);
    assert [] + [Entry(1, ANY_OP)] == [X];
  }

  /** Second term: e leads, which ends a's term, and appends y. */
  lemma Act2(cfg: Config, k: Cast) returns (tr: Trace)
    requires CastOk(cfg, k)
    ensures NothingFed(cfg, tr)
    ensures IsAt(Now(tr), k.a, 2, [X]) && IsAt(Now(tr), k.b, 0, []) && IsAt(Now(tr), k.e, 2, [Y]) && Crowd(Now(tr), k, 2, [])
    ensures Now(tr).nodes[k.a].role == Follower
  {
    hide Good, Now, Fed, Quietly;
    var tr0 := Act1(cfg, k);
    var tr1 := MoveTimeout(cfg, tr0, k.e);
    StillNothing(cfg, tr0, tr1);
    hide NothingFed;
    assert Crowd(Now(tr1), k, 1, []);
    var tr2 := CrowdElects(cfg, k, tr1, k.e, 1, [], []);
    var tr3 := StepDown(cfg, tr2, k.a, 1, [X], VoteRequest(k.e, k.a, 2, 0, 0));
    tr := Command(cfg, k, tr3, k.e, 2, []);
    assert [] + [Entry(2, ANY_OP)] == [Y];
  }

  /** Third term: a leads again, which ends e's term. */
  lemma Act3(cfg: Config, k: Cast) returns (tr: Trace)
    requires CastOk(cfg, k)
    ensures NothingFed(cfg, tr)
    ensures IsAt(Now(tr), k.a, 3, [X]) && IsAt(Now(tr), k.b, 0, []) && IsAt(Now(tr), k.e, 3, [Y]) && Crowd(Now(tr), k, 3, [])
    ensures Now(tr).nodes[k.a].role == Leader && Now(tr).nodes[k.e].role == Follower
    ensures forall p | p in Now(tr).nodes[k.a].matched :: Now(tr).nodes[k.a].matched[p] == 0
  {
    hide Good, Now, Fed, Quietly;
    var tr0 := Act2(cfg, k);
    hide NothingFed;
    var tr1 := CrowdElects(cfg, k, tr0, k.a, 2, [X], []);
    tr := StepDown(cfg, tr1, k.e, 2, [Y], VoteRequest(k.a, k.e, 3, 1, 1));
  }

  /** It copies x to the crowd, which commits nothing: x is of an earlier term. */
  lemma Act4(cfg: Config, k: Cast) returns (tr: Trace)
    requires CastOk(cfg, k)
    ensures NothingFed(cfg, tr)
    ensures IsAt(Now(tr), k.a, 3, [X, Z]) && IsAt(Now(tr), k.b, 0, []) && IsAt(Now(tr), k.e, 3, [Y]) && Crowd(Now(tr), k, 3, [X])
    ensures Now(tr).nodes[k.a].role == Leader && Now(tr).nodes[k.e].role == Follower
    ensures forall p | p in Now(tr).nodes[k.a].matched :: Now(tr).nodes[k.a].matched[p] == if p in k.crowd then 1 else 0
  {
    hide Good, Now, Fed, Quietly, NothingFed;
    var tr0 := Act3(cfg, k);
    IsGood(cfg, tr0);
    assert Behind(Now(tr0), k.a, k.crowd);
    hide Behind;
    var tr1 := SyncAll(cfg, tr0, k.a, k.crowd);
    StillNothing(cfg, tr0, tr1);
    tr := Command(cfg, k, tr1, k.a, 3, [X]);
    assert [X] + [Entry(3, ANY_OP)] == [X, Z];
  }

  lemma QuorumOne(matched: map<NodeId, nat>, crowd: set<NodeId>, b: NodeId)
    requires b !in crowd && crowd <= matched.Keys && b in matched && |matched| == |crowd| + 2 && |crowd| >= 2
    requires forall p | p in matched :: matched[p] == if p in crowd then 1 else if p == b then 2 else 0
    ensures QuorumIndex(matched, 2) == 1
  {
    assert (set p | p in matched && matched[p] >= 2) == {b};
    assert (set p | p in matched && matched[p] >= 1) == crowd + {b};
  }

  /** It appends z and copies its log to b alone: counting now commits x. */
  lemma Act5(cfg: Config, k: Cast) returns (tr: Trace)
    requires CastOk(cfg, k)
    ensures NothingFed(cfg, tr)
    ensures k.a in Now(tr).nodes && Now(tr).nodes[k.a].log == [X, Z] && Now(tr).nodes[k.a].commit == 1 && Now(tr).nodes[k.a].applied == 0
    ensures IsAt(Now(tr), k.e, 3, [Y]) && Crowd(Now(tr), k, 3, [X]) && Now(tr).nodes[k.e].role == Follower
  {
    hide Good, Now, Fed, Quietly, NothingFed, QuorumIndex;
    var tr0 := Act4(cfg, k);
    IsGood(cfg, tr0);
    PeerSet(cfg, tr0, k.a);
    tr := Sync(cfg, tr0, k.a, k.b);
    StillNothing(cfg, tr0, tr);
    QuorumOne(Now(tr).nodes[k.a].matched, k.crowd, k.b);
  }

  lemma PeerSet(cfg: Config, tr: Trace, n: NodeId)
    requires Good(cfg, tr) && n in cfg.members
    ensures n in Now(tr).nodes && Now(tr).nodes[n].matched.Keys == cfg.members - {n} && |Now(tr).nodes[n].matched| == |cfg.members| - 1
  {
    hide Good, Now;
    NowBasics(cfg, tr);
    assert |Now(tr).nodes[n].matched| == |Now(tr).nodes[n].matched.Keys|;
  }

  /** Fourth term: e wins, because y is of a later term than x, and appends w. */
  lemma Act6(cfg: Config, k: Cast) returns (tr: Trace)
    requires CastOk(cfg, k)
    ensures NothingFed(cfg, tr)
    ensures k.a in Now(tr).nodes && Now(tr).nodes[k.a].log == [X, Z] && Now(tr).nodes[k.a].commit == 1 && Now(tr).nodes[k.a].applied == 0
    ensures IsAt(Now(tr), k.e, 4, [Y, W]) && Crowd(Now(tr), k, 4, [X]) && Now(tr).nodes[k.e].role == Leader
  {
    hide Good, Now, Fed, Quietly, NothingFed;
    var tr0 := Act5(cfg, k);
    var tr1 := CrowdElects(cfg, k, tr0, k.e, 3, [Y], [X]);
    tr := Command(cfg, k, tr1, k.e, 4, [Y]);
    assert [Y] + [Entry(4, ANY_OP)] == [Y, W];
  }

  lemma QuorumTwo(matched: map<NodeId, nat>, crowd: set<NodeId>)
    requires crowd <= matched.Keys && |matched| == |crowd| + 2 && |crowd| >= 2
    requires forall p | p in matched && p in crowd :: matched[p] == 2
    ensures QuorumIndex(matched, 2) == 2
  {
    var held := set p | p in matched && matched[p] >= 2;
    assert crowd <= held;
    SubsetSize(crowd, held);
  }

  /** It overwrites x everywhere in the crowd and commits y and w. */
  lemma Act7(cfg: Config, k: Cast) returns (tr: Trace)
    requires CastOk(cfg, k)
    ensures NothingFed(cfg, tr)
    ensures k.a in Now(tr).nodes && Now(tr).nodes[k.a].log == [X, Z] && Now(tr).nodes[k.a].commit == 1 && Now(tr).nodes[k.a].applied == 0
    ensures k.e in Now(tr).nodes && Now(tr).nodes[k.e].log == [Y, W] && Now(tr).nodes[k.e].commit == 2 && Now(tr).nodes[k.e].applied == 0
  {
    hide Good, Now, Fed, Quietly, NothingFed, QuorumIndex;
    var tr0 := Act6(cfg, k);
    IsGood(cfg, tr0);
    assert Behind(Now(tr0), k.e, k.crowd);
    hide Behind;
    PeerSet(cfg, tr0, k.e);
    tr := SyncAll(cfg, tr0, k.e, k.crowd);
    StillNothing(cfg, tr0, tr);
    PeerSet(cfg, tr, k.e);
    QuorumTwo(Now(tr).nodes[k.e].matched, k.crowd);
  }

  lemma Act8(cfg: Config, k: Cast) returns (tr: Trace)
    requires CastOk(cfg, k)
    ensures Good(cfg, tr) && Fed(cfg, tr, k.a) == [X] && Fed(cfg, tr, k.e) == [Y, W]
  {
    hide Good, Now, Fed, Quietly;
    var tr0 := Act7(cfg, k);
    assert Fed(cfg, tr0, k.a) == Fed(cfg, tr0, k.e) == [];
    hide NothingFed;
    IsGood(cfg, tr0);
    var tr1 := MoveApply(cfg, tr0, k.a);
    tr := MoveApply(cfg, tr1, k.e);
    assert [X, Z][0..1] == [X] && [Y, W][0..2] == [Y, W];
  }

  /** In every run with timely replies, whatever entries its leaders commit, any two nodes apply the
      same entries at the same indices. */
  ghost predicate AlwaysAgree(cfg: Config) {
    forall states, steps, i: nat, j: nat, a, b |
      TimelyRun(cfg, states, steps) && i <= |steps| && j <= |steps| && a in cfg.members && b in cfg.members ::
      Compatible(AppliedBy(cfg, states, steps, i, a), AppliedBy(cfg, states, steps, j, b))
  }

  ghost predicate Compatible(a: seq<Entry>, b: seq<Entry>) { a <= b || b <= a }

  /** State machine safety without a hypothesis on commits holds exactly for clusters of at most four members. */
  lemma AgreeExactlyUpToFour(cfg: Config)
    ensures AlwaysAgree(cfg) <==> |cfg.members| <= 4
  {
    if |cfg.members| <= 4 {
      forall states, steps, i: nat, j: nat, a, b |
        TimelyRun(cfg, states, steps) && i <= |steps| && j <= |steps| && a in cfg.members && b in cfg.members
        ensures Compatible(AppliedBy(cfg, states, steps, i, a), AppliedBy(cfg, states, steps, j, b))
      {
        SmallClusterAgrees(cfg, states, steps, i, j, a, b);
      }
    } else {
      var k := PickCast(cfg);
      var tr := Act8(cfg, k);
      NotCompatible();
      hide AppliedBy;
      assert !Compatible(AppliedBy(cfg, tr.states, tr.steps, |tr.steps|, k.a), AppliedBy(cfg, tr.states, tr.steps, |tr.steps|, k.e));
    }
  }

  lemma NotCompatible()
    ensures !Compatible([X], [Y, W])
  {
    assert [X][0] != [Y, W][0];
  }

  lemma SmallClusterAgrees(cfg: Config, states: seq<State>, steps: seq<Step>, i: nat, j: nat, a: NodeId, b: NodeId)
    requires |cfg.members| <= 4 && TimelyRun(cfg, states, steps) && i <= |steps| && j <= |steps| && a in cfg.members && b in cfg.members
    ensures Compatible(AppliedBy(cfg, states, steps, i, a), AppliedBy(cfg, states, steps, j, b))
  {
    SmallObeys(cfg, states, steps);
    StateMachineSafety(cfg, states, steps, i, j, a, b);
  }

  lemma SmallObeys(cfg: Config, states: seq<State>, steps: seq<Step>)
    requires |cfg.members| <= 4 && IsRun(cfg, states, steps)
    ensures ObeysCommitRule(cfg, states, steps)
  {
  }
}
