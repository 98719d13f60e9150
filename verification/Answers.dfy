/** What an answer to a command means in a cluster.  A command is answered as soon as the applied index
    has reached the index of its entry, whatever entry was applied there. */
module Answers {
  import opened Types
  import opened Protocol
  import opened Cluster
  import opened Elections
  import opened Logs
  import opened Replication
  import opened Steps
  import opened Locks
  import opened Commits
  import opened Safety
  import opened Traces
  import opened CatchUp
  import opened Moves
  import opened Trios

  /** A command was appended at n in step i; at moment j the code answers it. */
  ghost predicate Answered(cfg: Config, states: seq<State>, steps: seq<Step>, i: nat, j: nat, n: NodeId, op: Op)
    requires IsRun(cfg, states, steps)
  {
    && i < j <= |steps| && steps[i] == Client(n, op) && n in states[i].nodes && n in states[j].nodes
    && |states[i].nodes[n].log| < states[j].nodes[n].applied
  }

  /** The appended entry stays in the author's recorded log. */
  lemma AppendedIsRecorded(cfg: Config, states: seq<State>, steps: seq<Step>, i: nat, j: nat, n: NodeId, op: Op)
    requires TimelyRun(cfg, states, steps) && i < j <= |steps| && steps[i] == Client(n, op) && n in states[i].nodes
    ensures var h, t, k := HistoryAt(cfg, states, steps, j), states[i].nodes[n].term, |states[i].nodes[n].log|;
      t in h.termLog && k < |h.termLog[t]| && h.termLog[t][k] == Entry(t, op) && t in h.author && h.author[t] == n
  {
    hide SafeInv, Do, Enabled, TimelyStep;
    var h := HistoryAt(cfg, states, steps, i + 1);
    RunLater(cfg, states, steps, i + 1, j);
    var t := states[i].nodes[n].term;
    assert t in h.termLog && h.termLog[t] == ClientAppend(states[i].nodes[n], op).log && h.author[t] == n;
  }

  /** In every timely run that obeys the commit rule: what was applied at the index of an answered command
      is that command exactly when the entry there is of the term in which the command was appended. */
  lemma AnsweredExactly(cfg: Config, states: seq<State>, steps: seq<Step>, i: nat, j: nat, n: NodeId, op: Op)
    requires TimelyRun(cfg, states, steps) && ObeysCommitRule(cfg, states, steps) && Answered(cfg, states, steps, i, j, n, op)
    ensures var fed, k, t := AppliedBy(cfg, states, steps, j, n), |states[i].nodes[n].log|, states[i].nodes[n].term;
      k < |fed| && (fed[k] == Entry(t, op) <==> fed[k].term == t)
  {
    hide SafeInv, Do, Enabled, TimelyStep, AppliedBy, CommitRuleStep, HistoryAt;
    var h, k, log := HistoryAt(cfg, states, steps, j), |states[i].nodes[n].log|, states[j].nodes[n].log;
    IsMember(cfg, states, steps, j, n);
    AppliedIsPrefix(cfg, states, steps, j, n);
    RunSafe(cfg, states, steps, j);
    CanonNow(cfg, states[j], h, n);
    AppendedIsRecorded(cfg, states, steps, i, j, n, op);
    if log[k].term == states[i].nodes[n].term { AgreeAt(log, h.termLog[log[k].term], k + 1, k); }
  }

  lemma CanonNow(cfg: Config, s: State, h: History, n: NodeId)
    requires SafeInv(cfg, s, h) && n in s.nodes
    ensures Canon(h.termLog, s.nodes[n].log)
  {
    hide ElectionInv, LogInv, PeersOk, LockInv;
    LogAt(cfg, s, h, n);
  }

  lemma IsMember(cfg: Config, states: seq<State>, steps: seq<Step>, j: nat, n: NodeId)
    requires TimelyRun(cfg, states, steps) && j <= |steps| && n in states[j].nodes
    ensures n in cfg.members
  {
    hide SafeInv, Do, Enabled, TimelyStep, HistoryAt;
    RunSafe(cfg, states, steps, j);
    MemberCount(cfg, states[j], HistoryAt(cfg, states, steps, j));
  }

  /** A command that is answered while its node is still in the term in which it was appended has been
      applied, at its own index. */
  lemma AnsweredInTerm(cfg: Config, states: seq<State>, steps: seq<Step>, i: nat, j: nat, n: NodeId, op: Op)
    requires TimelyRun(cfg, states, steps) && ObeysCommitRule(cfg, states, steps) && Answered(cfg, states, steps, i, j, n, op)
    requires states[j].nodes[n].term == states[i].nodes[n].term
    ensures var fed, k := AppliedBy(cfg, states, steps, j, n), |states[i].nodes[n].log|;
      k < |fed| && fed[k] == Entry(states[i].nodes[n].term, op)
  {
    hide SafeInv, Do, Enabled, TimelyStep, AppliedBy, CommitRuleStep, HistoryAt;
    IsMember(cfg, states, steps, j, n);
    AppliedIsPrefix(cfg, states, steps, j, n);
    RunSafe(cfg, states, steps, j);
    AppendedIsRecorded(cfg, states, steps, i, j, n, op);
    AuthorHasIt(cfg, states[j], HistoryAt(cfg, states, steps, j), n);
  }

  /** The author of a term, while in it, holds the log recorded for it. */
  lemma AuthorHasIt(cfg: Config, s: State, h: History, n: NodeId)
    requires SafeInv(cfg, s, h) && n in s.nodes && s.nodes[n].term in h.author && h.author[s.nodes[n].term] == n
    ensures s.nodes[n].term in h.termLog && s.nodes[n].log == h.termLog[s.nodes[n].term]
  {
    hide ElectionInv, PeersOk, LockInv, LogsOk, CandLogsOk, Majority, AuthorLog, Canon;
    assert AuthorGood(cfg, s, h, s.nodes[n].term);
  }

  // ---------------------------------------------------------------- an answer for a lost command

  /** c leads term 2 with an entry of its own; a still has the command that nobody else received. */
  lemma Overtaken(cfg: Config, a: NodeId, b: NodeId, c: NodeId, op: Op, other: Op) returns (tr: Trace, i: nat)
    requires Trio(cfg, a, b, c)
    ensures NothingFed(cfg, tr) && i < |tr.steps| && |tr.states| == |tr.steps| + 1
    ensures tr.steps[i] == Client(a, op) && IsAt(tr.states[i], a, 1, [])
    ensures IsAt(Now(tr), c, 2, [Entry(2, other)]) && Now(tr).nodes[c].role == Leader && ViewsFresh(Now(tr).nodes[c])
    ensures IsAt(Now(tr), a, 1, [Entry(1, op)]) && b in Now(tr).nodes && Now(tr).nodes[b].term <= 2
  {
    hide Quietly, Good, Now, Fed, NothingFed;
    TrioSize(cfg, a, b, c);
    var tr0 := Begin(cfg, a, b, c, op);
    IsGood(cfg, tr0);
    var tr1 := MoveTimeout(cfg, tr0, c);
    var tr2 := Elect(cfg, tr1, c, {b});
    tr := MoveClient(cfg, tr2, c, other);
    QuietlyTrans(cfg, tr0, tr1, tr2);
    QuietlyTrans(cfg, tr0, tr2, tr);
    StillNothing(cfg, tr0, tr);
    i := |tr0.steps| - 1;
    SameMoment(cfg, tr0, tr, i);
    assert [] + [Entry(2, other)] == [Entry(2, other)];
  }

  lemma SameMoment(cfg: Config, tr: Trace, tr': Trace, i: nat)
    requires Quietly(cfg, tr, tr') && i < |tr.steps|
    ensures |tr'.states| == |tr'.steps| + 1 && i < |tr'.steps| && |tr.states| == |tr.steps| + 1
    ensures tr'.steps[i] == tr.steps[i] && tr'.states[i] == tr.states[i]
  {
  }

  /** c copies its entry to b and then to a, which loses the command and learns that c's entry is committed. */
  lemma Replaced(cfg: Config, a: NodeId, b: NodeId, c: NodeId, op: Op, other: Op) returns (tr: Trace, i: nat)
    requires Trio(cfg, a, b, c)
    ensures NothingFed(cfg, tr) && i < |tr.steps| && |tr.states| == |tr.steps| + 1
    ensures tr.steps[i] == Client(a, op) && IsAt(tr.states[i], a, 1, [])
    ensures AllHave(Now(tr), a, b, c, Entry(2, other)) && Now(tr).nodes[a].commit == 1 && Now(tr).nodes[a].applied == 0
  {
    hide Quietly, Good, Now, Fed, NothingFed, HandleAppend, HandleAppendReply, AppendReplyOf, AppendRequestOf, QuorumIndex, Matching;
    var e := Entry(2, other);
    var tr0;
    tr0, i := Overtaken(cfg, a, b, c, op, other);
    IsGood(cfg, tr0);
    PeersOfOne(cfg, tr0, c, a, b);
    var tr1 := MoveExchange(cfg, tr0, c, b);
    CopyFirst(cfg.limits, c, Now(tr0).nodes[c], b, Now(tr0).nodes[b], e);
    QuorumOfTwo(Now(tr1).nodes[c].matched, b);
    tr := MoveExchange(cfg, tr1, c, a);
    CopyFirst(cfg.limits, c, Now(tr1).nodes[c], a, Now(tr1).nodes[a], e);
    QuietlyTrans(cfg, tr0, tr1, tr);
    StillNothing(cfg, tr0, tr);
    SameMoment(cfg, tr0, tr, i);
  }

  ghost predicate AllHave(s: State, a: NodeId, b: NodeId, c: NodeId, e: Entry) {
    forall n | n in {a, b, c} :: n in s.nodes && s.nodes[n].log == [e]
  }

  /** In every cluster of three there is a run that obeys the commit rule, in which a command is answered
      and its entry is in no log and was never applied. */
  lemma AnsweredCommandIsLost(cfg: Config, a: NodeId, b: NodeId, c: NodeId, op: Op, other: Op) returns (tr: Trace, i: nat)
    requires Trio(cfg, a, b, c)
    ensures Good(cfg, tr) && ObeysCommitRule(cfg, tr.states, tr.steps)
    ensures Answered(cfg, tr.states, tr.steps, i, |tr.steps|, a, op) && tr.states[i].nodes[a].term == 1
    ensures AllHave(Now(tr), a, b, c, Entry(2, other)) && Fed(cfg, tr, a) == [Entry(2, other)]
  {
    hide Quietly, Good, Now, Fed, NothingFed;
    var tr0;
    tr0, i := Replaced(cfg, a, b, c, op, other);
    IsGood(cfg, tr0);
    tr := MoveApply(cfg, tr0, a);
    Finish(cfg, tr0, tr, i, a, op, Entry(2, other));
    TrioObeys(cfg, tr, a, b, c);
  }

  lemma Finish(cfg: Config, tr: Trace, tr': Trace, i: nat, a: NodeId, op: Op, e: Entry)
    requires NothingFed(cfg, tr) && Good(cfg, tr') && tr'.steps == tr.steps + [Apply(a)] && tr.states <= tr'.states
    requires i < |tr.steps| && tr.steps[i] == Client(a, op) && i < |tr.states| && IsAt(tr.states[i], a, 1, [])
    requires a in Now(tr).nodes && Now(tr).nodes[a].log == [e] && Now(tr).nodes[a].commit == 1 && Now(tr).nodes[a].applied == 0
    requires a in Now(tr').nodes && Now(tr').nodes[a] == ApplyCommitted(Now(tr).nodes[a])
    requires Fed(cfg, tr', a) == Fed(cfg, tr, a) + Now(tr).nodes[a].log[0..1]
    ensures Answered(cfg, tr'.states, tr'.steps, i, |tr'.steps|, a, op) && tr'.states[i].nodes[a].term == 1
    ensures Fed(cfg, tr', a) == [e]
  {
    NowIs(cfg, tr');
    hide Do, Enabled, TimelyStep, Fed, AppliedBy;
    assert tr'.states[i] == tr.states[i] && [e][0..1] == [e];
  }

  lemma TrioObeys(cfg: Config, tr: Trace, a: NodeId, b: NodeId, c: NodeId)
    requires Trio(cfg, a, b, c) && Good(cfg, tr)
    ensures ObeysCommitRule(cfg, tr.states, tr.steps)
  {
    TrioSize(cfg, a, b, c);
    hide Do;
  }
}
