/** Runs under construction: extending a run by one enabled, timely step. */
module Traces {
  import opened Types
  import opened Protocol
  import opened Cluster
  import opened Elections
  import opened Logs
  import opened Replication
  import opened Locks
  import opened Safety

  datatype Trace = Trace(states: seq<State>, steps: seq<Step>)

  ghost predicate Good(cfg: Config, tr: Trace) {
    TimelyRun(cfg, tr.states, tr.steps)
  }

  ghost function Now(tr: Trace): State {
    if |tr.steps| < |tr.states| then tr.states[|tr.steps|] else State(map[], {}, {})
  }

  /** What node n has handed to its state machine so far. */
  ghost function Fed(cfg: Config, tr: Trace, n: NodeId): seq<Entry>
    requires Good(cfg, tr)
  {
    AppliedBy(cfg, tr.states, tr.steps, |tr.steps|, n)
  }

  ghost function Start(cfg: Config): Trace { Trace([Init(cfg)], []) }

  lemma StartGood(cfg: Config)
    ensures Good(cfg, Start(cfg)) && Now(Start(cfg)) == Init(cfg)
    ensures forall n :: Fed(cfg, Start(cfg), n) == []
  {
  }

  ghost function Extend(cfg: Config, tr: Trace, step: Step): Trace
    requires Good(cfg, tr) && Enabled(cfg, Now(tr), step)
  {
    Trace(tr.states + [Do(cfg, Now(tr), step)], tr.steps + [step])
  }

  lemma {:induction false} AppliedByPrefix(cfg: Config, tr: Trace, step: Step, i: nat, n: NodeId)
    requires Good(cfg, tr) && Enabled(cfg, Now(tr), step) && i <= |tr.steps|
    requires Good(cfg, Extend(cfg, tr, step))
    ensures AppliedBy(cfg, Extend(cfg, tr, step).states, Extend(cfg, tr, step).steps, i, n) == AppliedBy(cfg, tr.states, tr.steps, i, n)
  {
    if i > 0 { AppliedByPrefix(cfg, tr, step, i - 1, n); }
  }

  lemma ExtendGood(cfg: Config, tr: Trace, step: Step)
    requires Good(cfg, tr) && Enabled(cfg, Now(tr), step) && TimelyStep(Now(tr), step)
    ensures Good(cfg, Extend(cfg, tr, step)) && Now(Extend(cfg, tr, step)) == Do(cfg, Now(tr), step)
  {
    hide Do, Enabled, TimelyStep;
  }

  lemma ExtendFed(cfg: Config, tr: Trace, step: Step, n: NodeId)
    requires Good(cfg, tr) && Enabled(cfg, Now(tr), step) && TimelyStep(Now(tr), step)
    ensures Good(cfg, Extend(cfg, tr, step))
    ensures step != Apply(n) ==> Fed(cfg, Extend(cfg, tr, step), n) == Fed(cfg, tr, n)
    ensures step == Apply(n) && Now(tr).nodes[n].applied < Now(tr).nodes[n].commit <= |Now(tr).nodes[n].log| ==>
      Fed(cfg, Extend(cfg, tr, step), n)
        == Fed(cfg, tr, n) + Now(tr).nodes[n].log[Now(tr).nodes[n].applied..Now(tr).nodes[n].commit]
  {
    ExtendGood(cfg, tr, step);
    AppliedByPrefix(cfg, tr, step, |tr.steps|, n);
    hide Do, TimelyStep, Timely, TimelyRun, Good;
  }

  /** What holds of every node at the end of a run. */
  ghost predicate Basics(cfg: Config, s: State) {
    && s.nodes.Keys == cfg.members
    && forall n | n in s.nodes ::
      && s.nodes[n].next.Keys == s.nodes[n].matched.Keys == Peers(cfg, n)
      && (s.nodes[n].leader == Some(n) <==> s.nodes[n].role == Leader)
      && (forall t | t in s.nodes[n].voteFor :: t <= s.nodes[n].term)
  }

  lemma NowBasics(cfg: Config, tr: Trace)
    requires Good(cfg, tr)
    ensures Basics(cfg, Now(tr))
  {
    hide SafeInv;
    var h := HistoryAt(cfg, tr.states, tr.steps, |tr.steps|);
    RunSafe(cfg, tr.states, tr.steps, |tr.steps|);
    BasicsOf(cfg, Now(tr), h);
  }

  lemma BasicsOf(cfg: Config, s: State, h: History)
    requires SafeInv(cfg, s, h)
    ensures Basics(cfg, s)
  {
    hide LogInv, PeersOk, LockInv, RequestsOk, RepliesOk, CountOk, LeadOk, CandOk;
    forall n | n in s.nodes
      ensures s.nodes[n].next.Keys == s.nodes[n].matched.Keys == Peers(cfg, n)
      ensures s.nodes[n].leader == Some(n) <==> s.nodes[n].role == Leader
      ensures forall t | t in s.nodes[n].voteFor :: t <= s.nodes[n].term
    {
      assert NodeGood(cfg, h.candLog, n, s.nodes[n]);
    }
  }

  /** Nothing has changed but the nodes in `changed` and the messages. */
  ghost predicate Only(s: State, s': State, changed: set<NodeId>) {
    s'.nodes.Keys == s.nodes.Keys && forall n | n in s.nodes && n !in changed :: s'.nodes[n] == s.nodes[n]
  }
}
