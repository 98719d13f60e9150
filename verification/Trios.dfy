/** Beginnings of runs in clusters of three. */
module Trios {
  import opened Types
  import opened Protocol
  import opened Cluster
  import opened Traces
  import opened Moves

  ghost predicate Trio(cfg: Config, a: NodeId, b: NodeId, c: NodeId) {
    a != b && b != c && a != c && cfg.members == {a, b, c}
  }

  lemma TrioSize(cfg: Config, a: NodeId, b: NodeId, c: NodeId)
    requires Trio(cfg, a, b, c)
    ensures |cfg.members| == 3
  {
  }

  /** a leads term 1 with the vote of b and appends an entry; nothing else has happened. */
  lemma Begin(cfg: Config, a: NodeId, b: NodeId, c: NodeId, op: Op) returns (tr: Trace)
    requires Trio(cfg, a, b, c)
    ensures NothingFed(cfg, tr) && IsAt(Now(tr), a, 1, [Entry(1, op)]) && Now(tr).nodes[a].role == Leader
    ensures b in Now(tr).nodes && Now(tr).nodes[b].term <= 1 && IsAt(Now(tr), b, Now(tr).nodes[b].term, [])
    ensures IsAt(Now(tr), c, 0, []) && Now(tr).nodes[c].role == Follower
    ensures ViewsFresh(Now(tr).nodes[a])
    ensures |tr.steps| > 0 && tr.steps[|tr.steps| - 1] == Client(a, op)
    ensures |tr.states| == |tr.steps| + 1 && IsAt(tr.states[|tr.steps| - 1], a, 1, [])
  {
    hide Quietly, Good, Now, Fed, Init, NothingFed;
    TrioSize(cfg, a, b, c);
    var tr0 := StartFresh(cfg);
    IsGood(cfg, tr0);
    var tr1 := Elect(cfg, tr0, a, {b});
    StillNothing(cfg, tr0, tr1);
    tr := MoveClient(cfg, tr1, a, op);
    StillNothing(cfg, tr1, tr);
    MomentOf(cfg, tr1, tr);
    NowIs(cfg, tr);
  }

  lemma MomentOf(cfg: Config, tr: Trace, tr': Trace)
    requires Quietly(cfg, tr, tr')
    ensures |tr.steps| < |tr'.states| && tr'.states[|tr.steps|] == Now(tr)
  {
  }

  /** A leader elected with an empty log knows nothing of its peers. */
  ghost predicate ViewsFresh(l: Node) {
    (forall p | p in l.next :: l.next[p] == 1) && (forall p | p in l.matched :: l.matched[p] == 0)
  }

  /** One exchange that gives a peer the leader's only entry, whatever the peer had. */
  lemma CopyFirst(limits: Limits, self: NodeId, l: Node, p: NodeId, f: Node, e: Entry)
    requires p in l.next && l.next[p] == 1 && l.log == [e] && e.term == l.term && l.role == Leader && f.term <= l.term
    ensures var m := AppendRequestOf(limits, l, self, l.next[p]);
      var f' := HandleAppend(f, m);
      && f'.log == [e] && f'.term == l.term && f'.applied == f.applied
      && f'.commit == (if l.commit != f.commit then Min(l.commit, 1) else f.commit)
      && var l' := HandleAppendReply(l, p, m, AppendReplyOf(f, m));
         l'.log == l.log && l'.term == l.term && l'.role == Leader && l'.matched == l.matched[p := 1] && l'.applied == l.applied
         && l'.next == l.next[p := 2] && l'.commit == Max(l.commit, QuorumIndex(l'.matched, 1))
  {
    BatchBounds(limits, l.log, 1, 0, limits.header);
    assert [e][0..1] == [e];
    assert AppendRequestOf(limits, l, self, l.next[p]) == AppendRequest(self, l.term, 0, 0, l.commit, [e]);
    hide QuorumIndex, AppendRequestOf;
  }

  lemma QuorumOfTwo(matched: map<NodeId, nat>, b: NodeId)
    requires |matched| == 2 && b in matched && matched[b] == 1
    ensures QuorumIndex(matched, 1) == 1
  {
    var held := set p | p in matched && matched[p] >= 1;
    assert {b} <= held;
    SubsetSize({b}, held);
  }

  lemma PeersOfOne(cfg: Config, tr: Trace, a: NodeId, b: NodeId, c: NodeId)
    requires Trio(cfg, a, b, c) && Good(cfg, tr)
    ensures a in Now(tr).nodes && Now(tr).nodes[a].next.Keys == Now(tr).nodes[a].matched.Keys == {b, c} && |Now(tr).nodes[a].matched| == 2
  {
    hide Good, Now;
    NowBasics(cfg, tr);
    assert Peers(cfg, a) == {b, c};
    assert |Now(tr).nodes[a].matched| == |Now(tr).nodes[a].matched.Keys|;
  }
}
