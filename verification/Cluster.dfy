/** A cluster of any number of nodes with a fixed member set, and its runs.

    A vote request is built when the candidate queues it and is handled at most once; a reply is
    processed at most once.  Either may be delayed, reordered or lost (a lost message is one that is
    never delivered).  One AppendEntries exchange with a peer is one step that may lose its reply. */
module Cluster {
  import opened Types
  import opened Protocol

  datatype State = State(nodes: map<NodeId, Node>, requests: set<VoteRequest>, replies: set<VoteReply>)

  datatype Step =
    | Timeout(n: NodeId)
    | AskVote(req: VoteRequest)
    | TakeReply(reply: VoteReply)
    | Client(n: NodeId, op: Op)
    | Exchange(l: NodeId, p: NodeId, replyLost: bool)
    | Apply(n: NodeId)

  function Peers(cfg: Config, n: NodeId): set<NodeId> { cfg.members - {n} }

  function InitNode(cfg: Config, n: NodeId): Node {
    Node(0, Follower, None, 0, map[], [], 0, 0,
         map p | p in Peers(cfg, n) :: 1, map p | p in Peers(cfg, n) :: 0)
  }

  function Init(cfg: Config): State {
    State(map n | n in cfg.members :: InitNode(cfg, n), {}, {})
  }

  ghost predicate Enabled(cfg: Config, s: State, step: Step) {
    match step
    case Timeout(n) => n in s.nodes && s.nodes[n].role != Leader
    case AskVote(req) => req in s.requests && req.to in s.nodes
    case TakeReply(reply) => reply in s.replies && reply.candidate in s.nodes
    case Client(n, op) => n in s.nodes && s.nodes[n].leader == Some(n)
    case Exchange(l, p, _) => l in s.nodes && p in s.nodes && p in s.nodes[l].next && s.nodes[l].role == Leader
    case Apply(n) => n in s.nodes
  }

  function RequestsOf(cfg: Config, n: Node, self: NodeId): set<VoteRequest> {
    set p | p in Peers(cfg, self) :: VoteRequestOf(n, self, p)
  }

  /** The message of an exchange. */
  ghost function MessageTo(cfg: Config, s: State, l: NodeId, p: NodeId): AppendRequest
    requires Enabled(cfg, s, Exchange(l, p, false))
  {
    AppendRequestOf(cfg.limits, s.nodes[l], l, s.nodes[l].next[p])
  }

  /** The leader's state after an exchange. */
  ghost function LeaderAfter(cfg: Config, s: State, l: NodeId, p: NodeId, replyLost: bool): Node
    requires Enabled(cfg, s, Exchange(l, p, replyLost))
  {
    var m := MessageTo(cfg, s, l, p);
    if replyLost then s.nodes[l]
    else HandleAppendReply(s.nodes[l], p, m, AppendReplyOf(s.nodes[p], m))
  }

  ghost function Do(cfg: Config, s: State, step: Step): State
    requires Enabled(cfg, s, step)
  {
    match step
    case Timeout(n) =>
      var c := BecomeCandidate(s.nodes[n]);
      s.(nodes := s.nodes[n := c], requests := s.requests + RequestsOf(cfg, c, n))
    case AskVote(req) =>
      var v := s.nodes[req.to];
      State(s.nodes[req.to := HandleVoteRequest(v, req)], s.requests - {req}, s.replies + {VoteReplyOf(v, req)})
    case TakeReply(reply) =>
      var c := s.nodes[reply.candidate];
      s.(nodes := s.nodes[reply.candidate := HandleVoteReply(c, reply.candidate, |cfg.members|, reply)],
         replies := s.replies - {reply})
    case Client(n, op) =>
      s.(nodes := s.nodes[n := ClientAppend(s.nodes[n], op)])
    case Exchange(l, p, replyLost) =>
      var m := MessageTo(cfg, s, l, p);
      s.(nodes := s.nodes[p := HandleAppend(s.nodes[p], m)][l := LeaderAfter(cfg, s, l, p, replyLost)])
    case Apply(n) =>
      s.(nodes := s.nodes[n := ApplyCommitted(s.nodes[n])])
  }

  // ---------------------------------------------------------------- runs

  ghost predicate IsRun(cfg: Config, states: seq<State>, steps: seq<Step>) {
    && |states| == |steps| + 1
    && states[0] == Init(cfg)
    && forall i | 0 <= i < |steps| ::
         && Enabled(cfg, states[i], steps[i])
         && states[i + 1] == Do(cfg, states[i], steps[i])
  }

  /** The delivery that lowers a term: a candidate takes a denial that carries a smaller term than its own. */
  predicate StaleDenial(n: Node, reply: VoteReply) {
    n.role == Candidate && !reply.granted && reply.term < n.term
  }

  ghost predicate TimelyStep(s: State, step: Step) {
    step.TakeReply? && step.reply.candidate in s.nodes ==> !StaleDenial(s.nodes[step.reply.candidate], step.reply)
  }

  /** Environment assumption: a denial does not reach a later candidacy of the node that asked. */
  ghost predicate Timely(states: seq<State>, steps: seq<Step>)
    requires |states| == |steps| + 1
  {
    forall i | 0 <= i < |steps| :: TimelyStep(states[i], steps[i])
  }
}
