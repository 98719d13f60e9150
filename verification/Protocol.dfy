/** The replicated protocol as seen by one node: what each message handler and each timer does
    to the node's state.  Every definition here is a closed form of an imperative handler;
    module FloydNode holds those handlers and proves that they compute exactly these functions. */
module Protocol {
  import opened Types

  /** Limits on one AppendEntries batch.  `bytes` is the encoded size of an entry and `header` the
      size of the rest of the message, taken as constant. */
  datatype Limits = Limits(countOnce: nat, sizeOnce: nat, header: nat, bytes: Entry -> nat)

  datatype Config = Config(members: set<NodeId>, limits: Limits)

  /** A next index is never 0. */
  type Pos = x: nat | 1 <= x witness 1

  datatype Node = Node(
    term: nat, role: Role, leader: Option<NodeId>, voteQuorum: nat,
    voteFor: map<nat, NodeId>,
    log: Log, commit: nat, applied: nat,
    next: map<NodeId, Pos>, matched: map<NodeId, nat>)

  // ---------------------------------------------------------------- role transitions

  function BecomeFollower(n: Node, term: nat, leader: Option<NodeId>): Node {
    n.(term := term, role := Follower, leader := leader)
  }

  function BecomeCandidate(n: Node): Node {
    n.(term := n.term + 1, role := Candidate, leader := None, voteQuorum := 1)
  }

  /** A new leader also forgets what it knew about its peers. */
  function BecomeLeader(n: Node, self: NodeId): Node {
    n.(role := Leader, leader := Some(self),
       next := map p | p in n.next :: |n.log| + 1,
       matched := map p | p in n.matched :: 0)
  }

  // ---------------------------------------------------------------- votes

  function VoteRequestOf(n: Node, self: NodeId, peer: NodeId): VoteRequest {
    VoteRequest(self, peer, n.term, LastTerm(n.log), |n.log|)
  }

  /** The requester's log is at least as up to date as `log`. */
  predicate UpToDate(lastTerm: nat, lastIndex: nat, log: Log) {
    LastTerm(log) < lastTerm || (LastTerm(log) == lastTerm && |log| <= lastIndex)
  }

  predicate Grants(n: Node, req: VoteRequest) {
    && n.term <= req.term
    && UpToDate(req.lastTerm, req.lastIndex, n.log)
    && (req.term in n.voteFor ==> n.voteFor[req.term] == req.from)
  }

  function VoteReplyOf(n: Node, req: VoteRequest): VoteReply {
    VoteReply(req.to, req.from, req.term, Max(n.term, req.term), Grants(n, req))
  }

  function HandleVoteRequest(n: Node, req: VoteRequest): Node {
    if Grants(n, req) then
      BecomeFollower(n, req.term, None).(voteFor := n.voteFor[req.term := req.from])
    else if n.term < req.term then
      BecomeFollower(n, req.term, None)
    else
      n
  }

  /** `size` is the configured number of members. */
  function HandleVoteReply(n: Node, self: NodeId, size: nat, reply: VoteReply): Node {
    if n.term < reply.term then
      BecomeFollower(n, reply.term, None)
    else if n.role != Candidate then
      n
    else if !reply.granted then
      BecomeFollower(n, reply.term, None)
    else if reply.term != n.term then
      n
    else if n.voteQuorum + 1 > size / 2 then
      BecomeLeader(n, self).(voteQuorum := n.voteQuorum + 1)
    else
      n.(voteQuorum := n.voteQuorum + 1)
  }

  // ---------------------------------------------------------------- log replication

  /** Number of entries that a batch takes from `index` on, when it already holds `sent` entries
      of `size` encoded bytes. */
  function BatchFrom(limits: Limits, log: Log, index: Pos, sent: nat, size: nat): nat
    decreases |log| + 1 - index
  {
    if index > |log| then 0
    else if sent + 1 >= limits.countOnce || size + limits.bytes(log[index - 1]) >= limits.sizeOnce then 1
    else 1 + BatchFrom(limits, log, index + 1, sent + 1, size + limits.bytes(log[index - 1]))
  }

  function BatchLen(limits: Limits, log: Log, next: Pos): nat {
    BatchFrom(limits, log, next, 0, limits.header)
  }

  lemma {:induction false} BatchBounds(limits: Limits, log: Log, index: Pos, sent: nat, size: nat)
    ensures index <= |log| ==> 1 <= BatchFrom(limits, log, index, sent, size) <= |log| + 1 - index
    ensures index > |log| ==> BatchFrom(limits, log, index, sent, size) == 0
    decreases |log| + 1 - index
  {
    if index <= |log| {
      BatchBounds(limits, log, index + 1, sent + 1, size + limits.bytes(log[index - 1]));
    }
  }

  /** A longer log never makes a batch shorter: a batch that is sent again covers the earlier one. */
  lemma {:induction false} BatchGrows(limits: Limits, log: Log, longer: Log, index: Pos, sent: nat, size: nat)
    requires log <= longer
    ensures BatchFrom(limits, log, index, sent, size) <= BatchFrom(limits, longer, index, sent, size)
    decreases |log| + 1 - index
  {
    if index <= |log| {
      assert log[index - 1] == longer[index - 1];
      BatchGrows(limits, log, longer, index + 1, sent + 1, size + limits.bytes(log[index - 1]));
    }
  }

  /** The message that a leader sends to a peer whose next index is `next`.  A previous entry that
      the leader does not have is announced with term 0. */
  function AppendRequestOf(limits: Limits, n: Node, self: NodeId, next: Pos): (m: AppendRequest)
    ensures m.prevIndex == 0 ==> m.prevTerm == 0
    ensures m.prevIndex <= |n.log| ==>
              m.prevIndex + |m.entries| <= |n.log| && m.entries == n.log[m.prevIndex..m.prevIndex + |m.entries|]
  {
    BatchBounds(limits, n.log, next, 0, limits.header);
    if next - 1 <= |n.log| then
      AppendRequest(self, n.term, next - 1, TermAt(n.log, next - 1), n.commit,
                    n.log[next - 1..next - 1 + BatchLen(limits, n.log, next)])
    else
      AppendRequest(self, n.term, next - 1, 0, n.commit, [])
  }

  /** The receiver's reaction to the sender's term. */
  function Accept(n: Node, m: AppendRequest): Node {
    if n.term < m.term || n.role == Candidate || (n.role == Follower && n.leader == None) then
      BecomeFollower(n, m.term, Some(m.from))
    else
      n
  }

  /** The receiver holds the entry that the message builds on. */
  predicate Fits(log: Log, m: AppendRequest) {
    m.prevIndex <= |log| && TermAt(log, m.prevIndex) == m.prevTerm
  }

  /** The receiver's log afterwards: whatever follows the previous index is always dropped.
      (Index 0 with a term other than 0 is a message that no leader builds.) */
  function LogAfter(log: Log, m: AppendRequest): Log {
    if |log| < m.prevIndex then log
    else if Fits(log, m) then log[..m.prevIndex] + m.entries
    else if m.prevIndex == 0 then []
    else log[..m.prevIndex - 1]
  }

  function CommitAfter(n: Node, m: AppendRequest): nat {
    if m.leaderCommit != n.commit then Min(m.leaderCommit, |LogAfter(n.log, m)|) else n.commit
  }

  function HandleAppend(n: Node, m: AppendRequest): Node {
    if m.term < n.term then n
    else if Fits(n.log, m) then Accept(n, m).(log := LogAfter(n.log, m), commit := CommitAfter(n, m))
    else Accept(n, m).(log := LogAfter(n.log, m))
  }

  function AppendReplyOf(n: Node, m: AppendRequest): AppendReply {
    if m.term < n.term then AppendReply(n.term, false, |n.log|)
    else AppendReply(m.term, Fits(n.log, m), |LogAfter(n.log, m)|)
  }

  /** Index k is held by the leader and by enough peers to form a strict majority. */
  predicate Held(matched: map<NodeId, nat>, k: nat) {
    2 * (1 + |set p | p in matched && matched[p] >= k|) > |matched| + 1
  }

  /** The greatest index up to `hi` that is held by a strict majority. */
  function QuorumIndex(matched: map<NodeId, nat>, hi: nat): nat {
    if hi == 0 || Held(matched, hi) then hi else QuorumIndex(matched, hi - 1)
  }

  /** A leader's commit index after it counted the match indices. */
  function AdvanceCommit(n: Node): nat {
    Max(n.commit, QuorumIndex(n.matched, |n.log|))
  }

  function HandleAppendReply(n: Node, peer: NodeId, m: AppendRequest, r: AppendReply): Node
    requires peer in n.next
  {
    if n.role != Leader then n
    else if n.term < r.term then BecomeFollower(n, r.term, None)
    else if r.success then
      if m.entries == [] then n
      else
        var n1 := n.(matched := n.matched[peer := m.prevIndex + |m.entries|],
                     next := n.next[peer := m.prevIndex + |m.entries| + 1]);
        if LastTerm(m.entries) == n.term then n1.(commit := AdvanceCommit(n1)) else n1
    else if n.next[peer] <= 1 then n
    else n.(next := n.next[peer := Min(r.lastIndex + 1, n.next[peer] - 1)])
  }

  // ---------------------------------------------------------------- clients and the state machine

  function ClientAppend(n: Node, op: Op): Node {
    n.(log := n.log + [Entry(n.term, op)])
  }

  /** The apply thread consumes everything up to the commit index. */
  function ApplyCommitted(n: Node): Node {
    n.(applied := Max(n.applied, n.commit))
  }
}
