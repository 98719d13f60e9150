/** What each handler leaves behind, field by field, in the terms of the messages and of the node before:
    when a vote is granted, whom a node follows afterwards, what its log and its commit index become. */
module Outcomes {
  import opened Types
  import opened Protocol

  // ---------------------------------------------------------------- roles

  lemma FollowerOutcome(n: Node, term: nat, leader: Option<NodeId>)
    ensures var n' := BecomeFollower(n, term, leader);
      && n'.term == term && n'.role == Follower && n'.leader == leader
      && n'.voteQuorum == n.voteQuorum && SameStore(n, n') && SameViews(n, n') && n'.voteFor == n.voteFor
  {
  }

  lemma CandidateOutcome(n: Node)
    ensures var n' := BecomeCandidate(n);
      && n'.term == n.term + 1 && n'.role == Candidate && n'.leader == None && n'.voteQuorum == 1
      && SameStore(n, n') && SameViews(n, n') && n'.voteFor == n.voteFor
  {
  }

  lemma LeaderOutcome(n: Node, self: NodeId)
    ensures var n' := BecomeLeader(n, self);
      && n'.term == n.term && n'.role == Leader && n'.leader == Some(self) && n'.voteFor == n.voteFor && SameStore(n, n')
      && n'.next.Keys == n.next.Keys && n'.matched.Keys == n.matched.Keys
      && (forall p | p in n.next :: n'.next[p] == |n.log| + 1) && (forall p | p in n.matched :: n'.matched[p] == 0)
  {
  }

  /** Log, commit and applied index are the same. */
  predicate SameStore(n: Node, n': Node) { n'.log == n.log && n'.commit == n.commit && n'.applied == n.applied }

  /** What is known of the peers is the same. */
  predicate SameViews(n: Node, n': Node) { n'.next == n.next && n'.matched == n.matched }

  // ---------------------------------------------------------------- votes

  /** A vote is granted exactly to a candidate of no earlier term, whose log ends in a later term or, in the
      same term, no earlier, and if the term's vote is free or was given to it before.  A granted vote and a
      later term make a follower without leader. */
  lemma VoteRequestOutcome(n: Node, req: VoteRequest)
    ensures var y, n' := VoteReplyOf(n, req), HandleVoteRequest(n, req);
      && (y.granted <==>
            && n.term <= req.term
            && (if n.log == [] then true
                else n.log[|n.log| - 1].term < req.lastTerm || (n.log[|n.log| - 1].term == req.lastTerm && |n.log| <= req.lastIndex))
            && (req.term !in n.voteFor || n.voteFor[req.term] == req.from))
      && y.voter == req.to && y.candidate == req.from && y.reqTerm == req.term
      && y.term == n'.term == (if n.term < req.term then req.term else n.term)
      && n'.voteFor == (if y.granted then n.voteFor[req.term := req.from] else n.voteFor)
      && (if y.granted || n.term < req.term then n'.role == Follower && n'.leader == None else n'.role == n.role && n'.leader == n.leader)
      && n'.voteQuorum == n.voteQuorum && SameStore(n, n') && SameViews(n, n')
  {
  }

  /** The reply of a candidate's own term that completes a majority of `size` members. */
  predicate Completes(n: Node, size: nat, y: VoteReply) {
    n.role == Candidate && y.granted && y.term == n.term && 2 * (n.voteQuorum + 1) > size
  }

  /** A later term makes a follower.  A denial makes a candidate a follower in the denial's term.  A grant of
      the candidate's own term is counted and makes it leader exactly when it completes a majority. */
  lemma VoteReplyOutcome(n: Node, self: NodeId, size: nat, y: VoteReply)
    ensures var n' := HandleVoteReply(n, self, size, y);
      && (n.term < y.term || (n.role == Candidate && !y.granted) ==> n'.term == y.term && n'.role == Follower && n'.leader == None)
      && (!(n.term < y.term || (n.role == Candidate && !y.granted)) ==> n'.term == n.term)
      && (n'.role == Candidate <==>
            n.role == Candidate && y.granted && y.term <= n.term && (y.term != n.term || 2 * (n.voteQuorum + 1) <= size))
      && (n'.role == Leader <==> (n.role == Leader && y.term <= n.term) || Completes(n, size, y))
      && (Completes(n, size, y) ==> n' == BecomeLeader(n, self).(voteQuorum := n.voteQuorum + 1))
      && (n.role != Candidate && y.term <= n.term ==> n' == n)
      && (n'.role == Candidate ==> n' == n.(voteQuorum := if y.term == n.term then n.voteQuorum + 1 else n.voteQuorum))
      && SameStore(n, n') && n'.voteFor == n.voteFor
      && (!Completes(n, size, y) ==> SameViews(n, n'))
  {
  }

  // ---------------------------------------------------------------- messages

  /** The bytes of a message with the first n entries from an index on. */
  function SizeOf(limits: Limits, log: Log, first: Pos, n: nat): nat
    requires first - 1 + n <= |log|
  {
    if n == 0 then limits.header else SizeOf(limits, log, first, n - 1) + limits.bytes(log[first + n - 2])
  }

  /** A batch of n entries is full: it has reached the limit on entries or the limit on bytes. */
  predicate Full(limits: Limits, log: Log, first: Pos, n: nat)
    requires first - 1 + n <= |log|
  {
    n >= limits.countOnce || SizeOf(limits, log, first, n) >= limits.sizeOnce
  }

  lemma {:induction false} BatchRest(limits: Limits, log: Log, first: Pos, sent: nat)
    requires first + sent <= |log| + 1
    ensures var n := sent + BatchFrom(limits, log, first + sent, sent, SizeOf(limits, log, first, sent));
      && first - 1 + n <= |log| && (first + sent <= |log| ==> n > sent)
      && (first - 1 + n == |log| || Full(limits, log, first, n))
      && (forall j: nat | sent < j < n :: !Full(limits, log, first, j))
    decreases |log| + 1 - first - sent
  {
    if first + sent <= |log| {
      BatchRest(limits, log, first, sent + 1);
    }
  }

  /** A batch stops at the end of the log or with the first entry that makes it full, and at nothing else. */
  lemma BatchExactly(limits: Limits, log: Log, first: Pos)
    requires first <= |log| + 1
    ensures var n := BatchLen(limits, log, first);
      && first - 1 + n <= |log| && (first <= |log| ==> n >= 1)
      && (first - 1 + n == |log| || Full(limits, log, first, n))
      && (forall j: nat | 1 <= j < n :: !Full(limits, log, first, j))
  {
    BatchRest(limits, log, first, 0);
  }

  /** A message names its sender, the sender's term and commit index, and the entry before its entries. */
  lemma RequestOutcome(limits: Limits, n: Node, self: NodeId, next: Pos)
    ensures var m := AppendRequestOf(limits, n, self, next);
      && m.from == self && m.term == n.term && m.leaderCommit == n.commit && m.prevIndex + 1 == next
      && m.prevTerm == (if 2 <= next <= |n.log| + 1 then n.log[next - 2].term else 0)
      && |m.entries| == (if next <= |n.log| then BatchLen(limits, n.log, next) else 0)
      && (next <= |n.log| ==> next - 1 + |m.entries| <= |n.log| && m.entries == n.log[next - 1..next - 1 + |m.entries|])
  {
    BatchBounds(limits, n.log, next, 0, limits.header);
    assert BatchLen(limits, n.log, next) == BatchFrom(limits, n.log, next, 0, limits.header);
    hide BatchFrom, BatchLen;
  }

  /** The receiver has the previous entry. */
  predicate HasPrevious(log: Log, m: AppendRequest) {
    if m.prevIndex == 0 then m.prevTerm == 0 else m.prevIndex <= |log| && log[m.prevIndex - 1].term == m.prevTerm
  }

  /** The sender is taken for the leader: it is of a later term, or the receiver has no leader. */
  predicate Adopts(n: Node, m: AppendRequest) {
    n.term < m.term || n.role == Candidate || (n.role == Follower && n.leader == None)
  }

  /** What a message does to its receiver.  One of an earlier term does nothing.  Otherwise the receiver is in
      the sender's term, follows the sender if it adopts it, and holds: its log up to the previous entry and
      the new entries, if it has the previous entry; else its log without that entry and all after it. */
  lemma AppendOutcome(n: Node, m: AppendRequest)
    ensures var n' := HandleAppend(n, m);
      && (m.term < n.term ==> n' == n)
      && (n.term <= m.term ==>
            && n'.term == m.term
            && (if Adopts(n, m) then n'.role == Follower && n'.leader == Some(m.from) else n'.role == n.role && n'.leader == n.leader)
            && n'.log == (if HasPrevious(n.log, m) then n.log[..m.prevIndex] + m.entries
                          else if |n.log| < m.prevIndex then n.log
                          else if m.prevIndex == 0 then [] else n.log[..m.prevIndex - 1])
            && n'.commit == (if HasPrevious(n.log, m) && m.leaderCommit != n.commit
                             then (if m.leaderCommit < |n'.log| then m.leaderCommit else |n'.log|) else n.commit))
      && n'.applied == n.applied && n'.voteFor == n.voteFor && n'.voteQuorum == n.voteQuorum && SameViews(n, n')
  {
  }

  lemma AppendReplyOutcome(n: Node, m: AppendRequest)
    ensures var r := AppendReplyOf(n, m);
      && r.term == (if n.term < m.term then m.term else n.term)
      && (r.success <==> n.term <= m.term && HasPrevious(n.log, m))
      && r.lastIndex == |HandleAppend(n, m).log|
  {
  }

  /** What a reply does to a node.  One that does not lead ignores it.  A later term makes a follower of that
      term without leader, and nothing else changes.  An acknowledged batch moves match and next index to its
      end; a refusal moves the next index back to the peer's end, but at least by one, and never to 0. */
  lemma AppendReplyTaken(n: Node, p: NodeId, m: AppendRequest, r: AppendReply)
    requires p in n.next
    ensures var n' := HandleAppendReply(n, p, m, r);
      && (n.role != Leader ==> n' == n)
      && (n.role == Leader && n.term < r.term ==>
            && n'.term == r.term && n'.role == Follower && n'.leader == None
            && SameStore(n, n') && SameViews(n, n') && n'.voteFor == n.voteFor && n'.voteQuorum == n.voteQuorum)
      && (n.role == Leader && r.term <= n.term ==>
            && n'.term == n.term && n'.role == Leader && n'.leader == n.leader && n'.log == n.log && n'.applied == n.applied
            && n'.voteFor == n.voteFor && n'.voteQuorum == n.voteQuorum
            && (if r.success && m.entries != [] then
                  && n'.matched == n.matched[p := m.prevIndex + |m.entries|] && n'.next == n.next[p := m.prevIndex + |m.entries| + 1]
                  && n'.commit == (if m.entries[|m.entries| - 1].term == n.term then Max(n.commit, QuorumIndex(n'.matched, |n.log|)) else n.commit)
                else
                  && n'.matched == n.matched && n'.commit == n.commit
                  && n'.next == (if r.success || n.next[p] == 1 then n.next
                                 else n.next[p := if r.lastIndex + 2 <= n.next[p] then r.lastIndex + 1 else n.next[p] - 1])))
  {
    hide QuorumIndex;
  }

  lemma ClientOutcome(n: Node, op: Op)
    ensures var n' := ClientAppend(n, op);
      n'.log == n.log + [Entry(n.term, op)] && n' == n.(log := n'.log)
  {
  }

  lemma ApplyOutcome(n: Node)
    ensures var n' := ApplyCommitted(n);
      n'.applied == (if n.applied < n.commit then n.commit else n.applied) && n' == n.(applied := n'.applied)
  {
  }
}
