/** One server as an object: its context, its peers, and its log and meta data in one store.  Every
    handler computes exactly the corresponding function of module Protocol on the node's abstract
    state, and leaves the term, the commit index and the applied index saved. */
module FloydNode {
  import opened Types
  import Protocol
  import opened Keys
  import opened Disk
  import opened LogStore
  import opened Quorum
  import opened StateMachine
  import opened Outcomes

  /** A saved vote as an address. */
  function ReadVote(vote: (string, int)): Option<NodeId> {
    if vote.0 == "" then None else Some(NodeId(vote.0, vote.1))
  }

  /** How a vote is saved. */
  function WriteVote(vote: Option<NodeId>): (string, int) {
    if vote.Some? then (vote.value.ip, vote.value.port) else ("", 0)
  }

  /** A saved vote is read back as it was, for every server with an address. */
  lemma VoteRoundTrip(vote: Option<NodeId>)
    requires vote.Some? ==> vote.value.ip != ""
    ensures ReadVote(WriteVote(vote)) == vote
  {
  }

  lemma AcceptOutcome(n: Protocol.Node, m: AppendRequest)
    requires n.term <= m.term
    ensures var n' := Protocol.Accept(n, m);
      && n'.term == m.term && SameStore(n, n')
      && (if Adopts(n, m) then n'.role == Follower && n'.leader == Some(m.from) else n'.role == n.role && n'.leader == n.leader)
  {
  }

  /** The message as far as it was written. */
  function Written(m: AppendRequest, ok: bool): AppendRequest { if ok then m else m.(entries := []) }

  /** A failed write is noticed only where the log was cut to nothing before it. */
  predicate Noticed(m: AppendRequest, ok: bool) { !ok && m.entries != [] && m.prevIndex == 0 }

  /** The reply makes a leader count copies. */
  predicate CountsCopies(n: Protocol.Node, m: AppendRequest, r: AppendReply) {
    n.role == Leader && r.term <= n.term && r.success && m.entries != [] && LastTerm(m.entries) == n.term
  }

  /** The commit index rises to the greatest index that a strict majority holds, if that is greater. */
  ghost predicate Advanced(n: Protocol.Node, commit: nat) {
    && (exists q: nat :: GreatestHeld(n.matched, q) && commit == Max(n.commit, q))
    && ((forall p | p in n.matched :: n.matched[p] <= |n.log|) ==> commit == Protocol.AdvanceCommit(n))
  }

  /** The leader's log covers what was sent and what is matched, as in every run of a cluster. */
  ghost predicate Covered(n: Protocol.Node, m: AppendRequest) {
    && (m.entries == [] || m.prevIndex + |m.entries| <= |n.log|)
    && forall p | p in n.matched :: n.matched[p] <= |n.log|
  }

  /** Where the log covers all that, the new commit index is the protocol's. */
  lemma ReplyCommit(n: Protocol.Node, peer: NodeId, m: AppendRequest, r: AppendReply, commit: nat)
    requires peer in n.next
    requires if CountsCopies(n, m, r) then Advanced(Protocol.HandleAppendReply(n, peer, m, r).(commit := n.commit), commit) else commit == n.commit
    ensures Covered(n, m) ==> Protocol.HandleAppendReply(n, peer, m, r).commit == commit
  {
    hide Protocol.QuorumIndex;
  }

  class FloydNode {
    const self: NodeId
    /** Configured number of members. */
    const size: nat
    const limits: Protocol.Limits
    /** Whether the server runs alone. */
    const single: bool
    const db: Store
    const log: RaftLog
    const meta: RaftMeta
    /** The state machine's own store. */
    const table: Table

    var term: nat
    var role: Role
    var leader: Option<NodeId>
    var votedFor: Option<NodeId>
    var voteQuorum: nat
    var voteFor: map<nat, NodeId>
    var commit: nat
    var applied: nat
    var next: map<NodeId, Protocol.Pos>
    var matched: map<NodeId, nat>

    /** The parts belong together. */
    ghost predicate Linked()
      reads this, log, meta, db
    {
      && log.db == db && meta.db == db && log.Valid() && meta.Valid() && META_KEYS <= db.kv.Keys
      && next.Keys == matched.Keys && forall p | p in next :: next[p] <= INDEX_BOUND
    }

    /** What a restart reads back is up to date. */
    ghost predicate Saved()
      requires Linked()
      reads this, log, meta, db
    {
      meta.Term() == term && meta.Commit() == commit && meta.Applied() == applied
    }

    ghost predicate Valid()
      reads this, log, meta, db
    {
      Linked() && Saved()
    }

    ghost function State(): Protocol.Node
      requires Linked()
      reads this, log, meta, db
    {
      Protocol.Node(term, role, leader, voteQuorum, voteFor, log.Contents(), commit, applied, next, matched)
    }

    /** Opening a store, as at start-up: the saved numbers and the log come back, the role is follower,
        and the votes of the node are forgotten. */
    constructor (self: NodeId, size: nat, limits: Protocol.Limits, single: bool, db: Store, table: Table, peers: set<NodeId>)
      requires MetaTyped(db.kv) && (Layout(db.kv, 0) || (META_KEYS <= db.kv.Keys && exists n: nat :: Layout(db.kv, n)))
      modifies db
      ensures this.self == self && this.size == size && this.limits == limits && this.single == single && this.db == db && fresh(log) && fresh(meta)
      ensures this.table == table && Valid() && role == Follower && leader == None && voteFor == map[] && next.Keys == peers
      ensures term == WordAt(old(db.kv), CURRENT_TERM_KEY) && commit == WordAt(old(db.kv), COMMIT_INDEX_KEY)
      ensures applied == WordAt(old(db.kv), LAST_APPLIED_KEY) && votedFor == ReadVote(VoteAt(old(db.kv)))
      ensures forall n: nat | Layout(old(db.kv), n) :: log.Contents() == LogOf(old(db.kv), n)
    {
      this.self, this.size, this.limits, this.single, this.db, this.table := self, size, limits, single, db, table;
      log := new RaftLog(db);
      meta := new RaftMeta(db);
      role, leader, voteQuorum, voteFor := Follower, None, 0, map[];
      next, matched := map p | p in peers :: 1, map p | p in peers :: 0;
      new;
      meta.Init();
      SameLayout(old(db.kv), db.kv, log.last);
      hide Layout, MetaTyped;
      RecoverInit();
      forall n: nat | Layout(old(db.kv), n) ensures log.Contents() == LogOf(old(db.kv), n) {
        LayoutUnique(old(db.kv), n, log.last);
      }
    }

    /** Reads back what was saved. */
    method RecoverInit()
      requires Linked()
      modifies this`term, this`votedFor, this`commit, this`applied, this`role
      ensures Valid() && role == Follower
      ensures term == old(meta.Term()) && commit == old(meta.Commit()) && applied == old(meta.Applied())
      ensures votedFor == ReadVote(old(meta.Vote()))
      ensures votedFor == if old(meta.Vote()).0 == "" then None else Some(NodeId(old(meta.Vote()).0, old(meta.Vote()).1))
    {
      hide Layout;
      term := meta.GetCurrentTerm();
      var ip := meta.GetVotedForIp();
      var port := meta.GetVotedForPort();
      votedFor := ReadVote((ip, port));
      commit := meta.GetCommitIndex();
      applied := meta.GetLastApplied();
      role := Follower;
    }

    // ---------------------------------------------------------------- saving

    /** Meta writes keep the log. */
    method SaveTerm()
      requires Linked()
      modifies db
      ensures Linked() && meta.Term() == term && meta.Commit() == old(meta.Commit()) && meta.Applied() == old(meta.Applied())
      ensures log.Contents() == old(log.Contents())
    {
      MetaLayout(db.kv, log.last, CURRENT_TERM_KEY, Word(term));
      MetaDistinct();
      hide Layout, LogOf;
      meta.SetCurrentTerm(term);
    }

    method SaveVote()
      requires Linked()
      modifies db
      ensures Linked() && meta.Term() == old(meta.Term()) && meta.Commit() == old(meta.Commit()) && meta.Applied() == old(meta.Applied())
      ensures log.Contents() == old(log.Contents())
      ensures meta.Vote() == WriteVote(votedFor)
    {
      var ip := if votedFor.Some? then votedFor.value.ip else "";
      var port := if votedFor.Some? then votedFor.value.port else 0;
      MetaDistinct();
      MetaLayout(db.kv, log.last, VOTED_FOR_IP_KEY, Text(ip));
      ghost var kv := db.kv[VOTED_FOR_IP_KEY := Text(ip)];
      MetaLayout(kv, log.last, VOTED_FOR_PORT_KEY, Port(port));
      hide Layout, LogOf;
      meta.SetVotedForIp(ip);
      meta.SetVotedForPort(port);
    }

    method SaveCommit()
      requires Linked()
      modifies db
      ensures Linked() && meta.Term() == old(meta.Term()) && meta.Commit() == commit && meta.Applied() == old(meta.Applied())
      ensures log.Contents() == old(log.Contents())
    {
      MetaLayout(db.kv, log.last, COMMIT_INDEX_KEY, Word(commit));
      MetaDistinct();
      hide Layout, LogOf;
      meta.SetCommitIndex(commit);
    }

    method SaveApplied()
      requires Linked()
      modifies db
      ensures Linked() && meta.Term() == old(meta.Term()) && meta.Commit() == old(meta.Commit()) && meta.Applied() == applied
      ensures log.Contents() == old(log.Contents())
    {
      MetaLayout(db.kv, log.last, LAST_APPLIED_KEY, Word(applied));
      MetaDistinct();
      hide Layout, LogOf;
      meta.SetLastApplied(applied);
    }

    // ---------------------------------------------------------------- roles

    method BecomeFollower(newTerm: nat, newLeader: Option<NodeId>)
      requires Linked()
      modifies this`term, this`role, this`leader, this`votedFor
      ensures Linked() && State() == Protocol.BecomeFollower(old(State()), newTerm, newLeader) && votedFor == newLeader
      ensures term == newTerm && role == Follower && leader == newLeader
    {
      votedFor := newLeader;
      term := newTerm;
      leader := newLeader;
      role := Follower;
    }

    method BecomeCandidate()
      requires Linked()
      modifies this`term, this`role, this`leader, this`votedFor, this`voteQuorum
      ensures Linked() && State() == Protocol.BecomeCandidate(old(State())) && votedFor == Some(self)
      ensures term == old(term) + 1 && role == Candidate && leader == None && voteQuorum == 1
    {
      term := term + 1;
      role := Candidate;
      leader := None;
      votedFor := Some(self);
      voteQuorum := 1;
    }

    /** LaunchCheckLeader; `silent` tells whether the leader has been silent for too long.  A server that
        runs alone makes itself leader at once, in its current term. */
    method LaunchCheckLeader(silent: bool) returns (asked: set<VoteRequest>)
      requires Valid()
      modifies this`term, this`role, this`leader, this`votedFor, this`voteQuorum, db
      ensures Valid()
      ensures State() ==
        if old(role) == Leader || (!single && !silent) then old(State())
        else if single then old(State()).(role := Leader, leader := Some(self))
        else Protocol.BecomeCandidate(old(State()))
      ensures asked == if old(role) != Leader && !single && silent then set p | p in next :: Protocol.VoteRequestOf(State(), self, p) else {}
      ensures old(role) != Leader && (single || silent) ==> votedFor == Some(self) && meta.Vote() == (self.ip, self.port)
      ensures old(role) != Leader && !single && silent ==> term == old(term) + 1 && role == Candidate && leader == None && voteQuorum == 1
    {
      hide Layout, LogOf, MetaTyped;
      asked := {};
      if role == Follower || role == Candidate {
        if single {
          role := Leader;
          leader := Some(self);
          votedFor := Some(self);
          SaveTerm();
          SaveVote();
        } else if silent {
          BecomeCandidate();
          SaveTerm();
          SaveVote();
          asked := NoticePeers();
        }
      }
    }

    /** NoticePeerTask for a candidate: a request to every peer, built when it is queued. */
    method NoticePeers() returns (asked: set<VoteRequest>)
      requires Linked()
      ensures asked == set p | p in next :: Protocol.VoteRequestOf(State(), self, p)
      ensures asked == set p | p in next :: VoteRequest(self, p, term, LastTerm(log.Contents()), log.last)
    {
      hide Layout, LogOf, MetaTyped;
      var lastTerm, lastIndex := log.GetLastLogTermAndIndex();
      var left := next.Keys;
      asked := {};
      while left != {}
        invariant left <= next.Keys
        invariant asked == set p | p in next.Keys - left :: VoteRequest(self, p, term, lastTerm, lastIndex)
        decreases left
      {
        var p :| p in left;
        asked := asked + {VoteRequest(self, p, term, lastTerm, lastIndex)};
        left := left - {p};
      }
    }

    /** Peers forget what they knew. */
    method UpdatePeerInfo()
      requires next.Keys == matched.Keys
      modifies this`next, this`matched
      ensures next == map p | p in old(next) :: log.last + 1
      ensures matched == map p | p in old(matched) :: 0
    {
      var left := next.Keys;
      while left != {}
        invariant left <= next.Keys == matched.Keys == old(next.Keys)
        invariant forall p | p in next && p !in left :: next[p] == log.last + 1 && matched[p] == 0
        decreases left
      {
        var p :| p in left;
        next, matched := next[p := log.last + 1], matched[p := 0];
        left := left - {p};
      }
      PeersReset(old(next), next, old(matched), matched, log.last + 1);
    }

    /** A leader's own part of BecomeLeader and UpdatePeerInfo. */
    method BecomeLeader()
      requires Linked()
      modifies this`role, this`leader, this`next, this`matched
      ensures Linked() && State() == Protocol.BecomeLeader(old(State()), self)
      ensures role == Leader && leader == Some(self)
    {
      assert log.last + 1 <= INDEX_BOUND;
      hide Layout, LogOf, MetaTyped;
      role := Leader;
      leader := Some(self);
      UpdatePeerInfo();
    }

    // ---------------------------------------------------------------- votes

    method ReplyRequestVote(req: VoteRequest) returns (reply: VoteReply)
      requires Valid() && req.to == self
      modifies this`term, this`role, this`leader, this`votedFor, this`voteFor, db
      ensures Valid() && State() == Protocol.HandleVoteRequest(old(State()), req)
      ensures reply == Protocol.VoteReplyOf(old(State()), req)
      ensures reply.granted ==> votedFor == Some(req.from) && meta.Vote() == ("", 0)
      ensures reply.granted <==>
        && old(term) <= req.term
        && (LastTerm(log.Contents()) < req.lastTerm || (LastTerm(log.Contents()) == req.lastTerm && log.last <= req.lastIndex))
        && (req.term !in old(voteFor) || old(voteFor)[req.term] == req.from)
      ensures voteFor == if reply.granted then old(voteFor)[req.term := req.from] else old(voteFor)
      ensures term == reply.term == Max(old(term), req.term)
      ensures if reply.granted || old(term) < req.term then role == Follower && leader == None else role == old(role) && leader == old(leader)
    {
      VoteRequestOutcome(State(), req);
      hide Layout, LogOf, MetaTyped;
      if req.term > term {
        BecomeFollower(req.term, None);
        SaveTerm();
      }
      if req.term < term {
        return VoteReply(self, req.from, req.term, term, false);
      }
      var lastTerm, lastIndex := log.GetLastLogTermAndIndex();
      if req.lastTerm < lastTerm || (req.lastTerm == lastTerm && req.lastIndex < lastIndex) {
        return VoteReply(self, req.from, req.term, term, false);
      }
      if req.term in voteFor && voteFor[req.term] != req.from {
        return VoteReply(self, req.from, req.term, term, false);
      }
      GrantVote(req);
      reply := VoteReply(self, req.from, req.term, term, true);
    }

    /** The vote is saved before it is noted: what is saved is that there is no vote. */
    method GrantVote(req: VoteRequest)
      requires Valid() && req.term == term
      modifies this`term, this`role, this`leader, this`votedFor, this`voteFor, db
      ensures Valid() && State() == Protocol.BecomeFollower(old(State()), req.term, None).(voteFor := old(voteFor)[req.term := req.from])
      ensures votedFor == Some(req.from) && meta.Vote() == ("", 0)
    {
      hide Layout, LogOf, MetaTyped;
      voteFor := voteFor[req.term := req.from];
      BecomeFollower(req.term, None);
      SaveTerm();
      SaveVote();
      votedFor := Some(req.from);
      term := req.term;
    }

    method CheckAndVote(voteTerm: nat) returns (won: bool)
      requires Linked()
      modifies this`voteQuorum
      ensures Linked()
      ensures State() == old(State()).(voteQuorum := if voteTerm == term then old(voteQuorum) + 1 else old(voteQuorum))
      ensures won == (voteTerm == term && voteQuorum > size / 2)
    {
      if term != voteTerm {
        return false;
      }
      voteQuorum := voteQuorum + 1;
      won := voteQuorum > size / 2;
    }

    /** The second half of RequestVoteRPC. */
    method TakeVoteReply(reply: VoteReply)
      requires Valid()
      modifies this`term, this`role, this`leader, this`votedFor, this`voteQuorum, this`next, this`matched, db
      ensures Valid() && State() == Protocol.HandleVoteReply(old(State()), self, size, reply)
      ensures reply.term > old(term) || (old(role) == Candidate && !reply.granted) ==>
        term == reply.term && role == Follower && leader == None && next == old(next) && matched == old(matched)
      ensures role == Candidate <==>
        old(role) == Candidate && reply.granted && reply.term <= old(term) && (reply.term != old(term) || 2 * (old(voteQuorum) + 1) <= size)
      ensures role == Leader && old(role) != Leader <==>
        old(role) == Candidate && reply.granted && reply.term == old(term) && 2 * (old(voteQuorum) + 1) > size
    {
      VoteReplyOutcome(State(), self, size, reply);
      hide Layout, LogOf, MetaTyped;
      if reply.term > term {
        BecomeFollower(reply.term, None);
        SaveTerm();
        SaveVote();
        return;
      }
      if role == Candidate {
        if reply.granted {
          var won := CheckAndVote(reply.term);
          if won {
            BecomeLeader();
          }
        } else {
          BecomeFollower(reply.term, None);
          SaveTerm();
          SaveVote();
        }
      }
    }

    // ---------------------------------------------------------------- log replication

    /** The first half of AppendEntriesRPC: the message for a peer, with a batch of entries.  `recent`
        tells whether the peer was sent something within a heartbeat; then nothing is sent if there is
        nothing new. */
    method BuildAppendEntries(peer: NodeId, recent: bool) returns (r: Option<AppendRequest>)
      requires Valid() && peer in next
      ensures r == if next[peer] > |State().log| && recent then None
                   else Some(Protocol.AppendRequestOf(limits, State(), self, next[peer]))
      ensures r.Some? ==>
        && r.value.from == self && r.value.term == term && r.value.leaderCommit == commit && r.value.prevIndex + 1 == next[peer]
        && r.value.prevTerm == (if 2 <= next[peer] <= log.last + 1 then log.Contents()[next[peer] - 2].term else 0)
        && (next[peer] > log.last ==> r.value.entries == [])
        && (next[peer] <= log.last ==>
              && next[peer] - 1 + |r.value.entries| <= log.last
              && r.value.entries == log.Contents()[next[peer] - 1..next[peer] - 1 + |r.value.entries|])
    {
      if next[peer] > log.last && recent {
        return None;
      }
      var m := BuildMessage(peer);
      hide Layout, LogOf, MetaTyped, Linked, Protocol.AppendRequestOf;
      RequestOutcome(limits, State(), self, next[peer]);
      r := Some(m);
    }

    method BuildMessage(peer: NodeId) returns (m: AppendRequest)
      requires Valid() && peer in next
      ensures m == Protocol.AppendRequestOf(limits, State(), self, next[peer])
    {
      BoundFits();
      ghost var was := log.Contents();
      hide Layout, LogOf, MetaTyped, Protocol.AppendRequestOf, CopyOf, Protocol.BatchLen, Power;
      var first: nat := next[peer];
      var prevIndex, prevTerm := first - 1, 0;
      if prevIndex != 0 {
        var entry := log.GetEntry(prevIndex);
        if entry.Some? { prevTerm := entry.value.term; }
      }
      var entries := CollectBatch(limits, log, first);
      RequestIs(limits, State(), self, first, prevTerm, entries);
      m := AppendRequest(self, term, prevIndex, prevTerm, commit, entries);
    }

    /** Copies entries from an index on, until the log ends or the batch is big enough. */
    static method CollectBatch(limits: Protocol.Limits, log: RaftLog, first: nat) returns (entries: seq<Entry>)
      requires log.Valid() && 1 <= first <= INDEX_BOUND
      ensures |entries| == Protocol.BatchLen(limits, log.Contents(), first)
      ensures entries == CopyOf(log.Contents(), first, first + |entries|)
    {
      BoundFits();
      ghost var was := log.Contents();
      var last := log.last;
      assert last < INDEX_BOUND;
      hide Layout, LogOf, Power, Collected, CopyOf, Protocol.BatchLen;
      CollectedNone(limits, was, first);
      var bytes: nat, index: nat := limits.header, first;
      entries := [];
      while index <= last
        invariant index >= 1 && Collected(limits, was, first, index, entries, bytes)
        decreases last + 1 - index
      {
        CollectedMore(limits, was, first, index, entries, bytes);
        var entry := log.GetEntry(index);
        entries := entries + [entry.value];
        bytes := bytes + limits.bytes(entry.value);
        index := index + 1;
        if |entries| >= limits.countOnce || bytes >= limits.sizeOnce { return; }
      }
      CollectedAll(limits, was, first, index, entries, bytes);
    }

    method AdvanceFollowerCommitIndex(leaderCommit: nat)
      requires Linked() && meta.Term() == term && meta.Applied() == applied
      modifies this`commit, db
      ensures Valid() && State() == old(State()).(commit := Min(leaderCommit, log.last))
    {
      hide Layout, LogOf, MetaTyped;
      commit := Min(leaderCommit, log.last);
      SaveCommit();
    }

    /** The receiver's reaction to the sender's term. */
    method AcceptTerm(m: AppendRequest)
      requires Valid() && term <= m.term
      modifies this`term, this`role, this`leader, this`votedFor, db
      ensures Valid() && State() == Protocol.Accept(old(State()), m)
    {
      hide Layout, LogOf, MetaTyped;
      if m.term > term || role == Candidate || (role == Follower && leader == None) {
        BecomeFollower(m.term, Some(m.from));
        SaveTerm();
        SaveVote();
      }
    }

    /** Truncation leaves everything but the log alone. */
    method Truncate(index: nat)
      requires Valid() && index >= 1
      modifies log, db
      ensures Valid() && State() == old(State()).(log := old(State()).log[..Min(old(log.last), index - 1)])
    {
      var r := log.TruncateSuffix(index, true);
      SameMeta(old(db.kv), db.kv);
      hide Layout, LogOf, MetaTyped;
    }

    method AppendEntries(entries: seq<Entry>, ok: bool) returns (r: nat)
      requires Valid() && log.last + |entries| < INDEX_BOUND
      modifies log, db
      ensures Valid() && State() == old(State()).(log := old(State()).log + if ok then entries else []) && r == log.last
    {
      r := log.Append(entries, ok);
      SameMeta(old(db.kv), db.kv);
      hide Layout, LogOf, MetaTyped;
    }

    /** ReplyAppendEntries; `ok` is the outcome of the write.  A message that builds on index 0 announces
        term 0.  When the write fails, the node answers as if the message had been a heartbeat, with
        success for entries that it does not hold; only where the log is then empty it reports the error. */
    method ReplyAppendEntries(m: AppendRequest, ok: bool) returns (r: AppendReply)
      requires Valid() && (m.prevIndex == 0 ==> m.prevTerm == 0) && m.prevIndex + |m.entries| < INDEX_BOUND
      modifies this`term, this`role, this`leader, this`votedFor, this`commit, log, db
      ensures Valid()
      ensures old(term) > m.term || !Noticed(m, ok) ==>
        State() == Protocol.HandleAppend(old(State()), Written(m, ok)) && r == Protocol.AppendReplyOf(old(State()), Written(m, ok))
      ensures old(term) <= m.term && Noticed(m, ok) ==>
        State() == Protocol.Accept(old(State()), m).(log := []) && r == AppendReply(m.term, false, 0)
      ensures old(term) > m.term ==> r.term == old(term) && !r.success && State() == old(State())
      ensures old(term) <= m.term ==> term == m.term == r.term
      ensures old(term) <= m.term ==>
        if old(term) < m.term || old(role) == Candidate || (old(role) == Follower && old(leader) == None)
        then role == Follower && leader == Some(m.from) else role == old(role) && leader == old(leader)
      ensures old(term) <= m.term && HasPrevious(old(log.Contents()), m) && ok ==>
        && r.success && log.Contents() == old(log.Contents())[..m.prevIndex] + m.entries
        && commit == if m.leaderCommit != old(commit) then Min(m.leaderCommit, log.last) else old(commit)
      ensures old(term) <= m.term && HasPrevious(old(log.Contents()), m) && !ok && m.entries != [] ==>
        r.success == (m.prevIndex > 0) && log.Contents() == old(log.Contents())[..m.prevIndex]
      ensures old(term) <= m.term && !HasPrevious(old(log.Contents()), m) ==>
        && !r.success && commit == old(commit)
        && log.Contents() == old(log.Contents())[..if |old(log.Contents())| < m.prevIndex then |old(log.Contents())| else m.prevIndex - 1]
    {
      AppendOutcome(State(), Written(m, ok));
      AppendReplyOutcome(State(), Written(m, ok));
      if term <= m.term { AcceptOutcome(State(), m); }
      r := Answer(m, ok);
      hide Layout, LogOf, MetaTyped, Linked, Protocol.HandleAppend, Protocol.AppendReplyOf, Protocol.Accept;
    }

    method Answer(m: AppendRequest, ok: bool) returns (r: AppendReply)
      requires Valid() && (m.prevIndex == 0 ==> m.prevTerm == 0) && m.prevIndex + |m.entries| < INDEX_BOUND
      modifies this`term, this`role, this`leader, this`votedFor, this`commit, log, db
      ensures Valid()
      ensures old(term) > m.term || !Noticed(m, ok) ==>
        State() == Protocol.HandleAppend(old(State()), Written(m, ok)) && r == Protocol.AppendReplyOf(old(State()), Written(m, ok))
      ensures old(term) <= m.term && Noticed(m, ok) ==>
        State() == Protocol.Accept(old(State()), m).(log := []) && r == AppendReply(m.term, false, 0)
    {
      hide Layout, LogOf, MetaTyped;
      if m.term < term {
        return AppendReply(term, false, log.last);
      }
      AcceptTerm(m);
      var success := StoreEntries(m, ok);
      r := AppendReply(term, success, log.last);
    }

    /** What ReplyAppendEntries does to the log once the sender's term is accepted. */
    method StoreEntries(m: AppendRequest, ok: bool) returns (success: bool)
      requires Valid() && (m.prevIndex == 0 ==> m.prevTerm == 0) && m.prevIndex + |m.entries| < INDEX_BOUND
      modifies this`commit, log, db
      ensures Valid() && success == (Protocol.Fits(old(State()).log, m) && !Noticed(m, ok))
      ensures State() == old(State()).(log := Protocol.LogAfter(old(State()).log, Written(m, ok)),
                                       commit := if success then Protocol.CommitAfter(old(State()), Written(m, ok)) else old(commit))
    {
      BoundFits();
      hide Layout, LogOf, MetaTyped;
      if m.prevIndex > log.last {
        return false;
      }
      if m.prevIndex < log.last {
        Truncate(m.prevIndex + 1);
      }
      assert State() == old(State()).(log := old(State()).log[..m.prevIndex]);
      var lastTerm := 0;
      if m.prevIndex != 0 {
        var entry := log.GetEntry(m.prevIndex);
        lastTerm := entry.value.term;
      }
      if m.prevTerm != lastTerm {
        Truncate(m.prevIndex);
        return false;
      }
      success := ExtendLog(m, ok);
    }

    /** The log ends at the previous entry: the entries are added, and the commit index follows the leader's. */
    method ExtendLog(m: AppendRequest, ok: bool) returns (success: bool)
      requires Valid() && log.last == m.prevIndex && m.prevIndex + |m.entries| < INDEX_BOUND
      modifies this`commit, log, db
      ensures Valid() && success == !Noticed(m, ok)
      ensures var n := old(State()).(log := old(State()).log + Written(m, ok).entries);
        State() == if success && m.leaderCommit != n.commit then n.(commit := Min(m.leaderCommit, |n.log|)) else n
    {
      hide Layout, LogOf, MetaTyped;
      if |m.entries| > 0 {
        var last := AppendEntries(m.entries, ok);
        if last <= 0 {
          return false;
        }
      }
      if m.leaderCommit != commit {
        AdvanceFollowerCommitIndex(m.leaderCommit);
      }
      success := true;
    }

    /** The match indices may exceed the log; as long as they do not, this is the protocol's advance. */
    method AdvanceLeaderCommitIndex()
      requires Valid() && matched.Keys != {}
      modifies this`commit, db
      ensures Valid() && State() == old(State()).(commit := commit)
      ensures Advanced(old(State()), commit)
    {
      hide Layout, LogOf, MetaTyped, Protocol.QuorumIndex, Protocol.Held;
      var q := QuorumMatchIndex(matched, log.last);
      if commit < q {
        commit := q;
        SaveCommit();
      }
    }

    /** The second half of AppendEntriesRPC.  Where the leader's log covers what was sent and what is
        matched, it is exactly the protocol's reaction; the commit index is characterised for all others too. */
    method TakeAppendReply(peer: NodeId, m: AppendRequest, r: AppendReply)
      requires Valid() && peer in next && m.prevIndex + |m.entries| < INDEX_BOUND
      modifies this`term, this`role, this`leader, this`votedFor, this`commit, this`next, this`matched, db
      ensures Valid() && State() == Protocol.HandleAppendReply(old(State()), peer, m, r).(commit := commit)
      ensures if CountsCopies(old(State()), m, r) then Advanced(State().(commit := old(commit)), commit) else commit == old(commit)
      ensures Covered(old(State()), m) ==> State() == Protocol.HandleAppendReply(old(State()), peer, m, r)
      ensures !r.success || m.entries == [] || m.entries[|m.entries| - 1].term != old(term) ==> commit == old(commit)
      ensures old(role) != Leader ==> State() == old(State())
      ensures old(role) == Leader && r.term > old(term) ==>
        && term == r.term && role == Follower && leader == None && meta.Term() == r.term
        && State() == old(State()).(term := r.term, role := Follower, leader := None)
      ensures old(role) == Leader && r.term <= old(term) ==>
        && term == old(term) && role == Leader && leader == old(leader)
        && matched == (if r.success && m.entries != [] then old(matched)[peer := m.prevIndex + |m.entries|] else old(matched))
        && (r.success && m.entries != [] ==> next == old(next)[peer := m.prevIndex + |m.entries| + 1])
        && (r.success && m.entries == [] ==> next == old(next))
        && (!r.success ==> next.Keys == old(next).Keys && 1 <= next[peer] && (old(next)[peer] > 1 ==> next[peer] == Min(r.lastIndex + 1, old(next)[peer] - 1)))
    {
      AppendReplyTaken(State(), peer, m, r);
      React(peer, m, r);
      hide Layout, LogOf, MetaTyped, Protocol.QuorumIndex, Protocol.Held, Advanced, Linked, Protocol.HandleAppendReply, Covered;
      ReplyCommit(old(State()), peer, m, r, commit);
    }

    method React(peer: NodeId, m: AppendRequest, r: AppendReply)
      requires Valid() && peer in next && m.prevIndex + |m.entries| < INDEX_BOUND
      modifies this`term, this`role, this`leader, this`votedFor, this`commit, this`next, this`matched, db
      ensures Valid() && State() == Protocol.HandleAppendReply(old(State()), peer, m, r).(commit := commit)
      ensures if CountsCopies(old(State()), m, r) then Advanced(State().(commit := old(commit)), commit) else commit == old(commit)
    {
      hide Layout, LogOf, MetaTyped, Protocol.QuorumIndex, Protocol.Held, Advanced;
      if role != Leader {
        return;
      }
      if r.term > term {
        BecomeFollower(r.term, None);
        SaveTerm();
        SaveVote();
      } else if r.success {
        if |m.entries| > 0 {
          TakeSuccess(peer, m);
        }
      } else {
        var current: nat := next[peer];
        var adjust := Min(r.lastIndex + 1, current - 1);
        if adjust > 0 {
          next := next[peer := adjust];
        }
      }
    }

    method TakeSuccess(peer: NodeId, m: AppendRequest)
      requires Valid() && peer in next && m.prevIndex + |m.entries| < INDEX_BOUND && m.entries != []
      modifies this`commit, this`next, this`matched, db
      ensures Valid()
      ensures State() == old(State()).(matched := old(matched)[peer := m.prevIndex + |m.entries|],
                                       next := old(next)[peer := m.prevIndex + |m.entries| + 1], commit := commit)
      ensures if LastTerm(m.entries) == term then Advanced(State().(commit := old(commit)), commit) else commit == old(commit)
    {
      hide Layout, LogOf, MetaTyped, Protocol.QuorumIndex, Protocol.Held;
      matched := matched[peer := m.prevIndex + |m.entries|];
      if m.entries[|m.entries| - 1].term == term {
        AdvanceLeaderCommitIndex();
      }
      next := next[peer := m.prevIndex + |m.entries| + 1];
    }

    // ---------------------------------------------------------------- clients

    /** The first part of ExecuteCommand: the entry is appended in the current term; `ok` is the outcome
        of the write.  The result is None where an error is reported.  A failed write goes unnoticed
        unless the log is empty: the code tests the returned index, which is then still positive. */
    method ExecuteCommand(op: Op, ok: bool) returns (index: Option<nat>)
      requires Valid() && log.last + 1 < INDEX_BOUND
      modifies log, db
      ensures Valid()
      ensures ok ==> State() == Protocol.ClientAppend(old(State()), op) && index == Some(log.last)
      ensures ok ==> log.Contents() == old(log.Contents()) + [Entry(term, op)]
      ensures !ok ==> State() == old(State()) && (index.None? <==> old(log.Contents()) == [])
    {
      hide Layout, LogOf, MetaTyped;
      var last := AppendEntries([Entry(term, op)], ok);
      index := if last <= 0 then None else Some(last);
    }

    // ---------------------------------------------------------------- apply

    /** Applies everything up to the commit index.  `failAt` is the index of an entry whose application
        fails; then nothing is recorded, and the entries before it are applied again later. */
    method ApplyStateMachine(failAt: Option<nat>, clock: nat -> nat) returns (done: bool)
      requires Valid() && commit <= log.last
      modifies this`applied, table, db
      ensures Valid() && done == !(failAt.Some? && old(applied) < failAt.value <= commit)
      ensures State() == if done then Protocol.ApplyCommitted(old(State())) else old(State())
      ensures applied == if done && old(applied) < commit then commit else old(applied)
      ensures old(applied) >= commit ==> done && table.kv == old(table.kv)
      ensures table.kv == ApplyRange(old(table.kv), old(log.Contents()), old(applied), if done then commit else failAt.value - 1, clock)
    {
      hide Layout, LogOf, MetaTyped;
      if applied >= commit {
        return true;
      }
      done := ApplyEntries(log, table, applied, commit, failAt, clock);
      if done {
        applied := commit;
        SaveApplied();
      }
    }

    /** The loop of ApplyStateMachine: the entries after index `first` up to `target`. */
    static method ApplyEntries(log: RaftLog, table: Table, first: nat, target: nat, failAt: Option<nat>, clock: nat -> nat) returns (done: bool)
      requires log.Valid() && first < target <= log.last
      modifies table
      ensures done == !(failAt.Some? && first < failAt.value <= target)
      ensures table.kv == ApplyRange(old(table.kv), log.Contents(), first, if done then target else failAt.value - 1, clock)
    {
      BoundFits();
      assert log.last < INDEX_BOUND;
      ghost var was := log.Contents();
      assert ApplyRange(table.kv, was, first, first, clock) == table.kv;
      hide Layout, LogOf, Power, ApplyOp, ApplyRange;
      var last := first;
      while last < target
        invariant first <= last <= target
        invariant failAt.Some? && first < failAt.value <= target ==> last < failAt.value
        invariant table.kv == ApplyRange(old(table.kv), was, first, last, clock)
      {
        last := last + 1;
        RangeStep(old(table.kv), was, first, last, clock);
        var entry := log.GetEntry(last);
        if failAt == Some(last) {
          return false;
        }
        table.kv := ApplyOp(table.kv, entry.value.op, clock(last));
      }
      done := true;
    }
  }

  /** The entries from `first` up to `index` are in the batch, which goes on. */
  ghost predicate Collected(limits: Protocol.Limits, log: Log, first: Protocol.Pos, index: Protocol.Pos, entries: seq<Entry>, bytes: nat) {
    && index == first + |entries| && (entries == [] || index <= |log| + 1) && entries == CopyOf(log, first, index)
    && Protocol.BatchLen(limits, log, first) == |entries| + Protocol.BatchFrom(limits, log, index, |entries|, bytes)
  }

  lemma CollectedNone(limits: Protocol.Limits, log: Log, first: Protocol.Pos)
    ensures Collected(limits, log, first, first, [], limits.header)
  {
  }

  lemma CollectedMore(limits: Protocol.Limits, log: Log, first: Protocol.Pos, index: Protocol.Pos, entries: seq<Entry>, bytes: nat)
    requires Collected(limits, log, first, index, entries, bytes) && index <= |log|
    ensures var more, entries' := bytes + limits.bytes(log[index - 1]), entries + [log[index - 1]];
      if |entries'| >= limits.countOnce || more >= limits.sizeOnce then
        |entries'| == Protocol.BatchLen(limits, log, first) && entries' == CopyOf(log, first, first + |entries'|)
      else Collected(limits, log, first, index + 1, entries', more)
  {
  }

  lemma CollectedAll(limits: Protocol.Limits, log: Log, first: Protocol.Pos, index: Protocol.Pos, entries: seq<Entry>, bytes: nat)
    requires Collected(limits, log, first, index, entries, bytes) && index > |log|
    ensures |entries| == Protocol.BatchLen(limits, log, first) && entries == CopyOf(log, first, first + |entries|)
  {
  }

  lemma RequestIs(limits: Protocol.Limits, n: Protocol.Node, self: NodeId, first: Protocol.Pos, prevTerm: nat, entries: seq<Entry>)
    requires prevTerm == if first - 1 <= |n.log| then TermAt(n.log, first - 1) else 0
    requires |entries| == Protocol.BatchLen(limits, n.log, first) && entries == CopyOf(n.log, first, first + |entries|)
    ensures Protocol.AppendRequestOf(limits, n, self, first) == AppendRequest(self, n.term, first - 1, prevTerm, n.commit, entries)
  {
    Protocol.BatchBounds(limits, n.log, first, 0, limits.header);
  }

  lemma PeersReset(next: map<NodeId, Protocol.Pos>, next': map<NodeId, Protocol.Pos>, matched: map<NodeId, nat>, matched': map<NodeId, nat>, v: Protocol.Pos)
    requires next'.Keys == next.Keys && matched'.Keys == matched.Keys == next.Keys
    requires forall p | p in next' :: next'[p] == v && matched'[p] == 0
    ensures next' == (map p | p in next :: v) && matched' == (map p | p in matched :: 0)
  {
  }

  /** The entries of a log from index `first` up to, but not including, `index`. */
  ghost function CopyOf(log: Log, first: nat, index: nat): Log
    requires 1 <= first <= index
  {
    if index <= |log| + 1 then log[first - 1..index - 1] else []
  }
}
