/** The values that travel through a Floyd cluster: node addresses, log entries and messages.
    They follow the messages of floyd/proto/floyd.proto; serialisation is taken as the identity. */
module Types {

  datatype Option<+T> = None | Some(value: T)

  /** A server is known by its address. */
  datatype NodeId = NodeId(ip: string, port: int)

  /** What an entry asks the state machine to do. */
  datatype Op =
    | Read(key: string)
    | Write(key: string, value: string)
    | Delete(key: string)
    | TryLock(key: string, holder: string, leaseEnd: nat)
    | UnLock(key: string, holder: string)
    | AddServer(server: string)
    | RemoveServer(server: string)
    | GetAllServers

  datatype Entry = Entry(term: nat, op: Op)

  /** A log as a plain sequence.  The entry at Raft index i (from 1) is log[i - 1]. */
  type Log = seq<Entry>

  datatype Role = Follower | Candidate | Leader

  datatype VoteRequest = VoteRequest(from: NodeId, to: NodeId, term: nat, lastTerm: nat, lastIndex: nat)

  /** `reqTerm` is the term of the request that this reply answers: the call is blocking,
      so the caller knows which request a reply belongs to. */
  datatype VoteReply = VoteReply(voter: NodeId, candidate: NodeId, reqTerm: nat, term: nat, granted: bool)

  datatype AppendRequest = AppendRequest(
    from: NodeId, term: nat, prevIndex: nat, prevTerm: nat, leaderCommit: nat, entries: seq<Entry>)

  datatype AppendReply = AppendReply(term: nat, success: bool, lastIndex: nat)

  function Min(a: nat, b: nat): nat { if a < b then a else b }

  function Max(a: nat, b: nat): nat { if a < b then b else a }

  /** Term of the last entry, 0 for an empty log. */
  function LastTerm(log: Log): nat { if |log| == 0 then 0 else log[|log| - 1].term }

  /** Term at a Raft index, 0 at index 0. */
  function TermAt(log: Log, index: nat): nat
    requires index <= |log|
  {
    if index == 0 then 0 else log[index - 1].term
  }

  /** The two logs hold the same entries at the indices 1..k. */
  ghost predicate Agree(a: Log, b: Log, k: nat) {
    k <= |a| && k <= |b| && a[..k] == b[..k]
  }

  lemma AgreeAt(a: Log, b: Log, k: nat, i: nat)
    requires Agree(a, b, k) && i < k
    ensures a[i] == b[i]
  {
    assert a[i] == a[..k][i];
  }

  lemma {:induction false} SubsetSize<T>(a: set<T>, b: set<T>)
    requires a <= b
    ensures |a| <= |b|
  {
    if x :| x in a { SubsetSize(a - {x}, b - {x}); }
  }
}
