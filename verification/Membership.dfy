/** The three views of the member set on one replica: the stored list, the set in the context and the
    peers, as membership entries change them. */
module Membership {
  import opened Types

  ghost predicate NoDuplicates(list: seq<string>) {
    forall i: nat, j: nat | i < j < |list| :: list[i] != list[j]
  }

  ghost function Names(list: seq<string>): set<string> { set s | s in list }

  /** Outcome of a change: an error where the list is missing from the store. */
  datatype Status = Ok | NotFound

  /** A server name is never empty; an empty string is what a removed slot of the list reads as. */
  ghost predicate ProperNames(list: seq<string>) { "" !in list }

  ghost predicate GoodList(list: seq<string>) { NoDuplicates(list) && ProperNames(list) }

  /** What removal leaves: the last name takes the place of the removed one. */
  function Removed(list: seq<string>, i: nat): seq<string>
    requires i < |list|
  {
    if i != |list| - 1 then list[i := list[|list| - 1]][..|list| - 1] else list[..|list| - 1]
  }

  /** Swapping with the last keeps the names apart and drops exactly one of them. */
  lemma RemovedDropsOne(list: seq<string>, i: nat)
    requires GoodList(list) && i < |list|
    ensures GoodList(Removed(list, i)) && Names(Removed(list, i)) == Names(list) - {list[i]}
  {
    var r := Removed(list, i);
    forall s | s in Names(list) - {list[i]} ensures s in Names(r) {
      var k: nat :| k < |list| && list[k] == s;
      assert r[if k == |list| - 1 then i else k] == s;
    }
    forall s | s in Names(r) ensures s in Names(list) - {list[i]} {
      var k: nat :| k < |r| && r[k] == s;
      assert s == list[if k == i then |list| - 1 else k];
    }
    assert "" !in Names(list);
    assert "" !in Names(r);
  }

  /** Position of a name, or the length of the list. */
  function Find(list: seq<string>, server: string): (i: nat)
    ensures i <= |list| && (i < |list| ==> list[i] == server) && forall j: nat | j < i :: list[j] != server
  {
    if list == [] then 0
    else
      var i := Find(list[..|list| - 1], server);
      if i < |list| - 1 || list[|list| - 1] == server then i else i + 1
  }

  /** The list after a change. */
  function Changed(list: seq<string>, server: string, add: bool): seq<string> {
    var i := Find(list, server);
    if i == |list| then (if add then list + [server] else list)
    else if add then list else Removed(list, i)
  }

  lemma ChangedNames(list: seq<string>, server: string, add: bool)
    requires GoodList(list) && server != ""
    ensures GoodList(Changed(list, server, add))
    ensures Names(Changed(list, server, add)) == if add then Names(list) + {server} else Names(list) - {server}
  {
    var i := Find(list, server);
    if i < |list| { RemovedDropsOne(list, i); }
  }

  /** An addition appends a name that is not there; a removal puts the last name in the removed one's place. */
  lemma ChangedExactly(list: seq<string>, server: string, add: bool)
    requires GoodList(list)
    ensures var after := Changed(list, server, add);
      && (add && server in list ==> after == list)
      && (add && server !in list ==> after == list + [server])
      && (!add && server !in list ==> after == list)
      && (!add && server in list ==>
            && |after| == |list| - 1
            && forall j: nat | j < |after| :: after[j] == if list[j] == server then list[|list| - 1] else list[j])
  {
    var i := Find(list, server);
    if i < |list| { assert server in list && forall j: nat | j < |list| && j != i :: list[j] != server; }
  }

  /** The three views of one replica. */
  datatype Views = Views(list: Option<seq<string>>, members: set<string>, peers: set<string>)

  /** What one membership entry does to them. */
  function Change(v: Views, self: string, server: string, add: bool): Views {
    if v.list.None? then v
    else if add then
      Views(Some(Changed(v.list.value, server, add)), v.members + {server}, if server == self then v.peers else v.peers + {server})
    else
      Views(Some(Changed(v.list.value, server, add)), v.members - {server}, if server == self then v.peers else v.peers - {server})
  }

  /** The stored list is free of duplicates, it is the context's set, and the peers are that set without
      this server. */
  ghost predicate InAgreement(v: Views, self: string) {
    v.list.Some? && GoodList(v.list.value) && Names(v.list.value) == v.members && v.peers == v.members - {self}
  }

  function ChangeAll(v: Views, self: string, changes: seq<(string, bool)>): Views {
    if changes == [] then v
    else
      var c := changes[|changes| - 1];
      Change(ChangeAll(v, self, changes[..|changes| - 1]), self, c.0, c.1)
  }

  /** Every sequence of membership entries keeps the views in agreement. */
  lemma {:induction false} ViewsAgree(v: Views, self: string, changes: seq<(string, bool)>)
    requires InAgreement(v, self) && forall i: nat | i < |changes| :: changes[i].0 != ""
    ensures InAgreement(ChangeAll(v, self, changes), self)
  {
    if changes != [] {
      var c := changes[|changes| - 1];
      var before := ChangeAll(v, self, changes[..|changes| - 1]);
      ViewsAgree(v, self, changes[..|changes| - 1]);
      ChangedNames(before.list.value, c.0, c.1);
    }
  }

  /** The last change that names a server, if any. */
  function LastChange(changes: seq<(string, bool)>, server: string): Option<bool> {
    if changes == [] then None
    else if changes[|changes| - 1].0 == server then Some(changes[|changes| - 1].1)
    else LastChange(changes[..|changes| - 1], server)
  }

  /** After any sequence of entries, a server is a member exactly when the last entry that names it adds it,
      or none names it and it was a member before; and the list holds exactly the members. */
  lemma {:induction false} LastChangeDecides(v: Views, self: string, changes: seq<(string, bool)>, server: string)
    requires InAgreement(v, self) && forall i: nat | i < |changes| :: changes[i].0 != ""
    ensures var v' := ChangeAll(v, self, changes);
      && v'.list.Some?
      && (server in v'.members <==>
            match LastChange(changes, server) case Some(added) => added case None => server in v.members)
      && (server in v'.list.value <==> server in v'.members) && (server in v'.peers <==> server in v'.members && server != self)
  {
    ViewsAgree(v, self, changes);
    assert server in Names(ChangeAll(v, self, changes).list.value) <==> server in ChangeAll(v, self, changes).list.value;
    if changes != [] { LastChangeDecides(v, self, changes[..|changes| - 1], server); ViewsAgree(v, self, changes[..|changes| - 1]); }
  }

  class Members {
    /** This server's own name. */
    const self: string
    /** The list in the state machine's store, if it is there. */
    var list: Option<seq<string>>
    /** The set in the context. */
    var members: set<string>
    /** The servers with a peer thread. */
    var peers: set<string>

    ghost function State(): Views
      reads this
    {
      Views(list, members, peers)
    }

    ghost predicate Valid()
      reads this
    {
      InAgreement(State(), self)
    }

    /** From a duplicate-free list, as at start-up. */
    constructor (self: string, nodes: seq<string>)
      requires GoodList(nodes)
      ensures Valid() && this.self == self && members == Names(nodes)
    {
      this.self := self;
      list := Some(nodes);
      members := set s | s in nodes;
      peers := (set s | s in nodes) - {self};
    }

    /** Edits the stored list in place.  The bound of the loop is the old length, so after a removal the
        last round reads a removed slot. */
    method MembershipChange(server: string, add: bool) returns (status: Status)
      requires list.Some? ==> GoodList(list.value)
      requires server != ""
      modifies this`list
      ensures status.NotFound? <==> old(list).None?
      ensures list == if old(list).None? then None else Some(Changed(old(list).value, server, add))
      ensures old(list).Some? && add ==> list.value == if server in old(list).value then old(list).value else old(list).value + [server]
      ensures old(list).Some? && !add ==> Names(list.value) == Names(old(list).value) - {server}
    {
      if list.Some? {
        ChangedExactly(list.value, server, add);
        ChangedNames(list.value, server, add);
      }
      if list.None? {
        return NotFound;
      }
      ghost var was := list.value;
      ghost var at := Find(was, server);
      var nodes := list.value;
      var count := |nodes|;
      var i := 0;
      while i < count
        invariant i <= count == |was| && list == old(list)
        invariant i <= at ==> nodes == was
        invariant i > at ==> !add && nodes == Removed(was, at)
      {
        var name := if i < |nodes| then nodes[i] else "";
        if i > at { RemovedDropsOne(was, at); }
        if name == server {
          if add {
            return Ok;
          }
          if i != count - 1 {
            nodes := nodes[i := nodes[count - 1]];
          }
          nodes := nodes[..|nodes| - 1];
        }
        i := i + 1;
      }
      if add {
        nodes := nodes + [server];
      }
      list := Some(nodes);
      status := Ok;
    }

    method AddNewPeer(server: string)
      modifies this`peers
      ensures peers == old(peers) + if server == self then {} else {server}
    {
      if server == self {
        return;
      }
      if server !in peers {
        peers := peers + {server};
      }
    }

    method RemoveOutPeer(server: string)
      modifies this`peers
      ensures peers == old(peers) - if server == self then {} else {server}
    {
      if server == self {
        return;
      }
      if server in peers {
        peers := peers - {server};
      }
    }

    /** The membership part of Apply.  Without a stored list it fails and changes nothing. */
    method Apply(server: string, add: bool) returns (status: Status)
      requires (list.Some? ==> GoodList(list.value)) && server != ""
      modifies this
      ensures State() == Change(old(State()), self, server, add)
      ensures old(Valid()) ==> Valid()
      ensures if old(list).None? then status == NotFound && State() == old(State()) else status == Ok && list.Some?
      ensures status == Ok ==> members == if add then old(members) + {server} else old(members) - {server}
      ensures status == Ok ==>
        Names(list.value) == if add then Names(old(list).value) + {server} else Names(old(list).value) - {server}
      ensures status == Ok ==>
        peers == if server == self then old(peers) else if add then old(peers) + {server} else old(peers) - {server}
    {
      if list.Some? { ChangedNames(list.value, server, add); }
      status := MembershipChange(server, add);
      if status == Ok {
        if add {
          members := members + {server};
          AddNewPeer(server);
        } else {
          members := members - {server};
          RemoveOutPeer(server);
        }
      }
    }
  }
}
