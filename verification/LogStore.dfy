/** The objects of the log store: the key-value store itself, the log and the meta data that share it. */
module LogStore {
  import opened Types
  import opened Keys
  import opened Disk

  /** An ordered key-value store.  Its write batches are atomic. */
  class Store {
    var kv: Db

    constructor ()
      ensures kv == map[]
    {
      kv := map[];
    }
  }

  class RaftLog {
    const db: Store
    /** Index of the last entry, kept in memory only. */
    var last: nat

    ghost predicate Valid()
      reads this, db
    {
      Layout(db.kv, last)
    }

    /** The log as a plain sequence. */
    ghost function Contents(): (log: Log)
      requires Valid()
      reads this, db
      ensures |log| == last
    {
      LogOf(db.kv, last)
    }

    /** Opening finds the log that an earlier run left behind, the only last index that fits the store,
        exactly when the log is empty or no meta key is missing. */
    constructor (db: Store)
      requires exists n: nat :: Layout(db.kv, n)
      ensures this.db == db && (Valid() <==> Layout(db.kv, 0) || META_KEYS <= db.kv.Keys)
    {
      this.db := db;
      last := 0;
      new;
      ghost var n: nat :| Layout(db.kv, n);
      ReopenExactly(db.kv, n);
      last := RecoverLast(db.kv);
      if Layout(db.kv, 0) { LayoutUnique(db.kv, 0, n); }
      if Valid() { LayoutUnique(db.kv, last, n); }
    }

    /** The last key, then five back. */
    static method RecoverLast(kv: Db) returns (n: nat)
      requires forall k | k in kv :: |k| >= 8
      ensures n == Reopened(kv)
    {
      var it := Last(kv.Keys);
      if it.None? {
        NoneStays(kv.Keys, 5);
        return 0;
      }
      var i := 0;
      while i < 5
        invariant i <= 5 && BackFrom(kv.Keys, it, 5 - i) == BackFrom(kv.Keys, Last(kv.Keys), 5)
        invariant it.Some? ==> it.value in kv.Keys
      {
        it := Prev(kv.Keys, it);
        i := i + 1;
      }
      n := if it.Some? then KeyIndex(it.value) else 0;
    }

    /** `ok` is the outcome of the write.  A failed append changes nothing. */
    method Append(entries: seq<Entry>, ok: bool) returns (r: nat)
      requires Valid() && last + |entries| < INDEX_BOUND
      modifies this, db
      ensures Valid() && r == last && MetaOf(db.kv) == old(MetaOf(db.kv))
      ensures Contents() == old(Contents()) + if ok then entries else []
      ensures !ok ==> db.kv == old(db.kv)
      ensures OnDisk(db.kv, last) == DiskStep(OnDisk(old(db.kv), old(last)), AppendOp(entries, ok))
    {
      var batch: Db := map[];
      var i := 0;
      while i < |entries|
        invariant i <= |entries| && last == old(last) + i && db.kv == old(db.kv)
        invariant batch == Batch(old(last), entries[..i])
      {
        last := last + 1;
        batch := batch[IndexKey(last) := LogEntry(entries[i])];
        i := i + 1;
        assert entries[..i][..i - 1] == entries[..i - 1];
      }
      assert entries[..i] == entries;
      if ok {
        db.kv := db.kv + batch;
        AppendLayout(old(db.kv), old(last), entries);
      } else {
        last := last - |entries|;
      }
      r := last;
    }

    method GetLastLogIndex() returns (r: nat)
      requires Valid()
      ensures r == |Contents()|
    {
      r := last;
    }

    method GetEntry(index: nat) returns (r: Option<Entry>)
      requires Valid() && index < Power(8)
      ensures r == if 1 <= index <= |Contents()| then Some(Contents()[index - 1]) else None
    {
      BoundFits();
      KeyNotMeta(index);
      assert IndexKey(index) in db.kv ==> 1 <= index <= last by {
        if IndexKey(index) in db.kv {
          assert IndexKey(index) in IndexKeySet(last);
          var i: nat :| 1 <= i <= last && IndexKey(index) == IndexKey(i);
          if i != index { KeyApart(i, index); }
        }
      }
      if IndexKey(index) in db.kv {
        r := Some(db.kv[IndexKey(index)].entry);
      } else {
        r := None;
      }
    }

    method GetLastLogTermAndIndex() returns (term: nat, index: nat)
      requires Valid()
      ensures term == LastTerm(Contents()) && index == |Contents()|
    {
      if last == 0 {
        return 0, 0;
      }
      term, index := db.kv[IndexKey(last)].entry.term, last;
    }

    /** Removes the entries from `index` on; `ok` is the outcome of the write.  A failed truncation has
        already lowered the last index in memory, so the store keeps entries that the log has forgotten. */
    method TruncateSuffix(index: nat, ok: bool) returns (r: int)
      requires Valid() && index >= 1
      modifies this, db
      ensures last == Min(old(last), index - 1)
      ensures r == if ok || old(last) < index then 0 else -1
      ensures r == 0 ==> Valid() && Contents() == old(Contents())[..last] && MetaOf(db.kv) == old(MetaOf(db.kv))
      ensures r != 0 ==> db.kv == old(db.kv) && !Valid()
      ensures r == 0 ==> OnDisk(db.kv, last) == DiskStep(OnDisk(old(db.kv), old(last)), TruncateOp(index))
    {
      var batch: set<Key> := {};
      while last >= index
        invariant Min(old(last), index - 1) <= last <= old(last) && db.kv == old(db.kv)
        invariant batch + Suffix(index, last) == Suffix(index, old(last))
        invariant last == old(last) <==> batch == {}
        decreases last
      {
        batch := batch + {IndexKey(last)};
        last := last - 1;
      }
      TruncateLayout(old(db.kv), old(last), index);
      if batch != {} {
        if !ok {
          if Valid() { LayoutUnique(db.kv, last, old(last)); }
          return -1;
        }
        db.kv := db.kv - batch;
      }
      return 0;
    }
  }

  class RaftMeta {
    const db: Store

    ghost predicate Valid()
      reads this, db
    {
      MetaTyped(db.kv)
    }

    ghost function Term(): nat
      requires Valid()
      reads this, db
    {
      WordAt(db.kv, CURRENT_TERM_KEY)
    }

    ghost function Commit(): nat
      requires Valid()
      reads this, db
    {
      WordAt(db.kv, COMMIT_INDEX_KEY)
    }

    ghost function Applied(): nat
      requires Valid()
      reads this, db
    {
      WordAt(db.kv, LAST_APPLIED_KEY)
    }

    ghost function Vote(): (string, int)
      requires Valid()
      reads this, db
    {
      VoteAt(db.kv)
    }

    constructor (db: Store)
      ensures this.db == db
    {
      this.db := db;
    }

    /** Afterwards all five keys exist, and no value has changed. */
    method Init()
      requires Valid()
      modifies db
      ensures Valid() && META_KEYS <= db.kv.Keys
      ensures Term() == old(Term()) && Commit() == old(Commit()) && Applied() == old(Applied()) && Vote() == old(Vote())
      ensures forall k | k !in META_KEYS :: SameAt(old(db.kv), db.kv, k)
      ensures old(META_KEYS <= db.kv.Keys) ==> db.kv == old(db.kv)
    {
      ghost var kv0 := db.kv;
      var term := GetCurrentTerm();
      if term == 0 {
        FillSame(db.kv, CURRENT_TERM_KEY, Word(0));
        SetCurrentTerm(0);
      }
      ghost var kv1 := Fill(kv0, CURRENT_TERM_KEY, Word(0));
      assert db.kv == kv1;
      var ip := GetVotedForIp();
      if ip == "" {
        FillSame(db.kv, VOTED_FOR_IP_KEY, Text(""));
        SetVotedForIp("");
      }
      ghost var kv2 := Fill(kv1, VOTED_FOR_IP_KEY, Text(""));
      assert db.kv == kv2;
      var port := GetVotedForPort();
      if port == 0 {
        FillSame(db.kv, VOTED_FOR_PORT_KEY, Port(0));
        SetVotedForPort(0);
      }
      ghost var kv3 := Fill(kv2, VOTED_FOR_PORT_KEY, Port(0));
      assert db.kv == kv3;
      var commit := GetCommitIndex();
      if commit == 0 {
        FillSame(db.kv, COMMIT_INDEX_KEY, Word(0));
        SetCommitIndex(0);
      }
      ghost var kv4 := Fill(kv3, COMMIT_INDEX_KEY, Word(0));
      assert db.kv == kv4;
      var applied := GetLastApplied();
      if applied == 0 {
        FillSame(db.kv, LAST_APPLIED_KEY, Word(0));
        SetLastApplied(0);
      }
      assert db.kv == Fill(kv4, LAST_APPLIED_KEY, Word(0));
      FillAll(kv0, kv1, kv2, kv3, kv4, db.kv);
    }

    method GetCurrentTerm() returns (r: nat)
      requires Valid()
      ensures r == Term() && (CURRENT_TERM_KEY !in db.kv ==> r == 0)
    {
      if CURRENT_TERM_KEY !in db.kv { return 0; }
      r := db.kv[CURRENT_TERM_KEY].number;
    }

    method SetCurrentTerm(term: nat)
      requires Valid()
      modifies db
      ensures db.kv == old(db.kv)[CURRENT_TERM_KEY := Word(term)] && Valid()
    {
      MetaDistinct();
      db.kv := db.kv[CURRENT_TERM_KEY := Word(term)];
    }

    method GetVotedForIp() returns (r: string)
      requires Valid()
      ensures r == Vote().0 && (VOTED_FOR_IP_KEY in db.kv ==> r == db.kv[VOTED_FOR_IP_KEY].text)
    {
      if VOTED_FOR_IP_KEY !in db.kv { return ""; }
      r := db.kv[VOTED_FOR_IP_KEY].text;
    }

    method SetVotedForIp(ip: string)
      requires Valid()
      modifies db
      ensures db.kv == old(db.kv)[VOTED_FOR_IP_KEY := Text(ip)] && Valid()
    {
      MetaDistinct();
      db.kv := db.kv[VOTED_FOR_IP_KEY := Text(ip)];
    }

    method GetVotedForPort() returns (r: int)
      requires Valid()
      ensures r == Vote().1 && (VOTED_FOR_PORT_KEY in db.kv ==> r == db.kv[VOTED_FOR_PORT_KEY].port)
    {
      if VOTED_FOR_PORT_KEY !in db.kv { return 0; }
      r := db.kv[VOTED_FOR_PORT_KEY].port;
    }

    method SetVotedForPort(port: int)
      requires Valid()
      modifies db
      ensures db.kv == old(db.kv)[VOTED_FOR_PORT_KEY := Port(port)] && Valid()
    {
      MetaDistinct();
      db.kv := db.kv[VOTED_FOR_PORT_KEY := Port(port)];
    }

    method GetCommitIndex() returns (r: nat)
      requires Valid()
      ensures r == Commit() && (COMMIT_INDEX_KEY !in db.kv ==> r == 0)
    {
      if COMMIT_INDEX_KEY !in db.kv { return 0; }
      r := db.kv[COMMIT_INDEX_KEY].number;
    }

    method SetCommitIndex(commit: nat)
      requires Valid()
      modifies db
      ensures db.kv == old(db.kv)[COMMIT_INDEX_KEY := Word(commit)] && Valid()
    {
      MetaDistinct();
      db.kv := db.kv[COMMIT_INDEX_KEY := Word(commit)];
    }

    method GetLastApplied() returns (r: nat)
      requires Valid()
      ensures r == Applied() && (LAST_APPLIED_KEY !in db.kv ==> r == 0)
    {
      if LAST_APPLIED_KEY !in db.kv { return 0; }
      r := db.kv[LAST_APPLIED_KEY].number;
    }

    method SetLastApplied(applied: nat)
      requires Valid()
      modifies db
      ensures db.kv == old(db.kv)[LAST_APPLIED_KEY := Word(applied)] && Valid()
    {
      MetaDistinct();
      db.kv := db.kv[LAST_APPLIED_KEY := Word(applied)];
    }
  }
}
