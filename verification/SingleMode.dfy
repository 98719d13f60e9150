/** Single mode: one server without peers, any number of client threads and the apply thread, in every
    interleaving.  A client appends its command, writes the commit index, waits until its entry is
    applied and then reads the store; these are separate steps, so commit writes can race. */
module SingleMode {
  import opened Types
  import opened StateMachine

  datatype Phase = Appended | Committed | Answered(value: Option<Cell>) | GaveUp

  /** A client thread: its command, the index of its entry and how far it has come. */
  datatype Client = Client(op: Op, index: nat, phase: Phase)

  /** The apply thread: between rounds, or in a round that has applied the entries up to `pos`. */
  datatype Applier = Idle | Busy(pos: nat, target: nat)

  datatype Server = Server(log: seq<Op>, commit: nat, applied: nat, kv: Kv, applier: Applier, clients: map<nat, Client>)

  datatype Step =
    | Issue(id: nat, op: Op)
    | SetCommit(id: nat)
    | Answer(id: nat)
    | GiveUp(id: nat)
    | ApplyBegin
    | ApplyOne
    | ApplyEnd

  const START: Server := Server([], 0, 0, map[], Idle, map[])

  predicate Enabled(s: Server, step: Step) {
    match step
    case Issue(id, op) => id !in s.clients && IsKv(op)
    case SetCommit(id) => id in s.clients && s.clients[id].phase == Appended
    case Answer(id) => id in s.clients && s.clients[id].phase == Committed && s.clients[id].index <= s.applied
    case GiveUp(id) => id in s.clients && s.clients[id].phase == Committed
    case ApplyBegin => s.applier == Idle
    case ApplyOne => s.applier.Busy? && s.applier.pos < s.applier.target
    case ApplyEnd => s.applier.Busy? && s.applier.pos == s.applier.target
  }

  /** What a command is told: a read gets the value that the store holds at that moment. */
  function Reply(kv: Kv, op: Op): Option<Cell> {
    if op.Read? then Lookup(kv, op.key) else None
  }

  function Do(s: Server, step: Step): Server
    requires Enabled(s, step)
  {
    match step
    case Issue(id, op) =>
      s.(log := s.log + [op], clients := s.clients[id := Client(op, |s.log| + 1, Appended)])
    case SetCommit(id) =>
      s.(commit := s.clients[id].index, clients := s.clients[id := s.clients[id].(phase := Committed)])
    case Answer(id) =>
      s.(clients := s.clients[id := s.clients[id].(phase := Answered(Reply(s.kv, s.clients[id].op)))])
    case GiveUp(id) => s.(clients := s.clients[id := s.clients[id].(phase := GaveUp)])
    case ApplyBegin => if s.applied >= s.commit then s else s.(applier := Busy(s.applied, s.commit))
    case ApplyOne =>
      var pos := s.applier.pos;
      if pos < |s.log| then s.(kv := ApplyOp(s.kv, s.log[pos], 0), applier := s.applier.(pos := pos + 1)) else s
    case ApplyEnd => s.(applied := s.applier.pos, applier := Idle)
  }

  ghost predicate IsRun(states: seq<Server>, steps: seq<Step>) {
    && |states| == |steps| + 1 && states[0] == START
    && forall i: nat | i < |steps| :: Enabled(states[i], steps[i]) && states[i + 1] == Do(states[i], steps[i])
  }

  // ---------------------------------------------------------------- invariant

  /** How many entries the store reflects at this moment. */
  function Position(s: Server): nat { if s.applier.Busy? then s.applier.pos else s.applied }

  ghost predicate ClientGood(s: Server, c: Client) {
    1 <= c.index <= |s.log| && s.log[c.index - 1] == c.op
  }

  ghost predicate Inv(s: Server) {
    && s.commit <= |s.log| && s.applied <= Position(s) <= |s.log|
    && (s.applier.Busy? ==> s.applier.pos <= s.applier.target <= |s.log|)
    && s.kv == ApplyAll(map[], s.log[..Position(s)])
    && (forall id | id in s.clients :: ClientGood(s, s.clients[id]))
  }

  lemma StepKeepsInv(s: Server, step: Step)
    requires Inv(s) && Enabled(s, step)
    ensures Inv(Do(s, step)) && s.log <= Do(s, step).log && s.applied <= Do(s, step).applied
  {
    StepKeepsClients(s, step);
    if step.ApplyOne? { OneMore(s.log, s.applier.pos); }
    if step.Issue? { assert Do(s, step).log[..Position(s)] == s.log[..Position(s)]; }
    if step.SetCommit? { assert ClientGood(s, s.clients[step.id]); }
    hide ApplyOp, ApplyAll, ClientGood;
  }

  lemma StepKeepsClients(s: Server, step: Step)
    requires Inv(s) && Enabled(s, step)
    ensures forall id | id in Do(s, step).clients :: ClientGood(Do(s, step), Do(s, step).clients[id])
  {
    hide ApplyOp, ApplyAll;
    var s' := Do(s, step);
    forall id | id in s'.clients ensures ClientGood(s', s'.clients[id]) {
      if id in s.clients { assert ClientGood(s, s.clients[id]); }
    }
  }

  lemma OneMore(log: seq<Op>, pos: nat)
    requires pos < |log|
    ensures ApplyAll(map[], log[..pos + 1]) == ApplyOp(ApplyAll(map[], log[..pos]), log[pos], 0)
  {
    assert log[..pos + 1][..pos] == log[..pos];
  }

  lemma {:induction false} RunInv(states: seq<Server>, steps: seq<Step>, i: nat)
    requires IsRun(states, steps) && i <= |steps|
    ensures Inv(states[i])
  {
    if i > 0 {
      RunInv(states, steps, i - 1);
      StepKeepsInv(states[i - 1], steps[i - 1]);
    }
  }

  /** What a client's own steps do: an answer gives a read the value of its key and a write nothing, and like
      giving up it changes this client only. */
  lemma ClientStepsOutcome(s: Server, step: Step)
    requires Enabled(s, step) && (step.Answer? || step.GiveUp?)
    ensures var c, c' := s.clients[step.id], Do(s, step).clients[step.id];
      && c'.op == c.op && c'.index == c.index
      && c'.phase == (if step.GiveUp? then GaveUp
                      else if c.op.Read? then Answered(if c.op.key in s.kv then Some(s.kv[c.op.key]) else None)
                      else Answered(None))
      && Do(s, step) == s.(clients := s.clients[step.id := c'])
  {
  }

  /** The log only grows, and clients keep their commands. */
  ghost predicate Grew(s: Server, s': Server) {
    && s.log <= s'.log
    && forall id | id in s.clients ::
         id in s'.clients && s'.clients[id].op == s.clients[id].op && s'.clients[id].index == s.clients[id].index
  }

  lemma StepGrows(s: Server, step: Step)
    requires Enabled(s, step)
    ensures Grew(s, Do(s, step))
  {
  }

  lemma GrewTrans(a: Server, b: Server, c: Server)
    requires Grew(a, b) && Grew(b, c)
    ensures Grew(a, c)
  {
  }

  lemma {:induction false} RunGrows(states: seq<Server>, steps: seq<Step>, i: nat, j: nat)
    requires IsRun(states, steps) && i <= j <= |steps|
    ensures Grew(states[i], states[j])
    decreases j
  {
    if i < j {
      hide Do, Enabled;
      RunGrows(states, steps, i, j - 1);
      StepGrows(states[j - 1], steps[j - 1]);
      GrewTrans(states[i], states[j - 1], states[j]);
    }
  }

  // ---------------------------------------------------------------- linearizability

  /** A read that is answered gets the key's value after a prefix of the log that contains its own entry.
      The prefix stays a prefix of the log for the rest of the run. */
  lemma ReadSeesPrefix(states: seq<Server>, steps: seq<Step>, i: nat, j: nat, id: nat, key: string)
    requires IsRun(states, steps) && i < |steps| && i <= j <= |steps| && steps[i] == Answer(id)
    requires states[i].clients[id].op == Read(key)
    ensures var k := Position(states[i]);
      && states[i].clients[id].index <= k <= |states[j].log|
      && states[i + 1].clients[id].phase == Answered(Lookup(ApplyAll(map[], states[j].log[..k]), key))
  {
    RunInv(states, steps, i);
    RunGrows(states, steps, i, j);
    assert states[j].log[..Position(states[i])] == states[i].log[..Position(states[i])];
  }

  /** Real-time order: when a is answered before b is issued, everything the answer to a can have seen,
      its own entry included, comes before b's entry. */
  lemma AnsweredBeforeIssued(states: seq<Server>, steps: seq<Step>, i: nat, j: nat, a: nat)
    requires IsRun(states, steps) && i < j < |steps| && steps[i] == Answer(a) && steps[j].Issue?
    ensures states[i].clients[a].index <= Position(states[i]) < states[j + 1].clients[steps[j].id].index
  {
    RunInv(states, steps, i);
    RunGrows(states, steps, i, j);
  }

  lemma IssuedAt(states: seq<Server>, steps: seq<Step>, j: nat)
    requires IsRun(states, steps) && j < |steps| && steps[j].Issue?
    ensures steps[j].id in states[j + 1].clients && states[j + 1].clients[steps[j].id].op == steps[j].op
  {
  }

  /** A client's entry stays at its index. */
  lemma ClientKeeps(states: seq<Server>, steps: seq<Step>, i: nat, k: nat, a: nat)
    requires IsRun(states, steps) && i <= k <= |steps| && a in states[i].clients
    ensures var c := states[i].clients[a];
      1 <= c.index <= |states[k].log| && states[k].log[c.index - 1] == c.op
  {
    hide Do, Enabled, ApplyAll;
    RunInv(states, steps, i);
    RunGrows(states, steps, i, k);
    assert ClientGood(states[i], states[i].clients[a]);
  }

  /** Reads linearize: a read b that is issued after a was answered sees a prefix of the log that
      contains a's entry, and, if a was itself a read, all that a saw. */
  lemma ReadsLinearize(states: seq<Server>, steps: seq<Step>, i: nat, j: nat, k: nat, a: nat, key: string)
    requires IsRun(states, steps) && i < j < k < |steps|
    requires steps[i] == Answer(a) && steps[j].Issue? && steps[j].op == Read(key) && steps[k] == Answer(steps[j].id)
    ensures var seen := Position(states[k]);
      && 1 <= states[i].clients[a].index <= Position(states[i]) < seen <= |states[k].log|
      && states[k].log[states[i].clients[a].index - 1] == states[i].clients[a].op
      && states[k + 1].clients[steps[j].id].phase == Answered(Lookup(ApplyAll(map[], states[k].log[..seen]), key))
  {
    hide ApplyAll, ApplyOp, Position;
    AnsweredBeforeIssued(states, steps, i, j, a);
    IssuedAt(states, steps, j);
    ClientKeeps(states, steps, i, k, a);
    hide Do;
    RunGrows(states, steps, j + 1, k);
    ReadSeesPrefix(states, steps, k, k, steps[j].id, key);
  }

  /** In any state, a step lowers the commit index exactly when a client writes an index that is smaller. */
  lemma CommitFallsExactly(s: Server, step: Step)
    requires Enabled(s, step)
    ensures Do(s, step).commit < s.commit <==> step.SetCommit? && s.clients[step.id].index < s.commit
  {
  }

  /** The commit index is what the last write says. */
  lemma {:induction false} CommitWasWritten(states: seq<Server>, steps: seq<Step>, i: nat) returns (j: nat)
    requires IsRun(states, steps) && i <= |steps| && states[i].commit > 0
    ensures j < i && steps[j].SetCommit? && states[j].clients[steps[j].id].index == states[i].commit
    ensures forall x: nat | j < x < i :: !steps[x].SetCommit?
    decreases i
  {
    if steps[i - 1].SetCommit? {
      j := i - 1;
    } else {
      j := CommitWasWritten(states, steps, i - 1);
    }
  }

  /** The commit index falls in a run at step i if and only if two clients write out of order: the last
      write before came from a client with a greater index. */
  lemma CommitFallsOutOfOrder(states: seq<Server>, steps: seq<Step>, i: nat)
    requires IsRun(states, steps) && i < |steps|
    ensures states[i + 1].commit < states[i].commit <==> OutOfOrder(states, steps, i)
  {
    CommitFallsExactly(states[i], steps[i]);
    if states[i].commit > 0 {
      var j := CommitWasWritten(states, steps, i);
      if states[i + 1].commit < states[i].commit { assert WriteAfter(states, steps, j, i); }
    }
    if OutOfOrder(states, steps, i) {
      var j: nat :| WriteAfter(states, steps, j, i);
      LastWriteStands(states, steps, j, i);
    }
  }

  /** The writes at j and i follow each other directly, and the later one is smaller. */
  ghost predicate WriteAfter(states: seq<Server>, steps: seq<Step>, j: nat, i: nat)
    requires IsRun(states, steps) && i < |steps|
  {
    && j < i && steps[j].SetCommit? && steps[i].SetCommit?
    && (forall x: nat | j < x < i :: !steps[x].SetCommit?)
    && states[i].clients[steps[i].id].index < states[j].clients[steps[j].id].index
  }

  ghost predicate OutOfOrder(states: seq<Server>, steps: seq<Step>, i: nat)
    requires IsRun(states, steps) && i < |steps|
  {
    exists j: nat :: WriteAfter(states, steps, j, i)
  }

  lemma {:induction false} LastWriteStands(states: seq<Server>, steps: seq<Step>, j: nat, i: nat)
    requires IsRun(states, steps) && j < i <= |steps| && steps[j].SetCommit?
    requires forall x: nat | j < x < i :: !steps[x].SetCommit?
    ensures states[i].commit == states[j].clients[steps[j].id].index
    decreases i
  {
    if j < i - 1 { LastWriteStands(states, steps, j, i - 1); }
  }

  /** The commit index can go backwards: two clients append, and the one that came first writes last. */
  lemma CommitCanGoBack() returns (states: seq<Server>, steps: seq<Step>)
    ensures IsRun(states, steps) && |steps| == 4 && states[3].commit == 2 && states[4].commit == 1
  {
    var op := Read("");
    steps := [Issue(0, op), Issue(1, op), SetCommit(1), SetCommit(0)];
    var s1 := Do(START, steps[0]);
    var s2 := Do(s1, steps[1]);
    var s3 := Do(s2, steps[2]);
    states := [START, s1, s2, s3, Do(s3, steps[3])];
  }

  // ---------------------------------------------------------------- progress

  ghost predicate Path(states: seq<Server>, steps: seq<Step>) {
    && |states| == |steps| + 1
    && forall i: nat | i < |steps| :: Enabled(states[i], steps[i]) && states[i + 1] == Do(states[i], steps[i])
  }

  /** Steps of the apply thread only. */
  ghost predicate ApplySteps(steps: seq<Step>) {
    forall i: nat | i < |steps| :: steps[i].ApplyBegin? || steps[i].ApplyOne? || steps[i].ApplyEnd?
  }

  /** Nothing that the clients see or write has changed. */
  ghost predicate SameClients(s: Server, s': Server) {
    s'.log == s.log && s'.commit == s.commit && s'.clients == s.clients
  }

  /** A round under way runs to its target. */
  lemma {:induction false} FinishRound(s: Server) returns (states: seq<Server>, steps: seq<Step>)
    requires Inv(s) && s.applier.Busy?
    ensures Path(states, steps) && states[0] == s && ApplySteps(steps) && |steps| == s.applier.target - s.applier.pos + 1
    ensures var s' := states[|steps|];
      Inv(s') && SameClients(s, s') && s'.applier == Idle && s'.applied == s.applier.target
    decreases s.applier.target - s.applier.pos
  {
    var step := if s.applier.pos == s.applier.target then ApplyEnd else ApplyOne;
    StepKeepsInv(s, step);
    var s1 := Do(s, step);
    if s.applier.pos == s.applier.target {
      states, steps := [s, s1], [step];
    } else {
      var rest, more := FinishRound(s1);
      states, steps := [s] + rest, [step] + more;
      PathCons(s, step, rest, more);
    }
  }

  lemma PathCons(s: Server, step: Step, rest: seq<Server>, more: seq<Step>)
    requires Path(rest, more) && Enabled(s, step) && rest[0] == Do(s, step)
    ensures Path([s] + rest, [step] + more)
  {
    var states, steps := [s] + rest, [step] + more;
    forall i: nat | i < |steps| ensures Enabled(states[i], steps[i]) && states[i + 1] == Do(states[i], steps[i]) {
      if i > 0 { assert states[i] == rest[i - 1] && steps[i] == more[i - 1] && states[i + 1] == rest[i]; }
    }
  }

  /** From every reachable state with an idle apply thread and applied < commit, one round of the apply thread
      leads to applied == commit, and then the answer of every waiting client up to it is enabled. */
  lemma OneRoundApplies(states: seq<Server>, steps: seq<Step>, i: nat) returns (rest: seq<Server>, more: seq<Step>)
    requires IsRun(states, steps) && i <= |steps| && states[i].applier == Idle && states[i].applied < states[i].commit
    ensures Path(rest, more) && rest[0] == states[i] && ApplySteps(more) && |more| == states[i].commit - states[i].applied + 2
    ensures var s' := rest[|more|];
      && SameClients(states[i], s') && s'.applied == s'.commit && s'.applier == Idle
      && forall id | id in s'.clients && s'.clients[id].phase == Committed && s'.clients[id].index <= s'.commit :: Enabled(s', Answer(id))
  {
    var s := states[i];
    RunInv(states, steps, i);
    StepKeepsInv(s, ApplyBegin);
    rest, more := FinishRound(Do(s, ApplyBegin));
    PathCons(s, ApplyBegin, rest, more);
    rest, more := [s] + rest, [ApplyBegin] + more;
  }

  /** A round that is under way ends, from every reachable state, at its target. */
  lemma RoundEnds(states: seq<Server>, steps: seq<Step>, i: nat) returns (rest: seq<Server>, more: seq<Step>)
    requires IsRun(states, steps) && i <= |steps| && states[i].applier.Busy?
    ensures Path(rest, more) && rest[0] == states[i] && ApplySteps(more)
    ensures var s' := rest[|more|];
      SameClients(states[i], s') && s'.applier == Idle && s'.applied == states[i].applier.target
  {
    RunInv(states, steps, i);
    rest, more := FinishRound(states[i]);
  }
}
