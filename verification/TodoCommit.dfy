/**
 Changing an agent's todo ledger (`mutate_agent_todo` in
 crates/core/src/session.rs): changed on a copy, written, then made live; a
 failed automatic turn (crates/core/src/agent.rs) can undo a written change.
 */
module TodoCommit {
  import opened Prelude
  import opened TodoSpec
  import opened TodoSafety

  /** The live ledger, the one on disk, and the one a failed automatic turn goes back to. */
  datatype State = State(live: Ledger, disk: Ledger, checkpoint: Option<Ledger>)

  datatype Event =
    | Mutate(op: Op, saveOk: bool)
    | Save(saveOk: bool)
    | BeginTurn       // an automatic turn starts
    | Boundary        // its output or its tools' results are committed
    | EndTurn
    | FailTurn

  ghost predicate Enabled(s: State, e: Event) {
    match e
    case Mutate(op, _) => FreshFor(s.live, op) && (ActivePresent(s.live) || !op.Attach?)
    case BeginTurn => s.checkpoint.None?
    case Boundary => s.checkpoint.Some?
    case EndTurn => s.checkpoint.Some?
    case FailTurn => s.checkpoint.Some?
    case Save(_) => true
  }

  /** The ledger a mutation would install, if it gets that far. */
  ghost function Candidate(l: Ledger, op: Op): Option<Ledger>
    requires ActivePresent(l) || !op.Attach?
  {
    var (c, e) := Apply(l, op);
    if e.Some? || !WellFormed(c) || c.owner != l.owner then None else Some(c)
  }

  ghost function Step(s: State, e: Event): State
    requires Enabled(s, e)
  {
    match e
    case Mutate(op, saveOk) =>
      var c := Candidate(s.live, op);
      if c.Some? && saveOk then s.(live := c.value, disk := c.value) else s
    case Save(saveOk) => if saveOk then s.(disk := s.live) else s
    case BeginTurn => s.(checkpoint := Some(s.live))
    case Boundary => s.(checkpoint := Some(s.live))
    case EndTurn => s.(checkpoint := None)
    case FailTurn => s.(live := s.checkpoint.value, checkpoint := None)
  }

  ghost predicate IsRun(states: seq<State>, events: seq<Event>) {
    && |states| == |events| + 1
    && ValidText(states[0].live.owner)
    && states[0] == State(New(states[0].live.owner), New(states[0].live.owner), None)
    && forall i {:trigger events[i]} :: 0 <= i < |events| ==>
         Enabled(states[i], events[i]) && states[i + 1] == Step(states[i], events[i])
  }

  // ---- The method ----

  class LiveTodo {
    var todo: Ledger
    var disk: Ledger

    constructor (owner: string)
      ensures todo == disk == New(owner)
    {
      todo, disk := New(owner), New(owner);
    }

    /** `valid` is what validating the candidate answers. */
    method MutateAgentTodo(op: Op, valid: bool, saveOk: bool) returns (r: Result<(), TodoError>)
      requires ActivePresent(todo) || !op.Attach?
      requires Apply(todo, op).1.None? ==> (valid <==> WellFormed(Apply(todo, op).0))
      modifies this
      ensures var c := Candidate(old(todo), op);
              if c.Some? && saveOk then r.Ok? && todo == disk == c.value
              else r.Err? && todo == old(todo) && disk == old(disk)
    {
      hide WellFormed, Apply;
      var (candidate, e) := Apply(todo, op);
      if e.Some? {
        return Err(e.value);
      }
      if !valid {
        return Err(Corrupt);
      }
      if candidate.owner != todo.owner {
        return Err(Corrupt);
      }
      if !saveOk {
        return Err(Corrupt);
      }
      disk := candidate;
      todo := candidate;
      r := Ok(());
    }
  }

  // ---- Runs ----

  ghost predicate Sound(l: Ledger) {
    Strong(l) && ValidText(l.owner)
  }

  ghost predicate Inv(s: State) {
    Sound(s.live) && Sound(s.disk) && (s.checkpoint.Some? ==> Sound(s.checkpoint.value))
  }

  /** Of a sound ledger every accepted operation makes a candidate: validation never stands in the way. */
  lemma {:induction false} ValidationNeverRefuses(l: Ledger, op: Op)
    requires Sound(l) && FreshFor(l, op)
    ensures ActivePresent(l)
    ensures Candidate(l, op).Some? <==> Apply(l, op).1.None?
    ensures Sound(Apply(l, op).0)
  {
    hide Strong, Apply, FreshFor, WellFormed, ValidText;
    StrongHasActive(l);
    StepStrong(l, op);
    OwnerKept(l, op);
    StrongIsWellFormed(Apply(l, op).0);
  }

  lemma {:induction false} StepInv(s: State, e: Event)
    requires Inv(s) && Enabled(s, e)
    ensures Inv(Step(s, e))
  {
    hide Sound, Apply, FreshFor, WellFormed;
    if e.Mutate? {
      ValidationNeverRefuses(s.live, e.op);
    }
  }

  lemma NewSound(owner: string)
    requires ValidText(owner)
    ensures Sound(New(owner))
  {
    hide ValidText;
  }

  lemma {:induction false} RunInv(states: seq<State>, events: seq<Event>, k: nat)
    requires IsRun(states, events) && k < |states|
    ensures Inv(states[k])
  {
    hide Sound, Step, Enabled, ValidText;
    if k == 0 {
      NewSound(states[0].live.owner);
    } else {
      RunInv(states, events, k - 1);
      StepInv(states[k - 1], events[k - 1]);
    }
  }

  /** Until an automatic turn fails, the live ledger is always the one on disk: no reader sees an unwritten change. */
  lemma {:induction false} LiveIsDurable(states: seq<State>, events: seq<Event>, k: nat)
    requires IsRun(states, events) && k < |states|
    requires forall i :: 0 <= i < k ==> !events[i].FailTurn?
    ensures states[k].live == states[k].disk
  {
    hide Candidate, Enabled;
    if k > 0 {
      LiveIsDurable(states, events, k - 1);
      assert states[k] == Step(states[k - 1], events[k - 1]);
    }
  }

  /** Events of a turn between two of its boundaries. */
  predicate Within(e: Event) {
    e.Mutate? || e.Save?
  }

  lemma {:induction false} MutationMoves(l: Ledger, op: Op)
    requires Sound(l) && FreshFor(l, op)
    ensures ActivePresent(l)
    ensures var c := Candidate(l, op);
            c.Some? && c.value != l ==> c.value.revision == l.revision + 1
  {
    hide Strong, Apply, FreshFor, WellFormed, ValidText;
    StrongHasActive(l);
    RefusalChangesNothing(l, op);
  }

  /** Between two boundaries the checkpoint stays, and the live ledger's revision counts what changed it. */
  lemma {:induction false} WithinTurn(states: seq<State>, events: seq<Event>, i: nat, j: nat)
    requires IsRun(states, events) && i <= j < |states|
    requires forall m {:trigger events[m]} :: i <= m < j ==> Within(events[m])
    ensures states[j].checkpoint == states[i].checkpoint
    ensures states[i].live.revision <= states[j].live.revision
    ensures states[i].live.revision == states[j].live.revision ==> states[i].live == states[j].live
    ensures states[i].live.revision == states[j].live.revision <==>
              forall m {:trigger states[m]} :: i < m <= j ==> states[m].live == states[i].live
  {
    hide Sound, Apply, FreshFor, WellFormed, Candidate;
    if i < j {
      WithinTurn(states, events, i, j - 1);
      RunInv(states, events, j - 1);
      assert Within(events[j - 1]);
      if events[j - 1].Mutate? {
        MutationMoves(states[j - 1].live, events[j - 1].op);
      }
    }
  }

  /**
   When an automatic turn fails, its live ledger goes back to the last
   boundary: it still is the one on disk if and only if no mutation since that
   boundary took effect. Otherwise a change that was written and reported as
   done is no longer live, and the next save takes it off the disk.
   */
  lemma {:induction false} FailureUndoesExactlyTheUncommitted(states: seq<State>, events: seq<Event>, i: nat, j: nat)
    requires IsRun(states, events) && i < j < |events|
    requires (events[i].BeginTurn? || events[i].Boundary?) && events[j].FailTurn?
    requires forall m {:trigger events[m]} :: i < m < j ==> Within(events[m])
    requires states[j].live == states[j].disk
    ensures states[j + 1].live == states[i + 1].live
    ensures states[j + 1].live == states[j + 1].disk <==>
              forall m {:trigger states[m]} :: i < m <= j ==> states[m].live == states[i + 1].live
  {
    hide Sound, Apply, FreshFor, WellFormed, Candidate;
    WithinTurn(states, events, i + 1, j);
    assert states[i + 1].checkpoint == Some(states[i + 1].live);
    assert states[j + 1].disk == states[j].live;
  }

  lemma ShortText(s: string)
    requires |s| == 1 && 'a' <= s[0] <= 'z'
    ensures ValidText(s)
  {
    assert s[1..] == [];
  }

  /** The change that is lost: one cycle begun, written and reported as done, then the automatic turn fails. */
  lemma FailedTurnLosesAChange() returns (states: seq<State>, events: seq<Event>)
    ensures IsRun(states, events) && |states| == 4
    ensures events[1].Mutate? && Candidate(states[1].live, events[1].op) == Some(states[2].live)
    ensures states[2].live == states[2].disk
    ensures states[3].live != states[3].disk
  {
    hide ValidText, WellFormed;
    ShortText("o");
    ShortText("s");
    var l := New("o");
    var op := Begin(0, Intent("s", []), "c", 0);
    NewSound("o");
    ValidationNeverRefuses(l, op);
    var c := Begun(l, op.intent, "c", 0);
    assert Apply(l, op) == (c, None);
    states := [State(l, l, None), State(l, l, Some(l)), State(c, c, Some(l)), State(l, c, None)];
    events := [BeginTurn, Mutate(op, true), FailTurn];
  }
}
