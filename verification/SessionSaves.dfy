/**
 The session's saves (`save` and `mutate_work` in crates/core/src/session.rs):
 one lock is held from the snapshot to the answer of its write, and a change of
 the work state is live only once it is on disk.
 */
module SessionSaves {
  import opened Prelude
  import opened SnapshotWriter

  datatype Stage =
    | Locked
    | Snapped(record: Snapshot)
    | Numbered(record: Snapshot, generation: nat)
    | Waiting(record: Snapshot, generation: nat)

  /** The thread in the lock; `began` is the live state when it came in. */
  datatype Holder = Holder(mutating: bool, stage: Stage, began: Snapshot)

  datatype Session = Session(writer: State, live: Snapshot, holder: Option<Holder>)

  datatype Action =
    | Touch                       // an agent, a mailbox or the title changes
    | Begin(mutating: bool)
    | Snap
    | Number
    | Send
    | Write(writeOk: bool)
    | Finish

  function InStage(s: Session, stage: Stage): Session
    requires s.holder.Some?
  {
    s.(holder := Some(s.holder.value.(stage := stage)))
  }

  predicate Enabled(s: Session, a: Action) {
    match a
    case Touch => true
    case Begin(_) => s.holder.None?
    case Snap => s.holder.Some? && s.holder.value.stage.Locked?
    case Number => s.holder.Some? && s.holder.value.stage.Snapped? && s.writer.counter < U64_MAX
    case Send => s.holder.Some? && s.holder.value.stage.Numbered? && s.holder.value.stage.generation in s.writer.held
    case Write(_) => s.writer.queue != []
    case Finish => s.holder.Some? && s.holder.value.stage.Waiting? && s.holder.value.stage.generation in s.writer.acks
  }

  function Step(s: Session, a: Action): Session
    requires Enabled(s, a)
  {
    match a
    case Touch => s.(live := s.live.(rest := s.live.rest + 1))
    case Begin(mutating) => s.(holder := Some(Holder(mutating, Locked, s.live)))
    case Snap => InStage(s, Snapped(s.live.(work := s.live.work + if s.holder.value.mutating then 1 else 0)))
    case Number =>
      var record := s.holder.value.stage.record;
      InStage(s.(writer := SnapshotWriter.Step(s.writer, Draw(record))), Numbered(record, s.writer.counter + 1))
    case Send =>
      var stage := s.holder.value.stage;
      InStage(s.(writer := SnapshotWriter.Step(s.writer, Enqueue(stage.generation))), Waiting(stage.record, stage.generation))
    case Write(writeOk) => s.(writer := SnapshotWriter.Step(s.writer, Process(writeOk)))
    case Finish =>
      var h := s.holder.value;
      var won := h.mutating && s.writer.acks[h.stage.generation];
      s.(live := if won then s.live.(work := s.live.work + 1) else s.live, holder := None)
  }

  /** A run starts from a restored session. */
  ghost predicate IsRun(states: seq<Session>, actions: seq<Action>) {
    && |states| == |actions| + 1
    && states[0] == Session(Initial(states[0].live), states[0].live, None)
    && forall i {:trigger actions[i]} :: 0 <= i < |actions| ==>
         Enabled(states[i], actions[i]) && states[i + 1] == Step(states[i], actions[i])
  }

  // ---- The invariant ----

  /** `record` is what the lock holder may write: between its arrival and now, and not behind the disk. */
  predicate Current(s: Session, record: Snapshot)
    requires s.holder.Some?
  {
    && record.work == s.live.work + (if s.holder.value.mutating then 1 else 0)
    && s.holder.value.began.rest <= record.rest <= s.live.rest
    && s.writer.disk.record.rest <= record.rest
  }

  predicate Settled(s: Session) {
    s.writer.disk.record.work == s.live.work && s.writer.disk.record.rest <= s.live.rest
  }

  predicate Idle(s: Session) {
    s.writer.held == map[] && s.writer.queue == []
  }

  ghost predicate Inv(s: Session) {
    && Bounded(s.writer)
    && (s.holder.Some? ==> s.holder.value.began.rest <= s.live.rest)
    && match s.holder
       case None => Settled(s) && Idle(s)
       case Some(h) =>
         match h.stage
         case Locked => Settled(s) && Idle(s)
         case Snapped(record) => Settled(s) && Idle(s) && Current(s, record)
         case Numbered(record, g) =>
           && Settled(s) && Current(s, record)
           && g == s.writer.counter && g !in s.writer.acks && s.writer.lastCommitted < g
           && s.writer.held == map[g := record] && s.writer.queue == []
         case Waiting(record, g) =>
           && g == s.writer.counter && s.writer.held == map[] && Current(s, record)
           && if s.writer.queue == [] then
                g in s.writer.acks
                && (if s.writer.acks[g] then s.writer.disk == Request(g, record) else Settled(s))
              else
                && s.writer.queue == [Request(g, record)] && g !in s.writer.acks && Settled(s)
                && s.writer.lastCommitted < g
  }

  predicate NotBehind(a: Snapshot, b: Snapshot) {
    a.work <= b.work && a.rest <= b.rest
  }

  lemma {:induction false} StepInv(s: Session, a: Action)
    requires Inv(s) && Enabled(s, a)
    ensures Inv(Step(s, a))
    ensures NotBehind(s.writer.disk.record, Step(s, a).writer.disk.record)
  {
    match a
    case Number => StepBounded(s.writer, Draw(s.holder.value.stage.record));
    case Send =>
      var g := s.holder.value.stage.generation;
      StepBounded(s.writer, Enqueue(g));
      assert s.writer.held - {g} == map[];
    case Write(writeOk) => StepBounded(s.writer, Process(writeOk));
    case _ =>
  }

  lemma {:induction false} RunInv(states: seq<Session>, actions: seq<Action>, k: nat)
    requires IsRun(states, actions) && k < |states|
    ensures Inv(states[k])
  {
    if k > 0 {
      hide Inv, Step, Enabled;
      RunInv(states, actions, k - 1);
      StepInv(states[k - 1], actions[k - 1]);
    }
  }

  /** No change of the work state that was reported as done can be lost: it is on disk at every moment. */
  lemma CommittedWorkIsDurable(states: seq<Session>, actions: seq<Action>, k: nat)
    requires IsRun(states, actions) && k < |states|
    ensures var s := states[k];
            && s.live.work <= s.writer.disk.record.work <= s.live.work + 1
            && (s.holder.None? ==> s.writer.disk.record.work == s.live.work)
  {
    RunInv(states, actions, k);
  }

  /** With the lock, not only generations but contents never go back on disk. */
  lemma {:induction false} ContentNeverGoesBack(states: seq<Session>, actions: seq<Action>, i: nat, j: nat)
    requires IsRun(states, actions) && i <= j < |states|
    ensures NotBehind(states[i].writer.disk.record, states[j].writer.disk.record)
  {
    if i < j {
      ContentNeverGoesBack(states, actions, i, j - 1);
      RunInv(states, actions, j - 1);
      hide Inv, Step, Enabled;
      StepInv(states[j - 1], actions[j - 1]);
    }
  }

  /** A save that reports success leaves on disk, for good, all that was live when it was called. */
  lemma SavedForGood(states: seq<Session>, actions: seq<Action>, i: nat, j: nat)
    requires IsRun(states, actions) && i <= j < |states|
    requires var h := states[i].holder;
             h.Some? && h.value.stage.Waiting? && h.value.stage.generation in states[i].writer.acks
             && states[i].writer.acks[h.value.stage.generation]
    ensures states[i].holder.value.began.rest <= states[j].writer.disk.record.rest
    ensures states[i].live.work <= states[j].writer.disk.record.work
  {
    RunInv(states, actions, i);
    ContentNeverGoesBack(states, actions, i, j);
  }

  // ---- The session object ----

  class LockedSession {
    var work: nat
    var rest: nat
    const coordinator: Coordinator

    ghost predicate Valid()
      reads this, coordinator
    {
      && Bounded(coordinator.Abs())
      && coordinator.held == map[] && coordinator.queue == []
      && coordinator.disk.record.work == work
      && coordinator.disk.record.rest <= rest
    }

    constructor (onDisk: Snapshot)
      ensures Valid() && fresh(coordinator) && work == onDisk.work && rest == onDisk.rest
    {
      work, rest := onDisk.work, onDisk.rest;
      coordinator := new Coordinator(onDisk);
    }

    /** Write `record` through the coordinator and wait for the answer. */
    method Persist(record: Snapshot, writeOk: bool) returns (ok: bool)
      requires Bounded(coordinator.Abs()) && coordinator.held == map[] && coordinator.queue == []
      requires coordinator.counter < U64_MAX
      modifies coordinator
      ensures Bounded(coordinator.Abs()) && coordinator.held == map[] && coordinator.queue == []
      ensures ok == writeOk
      ensures coordinator.disk == if writeOk then Request(coordinator.counter, record) else old(coordinator.disk)
      ensures coordinator.counter == old(coordinator.counter) + 1
    {
      hide Bounded;
      BoundedCommitted(coordinator.Abs());
      StepBounded(coordinator.Abs(), Draw(record));
      var r := coordinator.DrawGeneration(record);
      StepBounded(coordinator.Abs(), Enqueue(r.generation));
      coordinator.Send(r);
      assert coordinator.held == map[];
      StepBounded(coordinator.Abs(), Process(writeOk));
      ok := coordinator.ProcessNext(writeOk);
    }

    method Save(writeOk: bool) returns (ok: bool)
      requires Valid() && coordinator.counter < U64_MAX
      modifies coordinator
      ensures Valid() && ok == writeOk
      ensures coordinator.disk.record == if ok then Snapshot(work, rest) else old(coordinator.disk.record)
    {
      ok := Persist(Snapshot(work, rest), writeOk);
    }

    /** `operationOk` is whether the operation and the validation of its result succeeded. */
    method MutateWork(operationOk: bool, writeOk: bool) returns (ok: bool)
      requires Valid() && coordinator.counter < U64_MAX
      modifies this`work, coordinator
      ensures Valid() && ok == (operationOk && writeOk)
      ensures work == old(work) + (if ok then 1 else 0)
      ensures !ok ==> coordinator.disk == old(coordinator.disk)
      ensures ok ==> coordinator.disk.record == Snapshot(work, rest)
    {
      if !operationOk {
        return false;
      }
      var candidate := work + 1;
      ok := Persist(Snapshot(candidate, rest), writeOk);
      if ok {
        work := candidate;
      }
    }
  }

  lemma BoundedCommitted(s: State)
    requires Bounded(s)
    ensures s.lastCommitted <= s.counter
  {
  }
}
