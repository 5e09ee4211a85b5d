/**
 The single writer of session snapshots (`SessionPersistenceCoordinator` in
 crates/core/src/persistence.rs): savers draw a generation, then queue a request;
 one thread skips what is older than its last write.
 */
module SnapshotWriter {
  import opened Prelude

  /** What a snapshot says: the version of the work state, and of everything else. */
  datatype Snapshot = Snapshot(work: nat, rest: nat)

  datatype Request = Request(generation: nat, record: Snapshot)

  datatype State = State(
    counter: nat,                  // the generation drawn last
    held: map<nat, Snapshot>,      // drawn and not queued yet
    queue: seq<Request>,
    lastCommitted: nat,
    disk: Request,
    acks: map<nat, bool>)          // the answers given so far

  datatype Event = Draw(record: Snapshot) | Enqueue(generation: nat) | Process(writeOk: bool)

  function Initial(disk: Snapshot): State {
    State(0, map[], [], 0, Request(0, disk), map[])
  }

  /** The 64-bit counter does not run out. */
  predicate Enabled(s: State, e: Event) {
    match e
    case Draw(_) => s.counter < U64_MAX
    case Enqueue(g) => g in s.held
    case Process(_) => s.queue != []
  }

  function Step(s: State, e: Event): State
    requires Enabled(s, e)
  {
    match e
    case Draw(record) => s.(counter := s.counter + 1, held := s.held[s.counter + 1 := record])
    case Enqueue(g) => s.(held := s.held - {g}, queue := s.queue + [Request(g, s.held[g])])
    case Process(writeOk) =>
      var r := s.queue[0];
      var t := s.(queue := s.queue[1..]);
      if r.generation < s.lastCommitted then t.(acks := s.acks[r.generation := true])
      else if writeOk then t.(lastCommitted := r.generation, disk := r, acks := s.acks[r.generation := true])
      else t.(acks := s.acks[r.generation := false])
  }

  // ---- The coordinator ----

  class Coordinator {
    var counter: nat
    var queue: seq<Request>
    var lastCommitted: nat
    var disk: Request
    ghost var held: map<nat, Snapshot>
    ghost var acks: map<nat, bool>

    ghost function Abs(): State
      reads this
    {
      State(counter, held, queue, lastCommitted, disk, acks)
    }

    constructor (onDisk: Snapshot)
      ensures Abs() == Initial(onDisk)
    {
      counter, queue, lastCommitted, disk := 0, [], 0, Request(0, onDisk);
      held, acks := map[], map[];
    }

    /** First half of a save. */
    method DrawGeneration(record: Snapshot) returns (r: Request)
      requires counter < U64_MAX
      modifies this
      ensures Abs() == Step(old(Abs()), Draw(record))
      ensures r == Request(counter, record) && r.generation in held
    {
      counter := counter + 1;
      held := held[counter := record];
      r := Request(counter, record);
    }

    /** Second half; the answer comes later. */
    method Send(r: Request)
      requires r.generation in held && held[r.generation] == r.record
      modifies this
      ensures Abs() == Step(old(Abs()), Enqueue(r.generation))
    {
      held := held - {r.generation};
      queue := queue + [r];
    }

    /** One turn of the writer thread; `writeOk` is whether the file was replaced. */
    method ProcessNext(writeOk: bool) returns (ok: bool)
      requires queue != []
      modifies this
      ensures Abs() == Step(old(Abs()), Process(writeOk))
      ensures old(queue)[0].generation in acks && acks[old(queue)[0].generation] == ok
    {
      var request := queue[0];
      queue := queue[1..];
      if request.generation < lastCommitted {
        ok := true;
      } else {
        ok := writeOk;
        if ok {
          disk := request;
          lastCommitted := request.generation;
        }
      }
      acks := acks[request.generation := ok];
    }
  }

  // ---- Runs ----

  ghost predicate IsRun(states: seq<State>, events: seq<Event>) {
    && |states| == |events| + 1
    && states[0] == Initial(states[0].disk.record)
    && forall i {:trigger events[i]} :: 0 <= i < |events| ==> Enabled(states[i], events[i]) && states[i + 1] == Step(states[i], events[i])
  }

  predicate Queued(s: State, g: nat) {
    exists i :: 0 <= i < |s.queue| && s.queue[i].generation == g
  }

  ghost predicate Bounded(s: State) {
    && s.disk.generation == s.lastCommitted <= s.counter
    && (forall i :: 0 <= i < |s.queue| ==> 1 <= s.queue[i].generation <= s.counter)
    && (forall g :: g in s.held ==> 1 <= g <= s.counter)
    && (forall g :: g in s.acks ==> 1 <= g <= s.counter)
    && (forall g :: g in s.acks && s.acks[g] ==> g <= s.lastCommitted)
  }

  /** No generation is forgotten: each is with its saver, in the queue, or answered. */
  ghost predicate Accounted(s: State) {
    forall g: nat :: 1 <= g <= s.counter ==> g in s.held || Queued(s, g) || g in s.acks
  }

  ghost predicate Inv(s: State) {
    Bounded(s) && Accounted(s)
  }

  lemma {:induction false} StepBounded(s: State, e: Event)
    requires Bounded(s) && Enabled(s, e)
    ensures Bounded(Step(s, e))
    ensures Step(s, e).disk.generation >= s.disk.generation
  {
  }

  lemma {:induction false} StepAccounted(s: State, e: Event)
    requires Accounted(s) && Enabled(s, e)
    ensures Accounted(Step(s, e))
  {
    var t := Step(s, e);
    forall g: nat | 1 <= g <= t.counter
      ensures g in t.held || Queued(t, g) || g in t.acks
    {
      if g <= s.counter && Queued(s, g) {
        StillQueued(s, e, g);
      } else if e == Enqueue(g) {
        assert t.queue[|s.queue|].generation == g;
      }
    }
  }

  lemma {:induction false} StillQueued(s: State, e: Event, g: nat)
    requires Enabled(s, e) && Queued(s, g)
    ensures Queued(Step(s, e), g) || g in Step(s, e).acks
  {
    var t := Step(s, e);
    var i :| 0 <= i < |s.queue| && s.queue[i].generation == g;
    match e
    case Process(_) => assert i > 0 ==> t.queue[i - 1].generation == g;
    case _ => assert t.queue[i].generation == g;
  }

  lemma {:induction false} StepInv(s: State, e: Event)
    requires Inv(s) && Enabled(s, e)
    ensures Inv(Step(s, e))
    ensures Step(s, e).disk.generation >= s.disk.generation
  {
    hide Bounded, Accounted, Step;
    StepBounded(s, e);
    StepAccounted(s, e);
  }

  lemma {:induction false} RunInv(states: seq<State>, events: seq<Event>, k: nat)
    requires IsRun(states, events) && k < |states|
    ensures Inv(states[k])
  {
    if k > 0 {
      hide Inv, Step;
      RunInv(states, events, k - 1);
      StepInv(states[k - 1], events[k - 1]);
    }
  }

  /** The generation on disk never goes back, however savers and the writer interleave. */
  lemma {:induction false} DiskNeverGoesBack(states: seq<State>, events: seq<Event>, i: nat, j: nat)
    requires IsRun(states, events) && i <= j < |states|
    ensures states[i].disk.generation <= states[j].disk.generation
  {
    if i < j {
      hide Inv, Step;
      DiskNeverGoesBack(states, events, i, j - 1);
      RunInv(states, events, j - 1);
      StepInv(states[j - 1], events[j - 1]);
    }
  }

  /** A save answered Ok is on disk, or something newer is, from then on. */
  lemma AcknowledgedIsDurable(states: seq<State>, events: seq<Event>, i: nat, j: nat, g: nat)
    requires IsRun(states, events) && i <= j < |states|
    requires g in states[i].acks && states[i].acks[g]
    ensures states[j].disk.generation >= g
  {
    RunInv(states, events, i);
    DiskNeverGoesBack(states, events, i, j);
  }

  /** The records in the order their generations were drawn. */
  function DrawnRecords(events: seq<Event>, n: nat): seq<Snapshot>
    requires n <= |events|
  {
    if n == 0 then []
    else DrawnRecords(events, n - 1) + (if events[n - 1].Draw? then [events[n - 1].record] else [])
  }

  predicate IsDrawn(drawn: seq<Snapshot>, r: Request) {
    1 <= r.generation <= |drawn| && drawn[r.generation - 1] == r.record
  }

  ghost predicate RecordsMatch(s: State, drawn: seq<Snapshot>, first: Snapshot) {
    && |drawn| == s.counter
    && (forall g :: g in s.held ==> IsDrawn(drawn, Request(g, s.held[g])))
    && (forall i :: 0 <= i < |s.queue| ==> IsDrawn(drawn, s.queue[i]))
    && (IsDrawn(drawn, s.disk) || s.disk == Request(0, first))
  }

  lemma {:induction false} StepRecords(s: State, e: Event, drawn: seq<Snapshot>, first: Snapshot)
    requires Enabled(s, e) && RecordsMatch(s, drawn, first)
    ensures RecordsMatch(Step(s, e), drawn + (if e.Draw? then [e.record] else []), first)
  {
    if !e.Draw? {
      assert drawn + [] == drawn;
    }
  }

  /** The disk holds the record its generation was drawn for, not another one. */
  lemma {:induction false} DiskHoldsItsRecord(states: seq<State>, events: seq<Event>, k: nat)
    requires IsRun(states, events) && k < |states|
    ensures RecordsMatch(states[k], DrawnRecords(events, k), states[0].disk.record)
  {
    if k > 0 {
      hide RecordsMatch, Step;
      DiskHoldsItsRecord(states, events, k - 1);
      StepRecords(states[k - 1], events[k - 1], DrawnRecords(events, k - 1), states[0].disk.record);
    }
  }

  /** Once all is quiet and no write failed, the disk holds the record drawn last. */
  lemma NewestWins(states: seq<State>, events: seq<Event>, k: nat)
    requires IsRun(states, events) && k < |states|
    requires states[k].held == map[] && states[k].queue == []
    requires forall g :: g in states[k].acks ==> states[k].acks[g]
    ensures var s, drawn := states[k], DrawnRecords(events, k);
            && s.disk.generation == |drawn|
            && (drawn != [] ==> s.disk.record == drawn[|drawn| - 1])
  {
    RunInv(states, events, k);
    DiskHoldsItsRecord(states, events, k);
    var s := states[k];
    assert s.counter >= 1 ==> !Queued(s, s.counter);
  }

  /**
   Generations alone do not order what savers saw: a snapshot taken first but
   numbered second replaces a newer one.
   */
  lemma StaleSnapshotMayWin() returns (states: seq<State>, events: seq<Event>)
    ensures IsRun(states, events) && |states| == 7
    ensures states[3].disk.record == Snapshot(2, 0) && states[6].disk.record == Snapshot(1, 0)
  {
    var older, newer := Snapshot(1, 0), Snapshot(2, 0);
    var s0 := Initial(Snapshot(0, 0));
    events := [Draw(newer), Enqueue(1), Process(true), Draw(older), Enqueue(2), Process(true)];
    var s1 := Step(s0, events[0]);
    var s2 := Step(s1, events[1]);
    var s3 := Step(s2, events[2]);
    var s4 := Step(s3, events[3]);
    var s5 := Step(s4, events[4]);
    var s6 := Step(s5, events[5]);
    states := [s0, s1, s2, s3, s4, s5, s6];
  }
}
