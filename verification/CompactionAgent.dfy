/**
 Background compaction inside an agent (crates/core/src/agent.rs): a plan is
 made on the history of one moment, and its summary is committed at a later one.
 */
module CompactionAgent {
  import opened Prelude
  import opened Transcript
  import opened Timeline
  import opened Compaction
  import opened CompactionSafety

  /** A running background job: the plan it summarizes, and the epoch it was scheduled in. */
  datatype Job = Job(epoch: nat, plan: Plan)

  /** What a job returns: the plan fields it was given, and its summary. */
  datatype JobResult = JobResult(plan: Plan, summary: string)

  datatype Outcome = Running | Failed | Finished(result: JobResult)

  datatype AgentState = AgentState(
    history: seq<Message>, projection: Projection, epoch: nat, job: Option<Job>)

  function Fresh(history: seq<Message>): AgentState {
    AgentState(history, NewProjection([]), 0, None)
  }

  function Synced(s: AgentState): AgentState {
    s.(projection := s.projection.(segments := TimelineOf(s.history)))
  }

  function Scheduled(s: AgentState): AgentState {
    var t := Synced(s);
    match MakePlan(t.projection, t.projection.generation)
    case Ok(plan) => if t.job.None? then t.(job := Some(Job(t.epoch, plan))) else t
    case Err(_) => t
  }

  /** The history after a commit: its leading system messages, then what the plan keeps without its own. */
  function CommittedHistory(history: seq<Message>, kept: seq<Segment>): seq<Message> {
    history[..LeadingSystems(history)] + Conversation(Flatten(kept))
  }

  function Committed(s: AgentState, plan: Plan, result: JobResult): Option<AgentState> {
    if result.plan != plan then None
    else match Apply(s.projection, plan, result.summary)
      case Err(_) => None
      case Ok(next) =>
        var history := CommittedHistory(s.history, next.segments);
        Some(s.(history := history, projection := next.(segments := TimelineOf(history))))
  }

  function Polled(s: AgentState, outcome: Outcome): AgentState {
    var t := Synced(s);
    match t.job
    case None => t
    case Some(job) =>
      match outcome
      case Running => t
      case Failed => t.(job := None)
      case Finished(result) =>
        var u := t.(job := None);
        if job.epoch != t.epoch then u
        else match Committed(u, job.plan, result)
          case Some(v) => v
          case None => u
  }

  function AfterRewind(s: AgentState, turns: nat): AgentState {
    if turns == 0 then s
    else
      var history := Rewound(s.history, turns);
      AgentState(history, Invalidated(s.projection, TimelineOf(history)), s.epoch + 1, None)
  }

  // ---- The agent ----

  method DropSystems(kept: seq<Message>) returns (rest: seq<Message>)
    ensures rest == Conversation(kept)
  {
    var drained := 0;
    while drained < |kept| && kept[drained].role == System
      invariant drained <= |kept| && forall i :: 0 <= i < drained ==> kept[i].role == System
    {
      drained := drained + 1;
    }
    LeadingSystemsUnique(kept, drained);
    rest := kept[drained..];
  }

  class Agent {
    var history: seq<Message>
    var projection: Projection
    var epoch: nat
    var job: Option<Job>

    ghost function Abs(): AgentState
      reads this
    {
      AgentState(history, projection, epoch, job)
    }

    constructor (history: seq<Message>)
      ensures Abs() == Fresh(history)
    {
      this.history, projection, epoch, job := history, NewProjection([]), 0, None;
    }

    method Append(messages: seq<Message>)
      modifies this
      ensures Abs() == old(Abs()).(history := old(history) + messages)
    {
      history := history + messages;
    }

    method SyncProjection()
      modifies this
      ensures Abs() == Synced(old(Abs()))
    {
      var timeline := TimelineFromHistory(history);
      if projection.segments != timeline {
        projection := projection.(segments := timeline);
      }
    }

    method Schedule()
      modifies this
      ensures Abs() == Scheduled(old(Abs()))
    {
      SyncProjection();
      var r := PlanCompaction(projection, projection.generation);
      if r.Ok? && job.None? {
        job := Some(Job(epoch, r.value));
      }
    }

    method Commit(plan: Plan, result: JobResult) returns (ok: bool)
      modifies this
      ensures match Committed(old(Abs()), plan, result)
              case Some(s) => ok && Abs() == s
              case None => !ok && Abs() == old(Abs())
    {
      hide Apply, Flatten, LeadingSystems, TimelineOf;
      if result.plan != plan {
        return false;
      }
      var r := Apply(projection, plan, result.summary);
      if r.Err? {
        return false;
      }
      var kept := DropSystems(Flatten(r.value.segments));
      history := history[..LeadingSystems(history)] + kept;
      var timeline := TimelineFromHistory(history);
      projection := r.value.(segments := timeline);
      ok := true;
    }

    method Poll(outcome: Outcome)
      modifies this
      ensures Abs() == Polled(old(Abs()), outcome)
    {
      SyncProjection();
      if job.None? {
        return;
      }
      var handle := job.value;
      job := None;
      match outcome
      case Finished(result) =>
        if handle.epoch == epoch {
          var ok := Commit(handle.plan, result);
        }
      case Failed =>
      case Running => job := Some(handle);
    }

    method Rewind(turns: nat) returns (removed: nat)
      modifies this
      ensures Abs() == AfterRewind(old(Abs()), turns)
      ensures removed == |old(history)| - |history|
    {
      if turns == 0 {
        return 0;
      }
      var at := RewindCut(history, turns);
      removed := |history| - at;
      history := history[..at];
      var timeline := TimelineFromHistory(history);
      epoch := epoch + 1;
      job := None;
      projection := NewProjection(timeline).(generation := SaturatingInc(projection.generation));
    }
  }
}
