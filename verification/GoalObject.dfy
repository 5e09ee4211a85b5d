/** The goal object (crates/core/src/goal.rs): fields changed in place, proved to follow GoalSpec. */
module GoalObject {
  import opened Prelude
  import opened GoalSpec

  class LiveGoal {
    var status: Status
    var reason: Option<string>
    var checks: seq<Check>
    var evaluations: seq<CheckEvaluation>
    const approvalRequired: bool
    var approvedBy: Option<Actor>
    var artifacts: seq<string>
    var evidence: seq<string>
    var events: seq<GoalEvent>
    var revision: nat

    ghost function Abs(): Goal
      reads this
    {
      Goal(status, reason, checks, evaluations, approvalRequired, approvedBy, artifacts, evidence, events, revision)
    }

    constructor (approvalRequired: bool, checks: seq<Check>)
      ensures Abs() == Created(approvalRequired, checks)
    {
      status, reason, this.checks, evaluations := Proposed, None, checks, [];
      this.approvalRequired, approvedBy := approvalRequired, None;
      artifacts, evidence, events, revision := [], [], [], 0;
    }

    method AreChecksSatisfied() returns (ok: bool)
      ensures ok == ChecksSatisfied(Abs())
    {
      if checks == [] {
        return false;
      }
      for i := 0 to |checks|
        invariant forall k :: 0 <= k < i ==> Satisfied(evaluations, checks[k])
      {
        if !Satisfied(evaluations, checks[i]) {
          return false;
        }
      }
      ok := true;
    }

    method RecordEvent(actor: Actor, t: Transition, from: Status, to: Status)
      modifies this`revision, this`events
      ensures revision == SaturatingInc(old(revision))
      ensures events == old(events) + [GoalEvent(actor, t, from, to, revision)]
    {
      revision := SaturatingInc(revision);
      events := events + [GoalEvent(actor, t, from, to, revision)];
    }

    /** Why a change of status is refused, before the table of moves is consulted. */
    method Guard(t: Transition) returns (e: Option<GoalError>)
      ensures e == if t.Activate? && approvalRequired && approvedBy.None? then Some(ApprovalRequired)
                   else if t.Activate? && checks == [] then Some(NoChecks)
                   else if t.Succeed? && !ChecksSatisfied(Abs()) then Some(ChecksNotSatisfied)
                   else None
    {
      e := None;
      if t.Activate? {
        if approvalRequired && approvedBy.None? {
          return Some(ApprovalRequired);
        }
        if checks == [] {
          return Some(NoChecks);
        }
      } else if t.Succeed? {
        var satisfied := AreChecksSatisfied();
        if !satisfied {
          return Some(ChecksNotSatisfied);
        }
      }
    }

    method Transition(actor: Actor, t: Transition) returns (r: Result<GoalEvent, GoalError>)
      modifies this
      ensures (Abs(), if r.Err? then Some(r.error) else None) == Transit(old(Abs()), actor, t)
      ensures r.Ok? ==> events == old(events) + [r.value]
    {
      hide ChecksSatisfied, ValidateCheck, FindCheck, Attested, ValidTransition;
      var from := status;
      if Terminal(from) {
        return Err(InvalidTransition(from, from));
      }
      var target := Target(t);
      match target {
        case Some((to, why)) =>
          var e := Guard(t);
          if e.Some? {
            return Err(e.value);
          }
          if !ValidTransition(from, to) {
            return Err(InvalidTransition(from, to));
          }
          status := to;
          reason := why;
          RecordEvent(actor, t, from, to);
        case None =>
          var e := KeepStatus(actor, t);
          if e.Some? {
            return Err(e.value);
          }
          RecordEvent(actor, t, from, from);
      }
      r := Ok(events[|events| - 1]);
    }

    /** A transition that keeps the status: check and apply its payload. */
    method KeepStatus(actor: Actor, t: Transition) returns (e: Option<GoalError>)
      requires Target(t).None? && !Terminal(status)
      modifies this
      ensures e == Refusal(old(Abs()), actor, t)
      ensures Abs() == if e.Some? then old(Abs()) else WithPayload(old(Abs()), actor, t)
    {
      hide ChecksSatisfied, ValidateCheck, FindCheck, Attested;
      e := None;
      match t
      case Approve => approvedBy := Some(actor);
      case Evaluate(evaluation) =>
        var check := FindCheck(checks, evaluation.checkId);
        if check.None? {
          e := Some(UnknownCheck(evaluation.checkId));
        } else if check.value.Leaf? && check.value.kind.AgentCheck? {
          if check.value.kind.independent {
            if !Attested(evaluation) || ActorId(actor) != ActorId(evaluation.actor) {
              e := Some(WrongCheckActor);
            }
          } else if check.value.kind.agent != ActorId(actor) {
            e := Some(WrongCheckActor);
          }
        }
        if e.None? {
          evaluations := evaluations + [evaluation];
        }
      case AddCheck(check) =>
        var ids, error := ValidateInto(check, TopIds(checks));
        e := error;
        if e.None? {
          checks := checks + [check];
        }
      case LinkArtifact(reference) =>
        if reference !in artifacts {
          artifacts := artifacts + [reference];
        }
      case LinkEvidence(reference) =>
        if reference !in evidence {
          evidence := evidence + [reference];
        }
      case _ =>
    }

    /** Apply a transition only at the revision the caller read. */
    method Apply(expected: nat, actor: Actor, t: Transition) returns (r: Result<GoalEvent, GoalError>)
      modifies this
      ensures expected != old(revision) ==> r == Err(StaleRevision(expected, old(revision))) && Abs() == old(Abs())
      ensures expected == old(revision) ==>
        (Abs(), if r.Err? then Some(r.error) else None) == Transit(old(Abs()), actor, t)
    {
      if expected != revision {
        return Err(StaleRevision(expected, revision));
      }
      r := Transition(actor, t);
    }
  }

  /** Collect the ids of a check and its children, refusing one that is taken. */
  method ValidateInto(check: Check, ids: set<string>) returns (taken: set<string>, e: Option<GoalError>)
    ensures match ValidateCheck(check, ids)
            case Err(error) => e == Some(error)
            case Ok(more) => e == None && taken == more
    decreases check
  {
    taken := ids;
    if Blank(check.id) || check.id in taken {
      return taken, Some(InvalidCheckId(check.id));
    }
    taken := taken + {check.id};
    match check
    case Leaf(_, kind) => e := KindError(kind);
    case Composite(_, _, checks, _) =>
      if checks == [] {
        return taken, Some(InvalidCheck);
      }
      ghost var all := ValidateAll(checks, taken);
      for i := 0 to |checks|
        invariant all == ValidateAll(checks[i..], taken)
      {
        assert checks[i..][1..] == checks[i + 1..];
        taken, e := ValidateInto(checks[i], taken);
        if e.Some? {
          return;
        }
      }
      e := None;
  }

  /** A new goal takes the requested checks as they are and is then validated. */
  method CreateGoal(approvalRequired: bool, checks: seq<Check>) returns (r: Result<LiveGoal, GoalError>)
    ensures match ValidateAll(checks, {})
            case Err(error) => r == Err(error)
            case Ok(_) => r.Ok? && fresh(r.value) && r.value.Abs() == Created(approvalRequired, checks)
  {
    var goal := new LiveGoal(approvalRequired, checks);
    var ids: set<string> := {};
    for i := 0 to |checks|
      invariant ValidateAll(checks, {}) == ValidateAll(checks[i..], ids)
      invariant goal.Abs() == Created(approvalRequired, checks)
    {
      assert checks[i..][1..] == checks[i + 1..];
      var taken, e := ValidateInto(checks[i], ids);
      if e.Some? {
        return Err(e.value);
      }
      ids := taken;
    }
    r := Ok(goal);
  }
}
