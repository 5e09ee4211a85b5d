/**
 The life of a goal (crates/core/src/goal.rs): its checks, what each transition
 demands, and what it changes.
 */
module GoalSpec {
  import opened Prelude
  import Text

  datatype Status = Proposed | Queued | Active | Waiting | Blocked | Succeeded | Failed | Cancelling | Cancelled

  datatype Actor = UserActor(id: string) | AgentActor(id: string) | WorkflowActor(id: string) | SystemActor

  datatype Verification = Unverified | SelfVerified | Reviewed | IndependentlyVerified

  datatype CheckState = Pending | Passed | NotPassed

  datatype Attestation = Attestation(
    reviewer: string, worker: string, candidate: string, digest: string, independent: bool)

  datatype CheckEvaluation = CheckEvaluation(
    checkId: string, state: CheckState, actor: Actor, evidence: seq<string>, verification: Verification,
    review: Option<Attestation>)

  datatype Operator = All | Any | Quorum | Ordered

  datatype Kind =
    | CommandCheck(command: string)
    | AgentCheck(agent: string, criteria: seq<string>, independent: bool)
    | ArtifactCheck(reference: string)
    | EventCheck(eventType: string)

  datatype Check =
    | Leaf(id: string, kind: Kind)
    | Composite(id: string, operator: Operator, checks: seq<Check>, required: Option<nat>)

  datatype Transition =
    | Activate
    | Queue
    | Requeue(reason: string)
    | Wait(reason: string)
    | Block(reason: string)
    | Succeed
    | Fail(reason: string)
    | Cancel(reason: string)
    | RequestCancel(reason: string)
    | Approve
    | RejectApproval(reason: string)
    | Evaluate(evaluation: CheckEvaluation)
    | AddCheck(check: Check)
    | LinkArtifact(reference: string)
    | LinkEvidence(reference: string)

  datatype GoalEvent = GoalEvent(actor: Actor, transition: Transition, from: Status, to: Status, revision: nat)

  datatype GoalError =
    | NoChecks
    | InvalidCheckId(id: string)
    | InvalidCheck
    | InvalidTransition(from: Status, to: Status)
    | ApprovalRequired
    | ChecksNotSatisfied
    | UnknownCheck(id: string)
    | WrongCheckActor
    | StaleRevision(expected: nat, actual: nat)

  datatype Goal = Goal(
    status: Status,
    reason: Option<string>,
    checks: seq<Check>,
    evaluations: seq<CheckEvaluation>,
    approvalRequired: bool,
    approvedBy: Option<Actor>,
    artifacts: seq<string>,
    evidence: seq<string>,
    events: seq<GoalEvent>,
    revision: nat)

  /** A goal as it is created: with the checks it was asked for. */
  function Created(approvalRequired: bool, checks: seq<Check>): Goal {
    Goal(Proposed, None, checks, [], approvalRequired, None, [], [], [], 0)
  }

  predicate Terminal(s: Status) {
    s.Succeeded? || s.Failed? || s.Cancelled?
  }

  predicate ValidTransition(from: Status, to: Status) {
    match from
    case Proposed => to.Queued? || to.Active? || to.Waiting? || to.Cancelled? || to.Blocked?
    case Queued => to.Active? || to.Waiting? || to.Blocked? || to.Cancelled?
    case Active =>
      to.Waiting? || to.Blocked? || to.Succeeded? || to.Failed? || to.Cancelled? || to.Queued? || to.Cancelling?
    case Waiting => to.Active? || to.Blocked? || to.Cancelled? || to.Succeeded? || to.Failed? || to.Queued?
    case Blocked => to.Active? || to.Cancelled? || to.Failed? || to.Queued?
    case Cancelling => to.Cancelled?
    case _ => false
  }

  // ---- Checks ----

  predicate Blank(s: string) {
    forall i :: 0 <= i < |s| ==> Text.IsWhitespace(s[i])
  }

  function ActorId(a: Actor): string {
    if a.SystemActor? then "system" else a.id
  }

  predicate PassedEvaluation(e: CheckEvaluation) {
    e.state.Passed? && e.evidence != [] && !e.verification.Unverified?
  }

  /** A claim of independent verification counts only with the runtime's attestation of another reviewer. */
  predicate Attested(e: CheckEvaluation) {
    && e.verification.IndependentlyVerified?
    && e.review.Some?
    && e.review.value.independent
    && e.review.value.reviewer == ActorId(e.actor)
    && e.review.value.worker != e.review.value.reviewer
    && !Blank(e.review.value.candidate)
    && !Blank(e.review.value.digest)
  }

  function Latest(evaluations: seq<CheckEvaluation>, id: string): Option<CheckEvaluation> {
    if evaluations == [] then None
    else
      var n := |evaluations| - 1;
      if evaluations[n].checkId == id then Some(evaluations[n]) else Latest(evaluations[..n], id)
  }

  predicate LeafSatisfied(evaluations: seq<CheckEvaluation>, id: string, kind: Kind) {
    var e := Latest(evaluations, id);
    && e.Some?
    && PassedEvaluation(e.value)
    && (kind.AgentCheck? && kind.independent ==> Attested(e.value))
  }

  predicate Satisfied(evaluations: seq<CheckEvaluation>, check: Check)
    decreases check
  {
    match check
    case Leaf(id, kind) => LeafSatisfied(evaluations, id, kind)
    case Composite(_, operator, checks, required) =>
      var passed := CountSatisfied(evaluations, checks);
      match operator
      case All => passed == |checks|
      case Ordered => passed == |checks|
      case Any => passed > 0
      case Quorum => passed >= (if required.Some? then required.value else 1)
  }

  function CountSatisfied(evaluations: seq<CheckEvaluation>, checks: seq<Check>): (n: nat)
    ensures n <= |checks|
    decreases checks
  {
    if checks == [] then 0
    else (if Satisfied(evaluations, checks[0]) then 1 else 0) + CountSatisfied(evaluations, checks[1..])
  }

  predicate ChecksSatisfied(g: Goal) {
    g.checks != [] && forall i :: 0 <= i < |g.checks| ==> Satisfied(g.evaluations, g.checks[i])
  }

  /** The first check with this id, depth first. */
  function FindCheck(checks: seq<Check>, id: string): Option<Check>
    decreases checks
  {
    if checks == [] then None
    else if checks[0].id == id then Some(checks[0])
    else
      var inner := if checks[0].Composite? then FindCheck(checks[0].checks, id) else None;
      if inner.Some? then inner else FindCheck(checks[1..], id)
  }

  function KindError(kind: Kind): Option<GoalError> {
    match kind
    case CommandCheck(command) => if Blank(command) then Some(InvalidCheck) else None
    case AgentCheck(agent, criteria, _) =>
      if Blank(agent) || forall i :: 0 <= i < |criteria| ==> Blank(criteria[i]) then Some(InvalidCheck) else None
    case ArtifactCheck(reference) => if Blank(reference) then Some(InvalidCheck) else None
    case EventCheck(eventType) => if Blank(eventType) then Some(InvalidCheck) else None
  }

  /** The ids taken after accepting `check`, or why it is refused. */
  function ValidateCheck(check: Check, ids: set<string>): Result<set<string>, GoalError>
    decreases check
  {
    if Blank(check.id) || check.id in ids then Err(InvalidCheckId(check.id))
    else match check
      case Leaf(id, kind) =>
        (match KindError(kind)
         case Some(e) => Err(e)
         case None => Ok(ids + {id}))
      case Composite(id, _, checks, _) =>
        if checks == [] then Err(InvalidCheck) else ValidateAll(checks, ids + {id})
  }

  function ValidateAll(checks: seq<Check>, ids: set<string>): Result<set<string>, GoalError>
    decreases checks
  {
    if checks == [] then Ok(ids)
    else match ValidateCheck(checks[0], ids)
      case Err(e) => Err(e)
      case Ok(more) => ValidateAll(checks[1..], more)
  }

  function TopIds(checks: seq<Check>): set<string> {
    set i | 0 <= i < |checks| :: checks[i].id
  }

  // ---- Transitions ----

  function Recorded(g: Goal, actor: Actor, t: Transition, to: Status): Goal {
    var revision := SaturatingInc(g.revision);
    g.(status := to, revision := revision, events := g.events + [GoalEvent(actor, t, g.status, to, revision)])
  }

  /** The status a transition asks for and its reason; None for one that keeps the status. */
  function Target(t: Transition): Option<(Status, Option<string>)> {
    match t
    case Activate => Some((Active, None))
    case Queue => Some((Queued, None))
    case Requeue(reason) => Some((Queued, Some(reason)))
    case Wait(reason) => Some((Waiting, Some(reason)))
    case Block(reason) => Some((Blocked, Some(reason)))
    case Succeed => Some((Succeeded, None))
    case Fail(reason) => Some((Failed, Some(reason)))
    case Cancel(reason) => Some((Cancelled, Some(reason)))
    case RequestCancel(reason) => Some((Cancelling, Some(reason)))
    case RejectApproval(reason) => Some((Blocked, Some(reason)))
    case _ => None
  }

  /** The payload of a transition that keeps the status. */
  function WithPayload(g: Goal, actor: Actor, t: Transition): Goal {
    match t
    case Approve => g.(approvedBy := Some(actor))
    case Evaluate(e) => g.(evaluations := g.evaluations + [e])
    case AddCheck(c) => g.(checks := g.checks + [c])
    case LinkArtifact(r) => if r in g.artifacts then g else g.(artifacts := g.artifacts + [r])
    case LinkEvidence(r) => if r in g.evidence then g else g.(evidence := g.evidence + [r])
    case _ => g
  }

  function EvaluateError(g: Goal, actor: Actor, e: CheckEvaluation): Option<GoalError> {
    match FindCheck(g.checks, e.checkId)
    case None => Some(UnknownCheck(e.checkId))
    case Some(Leaf(_, AgentCheck(agent, _, independent))) =>
      if independent then
        if !Attested(e) || ActorId(actor) != ActorId(e.actor) then Some(WrongCheckActor) else None
      else if agent != ActorId(actor) then Some(WrongCheckActor)
      else None
    case _ => None
  }

  function Refusal(g: Goal, actor: Actor, t: Transition): Option<GoalError> {
    if Terminal(g.status) then Some(InvalidTransition(g.status, g.status))
    else match t
      case Evaluate(e) => EvaluateError(g, actor, e)
      case AddCheck(c) => (match ValidateCheck(c, TopIds(g.checks)) case Err(e) => Some(e) case Ok(_) => None)
      case _ =>
        if t.Activate? && g.approvalRequired && g.approvedBy.None? then Some(ApprovalRequired)
        else if t.Activate? && g.checks == [] then Some(NoChecks)
        else if t.Succeed? && !ChecksSatisfied(g) then Some(ChecksNotSatisfied)
        else match Target(t)
          case Some((to, _)) => if ValidTransition(g.status, to) then None else Some(InvalidTransition(g.status, to))
          case None => None
  }

  function Changed(g: Goal, actor: Actor, t: Transition): Goal {
    match Target(t)
    case Some((to, reason)) => Recorded(g.(reason := reason), actor, t, to)
    case None => Recorded(WithPayload(g, actor, t), actor, t, g.status)
  }

  function Transit(g: Goal, actor: Actor, t: Transition): (Goal, Option<GoalError>) {
    var e := Refusal(g, actor, t);
    if e.Some? then (g, e) else (Changed(g, actor, t), None)
  }
}
