/**
 What holds of a goal over every run of attempted transitions: its events are a
 chain that by itself tells the whole goal, success keeps its reasons, and
 terminal and cancelling goals stay so.
 */
module GoalSafety {
  import opened Prelude
  import opened GoalSpec
  import opened GoalChecks

  datatype Attempt = Attempt(actor: Actor, transition: Transition)

  /** A goal just created: with any checks that validation accepts, and no events. */
  predicate Initial(g: Goal) {
    g == Created(g.approvalRequired, g.checks) && ValidateAll(g.checks, {}).Ok?
  }

  /** The goals a run goes through and the attempt, accepted or refused, between each two. */
  ghost predicate IsRun(goals: seq<Goal>, attempts: seq<Attempt>) {
    && |goals| == |attempts| + 1
    && Initial(goals[0])
    && forall i {:trigger attempts[i]} :: 0 <= i < |attempts| ==>
         goals[i + 1] == Transit(goals[i], attempts[i].actor, attempts[i].transition).0
  }

  // ---- Replaying the events ----

  function AddedChecks(events: seq<GoalEvent>): seq<Check> {
    if events == [] then []
    else
      var n := |events| - 1;
      var t := events[n].transition;
      AddedChecks(events[..n]) + (if t.AddCheck? then [t.check] else [])
  }

  function MadeEvaluations(events: seq<GoalEvent>): seq<CheckEvaluation> {
    if events == [] then []
    else
      var n := |events| - 1;
      var t := events[n].transition;
      MadeEvaluations(events[..n]) + (if t.Evaluate? then [t.evaluation] else [])
  }

  function LastApprover(events: seq<GoalEvent>): Option<Actor> {
    if events == [] then None
    else
      var n := |events| - 1;
      if events[n].transition.Approve? then Some(events[n].actor) else LastApprover(events[..n])
  }

  /** References in the order they were first linked. */
  function LinkedArtifacts(events: seq<GoalEvent>): seq<string> {
    if events == [] then []
    else
      var n := |events| - 1;
      var before, t := LinkedArtifacts(events[..n]), events[n].transition;
      if t.LinkArtifact? && t.reference !in before then before + [t.reference] else before
  }

  function LinkedEvidence(events: seq<GoalEvent>): seq<string> {
    if events == [] then []
    else
      var n := |events| - 1;
      var before, t := LinkedEvidence(events[..n]), events[n].transition;
      if t.LinkEvidence? && t.reference !in before then before + [t.reference] else before
  }

  function LastStatus(events: seq<GoalEvent>): Status {
    if events == [] then Proposed else events[|events| - 1].to
  }

  /** The reason given with the last change of status. */
  function LastReason(events: seq<GoalEvent>): Option<string> {
    if events == [] then None
    else
      var n := |events| - 1;
      match Target(events[n].transition)
      case Some((_, reason)) => reason
      case None => LastReason(events[..n])
  }

  /** The goal that `events` make of a goal created as `g0`. */
  function Replayed(g0: Goal, events: seq<GoalEvent>): Goal {
    Goal(LastStatus(events), LastReason(events), g0.checks + AddedChecks(events), MadeEvaluations(events),
         g0.approvalRequired, LastApprover(events), LinkedArtifacts(events), LinkedEvidence(events), events, Min(|events|, U64_MAX))
  }

  /** `e`, the event at `index`, leaves status `before` as the table of moves allows. */
  predicate Follows(before: Status, index: nat, e: GoalEvent) {
    && e.from == before
    && e.revision == Min(index + 1, U64_MAX)
    && !Terminal(before)
    && match Target(e.transition)
       case Some((to, _)) => e.to == to && ValidTransition(before, to)
       case None => e.to == before
  }

  predicate Chained(events: seq<GoalEvent>) {
    forall i :: 0 <= i < |events| ==> Follows(Before(events, i), i, events[i])
  }

  function Before(events: seq<GoalEvent>, i: nat): Status
    requires i < |events|
  {
    if i == 0 then Proposed else events[i - 1].to
  }

  ghost predicate ActivatedProperly(g: Goal) {
    forall i :: 0 <= i < |g.events| && g.events[i].to.Active? ==>
      (g.approvalRequired ==> g.approvedBy.Some?) && g.checks != []
  }

  ghost predicate Inv(g0: Goal, g: Goal) {
    && g == Replayed(g0, g.events)
    && Chained(g.events)
    && (g.status.Succeeded? ==> ChecksSatisfied(g))
    && ActivatedProperly(g)
    && DistinctTops(g.checks)
  }

  predicate DistinctTops(checks: seq<Check>) {
    forall i, j :: 0 <= i < j < |checks| ==> checks[i].id != checks[j].id
  }

  lemma ReplaySnoc(es: seq<GoalEvent>, e: GoalEvent)
    ensures var t, all := e.transition, es + [e];
            && AddedChecks(all) == AddedChecks(es) + (if t.AddCheck? then [t.check] else [])
            && MadeEvaluations(all) == MadeEvaluations(es) + (if t.Evaluate? then [t.evaluation] else [])
            && LastApprover(all) == (if t.Approve? then Some(e.actor) else LastApprover(es))
            && LastReason(all) == (if Target(t).Some? then Target(t).value.1 else LastReason(es))
  {
  }

  lemma LinksSnoc(es: seq<GoalEvent>, e: GoalEvent)
    ensures var t, all := e.transition, es + [e];
            && LinkedArtifacts(all) == LinkedArtifacts(es)
               + (if t.LinkArtifact? && t.reference !in LinkedArtifacts(es) then [t.reference] else [])
            && LinkedEvidence(all) == LinkedEvidence(es)
               + (if t.LinkEvidence? && t.reference !in LinkedEvidence(es) then [t.reference] else [])
  {
  }

  /** An accepted transition adds one event. */
  lemma {:induction false} ChangedEvent(g: Goal, actor: Actor, t: Transition) returns (e: GoalEvent)
    requires g.revision == Min(|g.events|, U64_MAX)
    ensures Changed(g, actor, t).events == g.events + [e] && e.actor == actor && e.transition == t
    ensures e.from == g.status && e.revision == Min(|g.events| + 1, U64_MAX)
    ensures e.to == if Target(t).Some? then Target(t).value.0 else g.status
    ensures Changed(g, actor, t).status == e.to
    ensures Changed(g, actor, t).revision == Min(|g.events| + 1, U64_MAX)
  {
    hide Target, WithPayload;
    PayloadKeeps(g, actor, t);
    var to := if Target(t).Some? then Target(t).value.0 else g.status;
    e := GoalEvent(actor, t, g.status, to, SaturatingInc(g.revision));
  }

  lemma PayloadKeeps(g: Goal, actor: Actor, t: Transition)
    ensures var u := WithPayload(g, actor, t);
            u.events == g.events && u.status == g.status && u.revision == g.revision
  {
  }

  lemma AcceptedMove(g: Goal, actor: Actor, t: Transition)
    requires Refusal(g, actor, t).None?
    ensures !Terminal(g.status)
    ensures Target(t).Some? ==> ValidTransition(g.status, Target(t).value.0)
  {
    hide ChecksSatisfied, ValidateCheck, EvaluateError, ValidTransition;
  }

  lemma {:induction false} ChangedPayload(g: Goal, actor: Actor, t: Transition)
    ensures var u := Changed(g, actor, t);
            && u.approvalRequired == g.approvalRequired
            && u.reason == (if Target(t).Some? then Target(t).value.1 else g.reason)
            && u.checks == g.checks + (if t.AddCheck? then [t.check] else [])
            && u.evaluations == g.evaluations + (if t.Evaluate? then [t.evaluation] else [])
            && u.approvedBy == (if t.Approve? then Some(actor) else g.approvedBy)
            && u.artifacts == g.artifacts + (if t.LinkArtifact? && t.reference !in g.artifacts then [t.reference] else [])
            && u.evidence == g.evidence + (if t.LinkEvidence? && t.reference !in g.evidence then [t.reference] else [])
  {
  }

  lemma {:induction false} ChangedReplays(g0: Goal, g: Goal, actor: Actor, t: Transition)
    requires g == Replayed(g0, g.events)
    ensures Changed(g, actor, t) == Replayed(g0, Changed(g, actor, t).events)
  {
    hide AddedChecks, MadeEvaluations, LastApprover, LastReason, LinkedArtifacts, LinkedEvidence, Target, Changed;
    var e := ChangedEvent(g, actor, t);
    ChangedPayload(g, actor, t);
    ReplaySnoc(g.events, e);
    LinksSnoc(g.events, e);
  }

  lemma ReplayedRevision(g0: Goal, g: Goal)
    requires g == Replayed(g0, g.events)
    ensures g.revision == Min(|g.events|, U64_MAX) && g.status == LastStatus(g.events)
  {
  }

  lemma ChainedSnoc(es: seq<GoalEvent>, e: GoalEvent)
    requires Chained(es) && Follows(LastStatus(es), |es|, e)
    ensures Chained(es + [e])
  {
    hide Follows;
    var all := es + [e];
    forall i | 0 <= i < |all|
      ensures Follows(Before(all, i), i, all[i])
    {
      if i < |es| {
        assert all[i] == es[i] && Before(all, i) == Before(es, i);
      }
    }
  }

  lemma {:induction false} ChangedChains(g0: Goal, g: Goal, actor: Actor, t: Transition)
    requires g == Replayed(g0, g.events) && Chained(g.events)
    requires Refusal(g, actor, t).None?
    ensures Chained(Changed(g, actor, t).events)
  {
    hide Target, Changed, Refusal, Chained, ValidTransition, Replayed;
    ReplayedRevision(g0, g);
    var e := ChangedEvent(g, actor, t);
    AcceptedMove(g, actor, t);
    ChainedSnoc(g.events, e);
  }

  lemma {:induction false} ChangedSucceeds(g: Goal, actor: Actor, t: Transition)
    requires Refusal(g, actor, t).None?
    ensures var u := Changed(g, actor, t);
            u.status.Succeeded? ==> ChecksSatisfied(u)
  {
    hide ValidateCheck, FindCheck, Attested, Satisfied;
  }

  lemma {:induction false} ActivationAllowed(g: Goal, actor: Actor, t: Transition)
    requires Refusal(g, actor, t).None? && t.Activate?
    ensures (g.approvalRequired ==> g.approvedBy.Some?) && g.checks != []
  {
  }

  lemma {:induction false} ChangedActivates(g0: Goal, g: Goal, actor: Actor, t: Transition)
    requires ActivatedProperly(g) && g == Replayed(g0, g.events)
    requires Refusal(g, actor, t).None?
    ensures ActivatedProperly(Changed(g, actor, t))
  {
    hide Changed, Refusal, AddedChecks, MadeEvaluations, LastApprover, LastReason, LinkedArtifacts, LinkedEvidence;
    var e := ChangedEvent(g, actor, t);
    ChangedPayload(g, actor, t);
    if t.Activate? {
      ActivationAllowed(g, actor, t);
    } else if e.to.Active? {
      assert g.events[|g.events| - 1].to.Active?;
    }
  }

  lemma {:induction false} ChangedTops(g: Goal, actor: Actor, t: Transition)
    requires DistinctTops(g.checks) && Refusal(g, actor, t).None?
    ensures DistinctTops(Changed(g, actor, t).checks)
  {
    hide ChecksSatisfied, FindCheck, Attested, ValidTransition;
    if t.AddCheck? {
      assert forall i :: 0 <= i < |g.checks| ==> g.checks[i].id in TopIds(g.checks);
    }
  }

  lemma {:induction false} TransitInv(g0: Goal, g: Goal, actor: Actor, t: Transition)
    requires Inv(g0, g)
    ensures Inv(g0, Transit(g, actor, t).0)
  {
    hide Refusal, Changed, Chained, ActivatedProperly, DistinctTops, ChecksSatisfied;
    if Refusal(g, actor, t).None? {
      ChangedReplays(g0, g, actor, t);
      ChangedChains(g0, g, actor, t);
      ChangedSucceeds(g, actor, t);
      ChangedActivates(g0, g, actor, t);
      ChangedTops(g, actor, t);
      SameApproval(g, actor, t);
    }
  }

  lemma SameApproval(g: Goal, actor: Actor, t: Transition)
    ensures Changed(g, actor, t).approvalRequired == g.approvalRequired
  {
  }

  lemma InitialInv(g: Goal)
    requires Initial(g)
    ensures Inv(g, g)
  {
    assert g.checks + [] == g.checks;
    AllAcceptedExactly(g.checks, {});
    DistinctIdsDistinctTops(g.checks);
  }

  lemma {:induction false} RunInv(goals: seq<Goal>, attempts: seq<Attempt>, k: nat)
    requires IsRun(goals, attempts) && k < |goals|
    ensures Inv(goals[0], goals[k])
  {
    hide Inv, Transit, Initial;
    if k > 0 {
      RunInv(goals, attempts, k - 1);
      TransitInv(goals[0], goals[k - 1], attempts[k - 1].actor, attempts[k - 1].transition);
    } else {
      InitialInv(goals[0]);
    }
  }

  /**
   The events are the goal: status, reason, checks, evaluations, approval and
   links all follow from them and the checks it was created with; each starts where the one before ended, and
   the revision counts them.
   */
  lemma EventsTellTheGoal(goals: seq<Goal>, attempts: seq<Attempt>, k: nat)
    requires IsRun(goals, attempts) && k < |goals|
    ensures var g := goals[k];
            && g == Replayed(goals[0], g.events)
            && Chained(g.events)
            && g.revision == Min(|g.events|, U64_MAX)
  {
    RunInv(goals, attempts, k);
  }

  lemma LastMove(g0: Goal, g: Goal)
    requires Inv(g0, g) && g.status.Succeeded?
    ensures var es := g.events;
            && es != [] && es[|es| - 1].transition.Succeed?
            && (es[|es| - 1].from.Active? || es[|es| - 1].from.Waiting?)
  {
    hide ChecksSatisfied, ActivatedProperly, DistinctTops,
         AddedChecks, MadeEvaluations, LastApprover, LastReason, LinkedArtifacts, LinkedEvidence;
    var es := g.events;
    var n := |es| - 1;
    assert Follows(Before(es, n), n, es[n]);
  }

  /** A goal that succeeded still satisfies its checks, and reached success from work or waiting. */
  lemma SuccessKeepsItsReasons(goals: seq<Goal>, attempts: seq<Attempt>, k: nat)
    requires IsRun(goals, attempts) && k < |goals| && goals[k].status.Succeeded?
    ensures ChecksSatisfied(goals[k])
    ensures var es := goals[k].events;
            && es != [] && es[|es| - 1].transition.Succeed?
            && (es[|es| - 1].from.Active? || es[|es| - 1].from.Waiting?)
  {
    RunInv(goals, attempts, k);
    LastMove(goals[0], goals[k]);
    hide ChecksSatisfied, Chained, ActivatedProperly, DistinctTops, Replayed;
  }

  /** A goal that needs approval has it if it was ever active. */
  lemma ActivationWasApproved(goals: seq<Goal>, attempts: seq<Attempt>, k: nat, i: nat)
    requires IsRun(goals, attempts) && k < |goals|
    requires i < |goals[k].events| && goals[k].events[i].to.Active?
    ensures goals[k].approvalRequired ==> goals[k].approvedBy.Some?
    ensures goals[k].checks != []
  {
    RunInv(goals, attempts, k);
  }

  lemma {:induction false} NeverApproved(events: seq<GoalEvent>)
    ensures LastApprover(events).None? <==> forall i :: 0 <= i < |events| ==> !events[i].transition.Approve?
    decreases |events|
  {
    if events != [] {
      var n := |events| - 1;
      NeverApproved(events[..n]);
      assert events == events[..n] + [events[n]];
    }
  }

  /**
   A succeeded goal that needs approval lacks it if and only if no Approve
   event was recorded. It then never was active and succeeded out of waiting.
   */
  lemma ApprovedSuccessExactly(goals: seq<Goal>, attempts: seq<Attempt>, k: nat)
    requires IsRun(goals, attempts) && k < |goals|
    requires goals[k].status.Succeeded? && goals[k].approvalRequired
    ensures var es := goals[k].events;
            var unapproved := forall i :: 0 <= i < |es| ==> !es[i].transition.Approve?;
            && (goals[k].approvedBy.None? <==> unapproved)
            && (unapproved ==> forall i :: 0 <= i < |es| ==> !es[i].to.Active?)
            && (unapproved ==> es != [] && es[|es| - 1].from.Waiting?)
  {
    hide Inv;
    RunInv(goals, attempts, k);
    ApprovedExactly(goals[0], goals[k]);
  }

  lemma ApprovedExactly(g0: Goal, g: Goal)
    requires Inv(g0, g) && g.status.Succeeded? && g.approvalRequired
    ensures var es := g.events;
            var unapproved := forall i :: 0 <= i < |es| ==> !es[i].transition.Approve?;
            && (g.approvedBy.None? <==> unapproved)
            && (unapproved ==> forall i :: 0 <= i < |es| ==> !es[i].to.Active?)
            && (unapproved ==> es != [] && es[|es| - 1].from.Waiting?)
  {
    hide ChecksSatisfied, Chained, DistinctTops, LastApprover,
         AddedChecks, MadeEvaluations, LastReason, LinkedArtifacts, LinkedEvidence;
    NeverApproved(g.events);
    LastMove(g0, g);
    if g.events[|g.events| - 1].from.Active? {
      OutOfActive(g0, g);
    }
  }

  /** An event that leaves Active follows one that is to Active. */
  lemma OutOfActive(g0: Goal, g: Goal)
    requires Inv(g0, g) && g.events != [] && g.events[|g.events| - 1].from.Active?
    ensures exists i :: 0 <= i < |g.events| && g.events[i].to.Active?
  {
    hide ChecksSatisfied, ActivatedProperly, DistinctTops, Replayed;
    var es := g.events;
    var n := |es| - 1;
    assert Follows(Before(es, n), n, es[n]);
    assert es[n - 1].to.Active?;
  }

  // ---- Running the events again ----

  /** Attempt every recorded transition again, by its recorded actor. */
  function Rerun(g0: Goal, events: seq<GoalEvent>, n: nat): Goal
    requires n <= |events|
  {
    if n == 0 then g0
    else Transit(Rerun(g0, events, n - 1), events[n - 1].actor, events[n - 1].transition).0
  }

  lemma {:induction false} RerunPrefix(g0: Goal, events: seq<GoalEvent>, e: GoalEvent, n: nat)
    requires n <= |events|
    ensures Rerun(g0, events + [e], n) == Rerun(g0, events, n)
  {
    hide Transit;
    if n > 0 {
      RerunPrefix(g0, events, e, n - 1);
    }
  }

  /** The refused attempts leave no trace: running the recorded ones alone gives the same goal, events included. */
  lemma {:induction false} RecordedRunIsTheRun(goals: seq<Goal>, attempts: seq<Attempt>, k: nat)
    requires IsRun(goals, attempts) && k < |goals|
    ensures Rerun(goals[0], goals[k].events, |goals[k].events|) == goals[k]
  {
    hide Refusal;
    if k > 0 {
      RecordedRunIsTheRun(goals, attempts, k - 1);
      var g, a := goals[k - 1], attempts[k - 1];
      if Refusal(g, a.actor, a.transition).None? {
        RerunStep(goals[0], g, a);
      }
    }
  }

  lemma {:induction false} RerunStep(g0: Goal, g: Goal, a: Attempt)
    requires Rerun(g0, g.events, |g.events|) == g
    requires Refusal(g, a.actor, a.transition).None?
    ensures var u := Transit(g, a.actor, a.transition).0;
            Rerun(g0, u.events, |u.events|) == u
  {
    hide Refusal;
    var u := Transit(g, a.actor, a.transition).0;
    var n := |g.events|;
    var e := u.events[n];
    assert u.events == g.events + [e];
    RerunPrefix(g0, g.events, e, n);
  }

  // ---- No way back ----

  lemma {:induction false} TerminalForGood(goals: seq<Goal>, attempts: seq<Attempt>, i: nat, j: nat)
    requires IsRun(goals, attempts) && i <= j < |goals| && Terminal(goals[i].status)
    ensures goals[j] == goals[i]
  {
    if i < j {
      TerminalForGood(goals, attempts, i, j - 1);
      assert goals[j] == Transit(goals[j - 1], attempts[j - 1].actor, attempts[j - 1].transition).0;
    }
  }

  /** From a requested cancellation the only way out is the cancellation. */
  lemma {:induction false} CancellationIsFenced(goals: seq<Goal>, attempts: seq<Attempt>, i: nat, j: nat)
    requires IsRun(goals, attempts) && i <= j < |goals| && goals[i].status.Cancelling?
    ensures goals[j].status.Cancelling? || goals[j].status.Cancelled?
  {
    hide ChecksSatisfied, ValidateCheck, EvaluateError;
    if i < j {
      CancellationIsFenced(goals, attempts, i, j - 1);
      assert goals[j] == Transit(goals[j - 1], attempts[j - 1].actor, attempts[j - 1].transition).0;
    }
  }

  // ---- Where the intent is missed ----

  const WORKER := AgentActor("worker")

  const TESTS := Leaf("tests", CommandCheck("run-tests"))

  const TESTS_PASSED := CheckEvaluation("tests", Passed, WORKER, ["log"], SelfVerified, None)

  function Moved(g: Goal, t: Transition): Goal {
    Changed(g, WORKER, t)
  }

  /** A goal may need approval, never get it, and succeed all the same: by waiting instead of working. */
  lemma UnapprovedSuccess() returns (goals: seq<Goal>, attempts: seq<Attempt>)
    ensures IsRun(goals, attempts)
    ensures var g := goals[|goals| - 1]; g.approvalRequired && g.approvedBy.None? && g.status.Succeeded?
  {
    hide Refusal;
    var evaluate, wait := Evaluate(TESTS_PASSED), Wait("review");
    var s0 := Created(true, [TESTS]);
    var s1 := Moved(s0, evaluate);
    var s2 := Moved(s1, wait);
    var s3 := Moved(s2, Succeed);
    UnapprovedSteps(s0, s1, s2);
    goals := [s0, s1, s2, s3];
    attempts := [Attempt(WORKER, evaluate), Attempt(WORKER, wait), Attempt(WORKER, Succeed)];
  }

  lemma UnapprovedSteps(s0: Goal, s1: Goal, s2: Goal)
    requires s0.status == s1.status == Proposed && s2.status == Waiting
    requires s0.checks == s1.checks == s2.checks == [TESTS]
    requires s2.evaluations == [TESTS_PASSED]
    ensures ValidateAll([TESTS], {}).Ok?
    ensures Refusal(s0, WORKER, Evaluate(TESTS_PASSED)).None?
    ensures Refusal(s1, WORKER, Wait("review")).None?
    ensures Refusal(s2, WORKER, Succeed).None?
  {
    NamedTests();
    assert [TESTS][1..] == [];
    assert ValidateCheck(TESTS, {}).Ok?;
    assert Satisfied(s2.evaluations, TESTS);
  }

  lemma NamedTests()
    ensures !Blank("tests") && !Blank("run-tests") && !Blank("all")
  {
    assert "tests"[0] == 't' && "run-tests"[0] == 'r' && "all"[0] == 'a';
  }

  /** The id of a nested check can be used again at the top. */
  lemma NestedIdsMayCollide() returns (goals: seq<Goal>, attempts: seq<Attempt>)
    ensures IsRun(goals, attempts)
    ensures IdsDistinct(goals[0].checks) && !IdsDistinct(goals[|goals| - 1].checks)
  {
    var group := Composite("all", All, [TESTS], None);
    var s0 := Created(false, [group]);
    var s1 := Moved(s0, AddCheck(TESTS));
    NestedSteps(group);
    goals := [s0, s1];
    attempts := [Attempt(WORKER, AddCheck(TESTS))];
    IdsStayDistinct([group], TESTS);
    assert "tests" in IdsOf(TESTS) && "tests" in IdsOfAll([group]);
  }

  lemma NestedSteps(group: Check)
    requires group == Composite("all", All, [TESTS], None)
    ensures ValidateAll([group], {}).Ok?
    ensures ValidateCheck(TESTS, TopIds([group])).Ok?
    ensures IdsDistinct([group])
    ensures IdsOfAll([group]) == ["all", "tests"]
  {
    NamedTests();
    assert [TESTS][1..] == [] && [group][1..] == [];
    IdsOfOne(TESTS);
    IdsOfOne(group);
    assert NodesOk(TESTS);
    assert AllNodesOk([TESTS][1..]);
    assert AllNodesOk([TESTS]);
    assert NodesOk(group);
    assert AllNodesOk([group][1..]);
    AllAcceptedExactly([group], {});
    assert TopIds([group]) == {"all"} by {
      assert [group][0].id == "all";
    }
  }
}
