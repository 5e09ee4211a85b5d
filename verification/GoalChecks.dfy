/**
 The tree of checks of a goal (crates/core/src/goal.rs): what its operators ask
 for, which evaluations matter to it and how, when a new check is accepted, and
 when the ids of all checks stay distinct, nested ones included.
 */
module GoalChecks {
  import opened Prelude
  import opened GoalSpec

  // ---- Operators ----

  function SatisfiedIndices(evaluations: seq<CheckEvaluation>, checks: seq<Check>): set<nat> {
    set i: nat | i < |checks| && Satisfied(evaluations, checks[i])
  }

  lemma {:induction false} CountSnoc(evaluations: seq<CheckEvaluation>, checks: seq<Check>, last: Check)
    ensures CountSatisfied(evaluations, checks + [last]) ==
            CountSatisfied(evaluations, checks) + (if Satisfied(evaluations, last) then 1 else 0)
    decreases |checks|
  {
    hide Satisfied;
    if checks == [] {
      assert [last][1..] == [];
      assert checks + [last] == [last];
    } else {
      assert (checks + [last])[1..] == checks[1..] + [last];
      CountSnoc(evaluations, checks[1..], last);
    }
  }

  lemma {:induction false} CountIsSize(evaluations: seq<CheckEvaluation>, checks: seq<Check>)
    ensures CountSatisfied(evaluations, checks) == |SatisfiedIndices(evaluations, checks)|
    decreases |checks|
  {
    hide Satisfied;
    if checks == [] {
      assert SatisfiedIndices(evaluations, checks) == {};
    } else {
      var n := |checks| - 1;
      var rest := checks[..n];
      CountIsSize(evaluations, rest);
      assert checks == rest + [checks[n]];
      CountSnoc(evaluations, rest, checks[n]);
      var inner := SatisfiedIndices(evaluations, rest);
      assert SatisfiedIndices(evaluations, checks) == if Satisfied(evaluations, checks[n]) then inner + {n} else inner;
    }
  }

  function Below(n: nat): (s: set<nat>)
    ensures |s| == n
    ensures forall i: nat :: i in s <==> i < n
  {
    if n == 0 then {} else Below(n - 1) + {n - 1}
  }

  lemma AllSize(n: nat, s: set<nat>)
    requires s <= Below(n)
    ensures |s| == n <==> s == Below(n)
  {
    assert Below(n) == s + (Below(n) - s);
  }

  /** What a composite check asks of its children. */
  lemma OperatorsMean(evaluations: seq<CheckEvaluation>, c: Check)
    requires c.Composite?
    ensures var passed := SatisfiedIndices(evaluations, c.checks);
            Satisfied(evaluations, c) <==>
              match c.operator
              case All => forall i :: 0 <= i < |c.checks| ==> Satisfied(evaluations, c.checks[i])
              case Ordered => forall i :: 0 <= i < |c.checks| ==> Satisfied(evaluations, c.checks[i])
              case Any => exists i :: 0 <= i < |c.checks| && Satisfied(evaluations, c.checks[i])
              case Quorum => |passed| >= (if c.required.Some? then c.required.value else 1)
  {
    CountIsSize(evaluations, c.checks);
    var passed := SatisfiedIndices(evaluations, c.checks);
    match c.operator
    case Quorum =>
    case Any =>
      if exists i :: 0 <= i < |c.checks| && Satisfied(evaluations, c.checks[i]) {
        var i: nat :| i < |c.checks| && Satisfied(evaluations, c.checks[i]);
        assert i in passed;
      } else {
        assert passed == {};
      }
    case _ =>
      AllSize(|c.checks|, passed);
      if passed == Below(|c.checks|) {
        forall i | 0 <= i < |c.checks|
          ensures Satisfied(evaluations, c.checks[i])
        {
          var k: nat := i;
          assert k in passed;
        }
      } else {
        var i: nat :| i in Below(|c.checks|) && i !in passed;
        assert !Satisfied(evaluations, c.checks[i]);
      }
  }

  // ---- Monotone in the leaves ----

  function LeavesOf(c: Check): set<(string, Kind)>
    decreases c
  {
    match c
    case Leaf(id, kind) => {(id, kind)}
    case Composite(_, _, checks, _) => LeavesOfAll(checks)
  }

  function LeavesOfAll(checks: seq<Check>): set<(string, Kind)>
    decreases checks
  {
    if checks == [] then {} else LeavesOf(checks[0]) + LeavesOfAll(checks[1..])
  }

  predicate NoLeafLost(before: seq<CheckEvaluation>, after: seq<CheckEvaluation>, leaves: set<(string, Kind)>) {
    forall leaf :: leaf in leaves && LeafSatisfied(before, leaf.0, leaf.1) ==> LeafSatisfied(after, leaf.0, leaf.1)
  }

  /** As long as no leaf of it is lost, a satisfied check stays satisfied, whatever its operators. */
  lemma {:induction false} TreeIsMonotone(before: seq<CheckEvaluation>, after: seq<CheckEvaluation>, c: Check)
    requires NoLeafLost(before, after, LeavesOf(c))
    ensures Satisfied(before, c) ==> Satisfied(after, c)
    decreases c
  {
    hide LeafSatisfied;
    match c
    case Leaf(id, kind) => assert (id, kind) in LeavesOf(c);
    case Composite(_, _, checks, _) => CountIsMonotone(before, after, checks);
  }

  lemma {:induction false} CountIsMonotone(before: seq<CheckEvaluation>, after: seq<CheckEvaluation>, checks: seq<Check>)
    requires NoLeafLost(before, after, LeavesOfAll(checks))
    ensures CountSatisfied(before, checks) <= CountSatisfied(after, checks)
    decreases checks
  {
    hide LeafSatisfied, Satisfied;
    if checks != [] {
      TreeIsMonotone(before, after, checks[0]);
      CountIsMonotone(before, after, checks[1..]);
    }
  }

  lemma LatestAfter(evaluations: seq<CheckEvaluation>, e: CheckEvaluation, id: string)
    ensures Latest(evaluations + [e], id) == if e.checkId == id then Some(e) else Latest(evaluations, id)
  {
  }

  /** A passing, independently attested evaluation never takes a satisfied check away. */
  lemma {:induction false} PassingNeverHurts(evaluations: seq<CheckEvaluation>, e: CheckEvaluation, c: Check)
    requires PassedEvaluation(e) && Attested(e)
    ensures Satisfied(evaluations, c) ==> Satisfied(evaluations + [e], c)
  {
    forall leaf | leaf in LeavesOf(c) && LeafSatisfied(evaluations, leaf.0, leaf.1)
      ensures LeafSatisfied(evaluations + [e], leaf.0, leaf.1)
    {
      LatestAfter(evaluations, e, leaf.0);
    }
    TreeIsMonotone(evaluations, evaluations + [e], c);
  }

  /** Only evaluations of its own leaves matter to a check. */
  lemma {:induction false} OthersDoNotMatter(evaluations: seq<CheckEvaluation>, e: CheckEvaluation, c: Check)
    requires forall leaf :: leaf in LeavesOf(c) ==> leaf.0 != e.checkId
    ensures Satisfied(evaluations, c) <==> Satisfied(evaluations + [e], c)
  {
    forall leaf | leaf in LeavesOf(c)
      ensures LeafSatisfied(evaluations + [e], leaf.0, leaf.1) <==> LeafSatisfied(evaluations, leaf.0, leaf.1)
    {
      LatestAfter(evaluations, e, leaf.0);
    }
    TreeIsMonotone(evaluations, evaluations + [e], c);
    TreeIsMonotone(evaluations + [e], evaluations, c);
  }

  // ---- Accepting checks ----

  /** The ids of a check and all below it, parents first. */
  function IdsOf(c: Check): seq<string>
    decreases c
  {
    match c
    case Leaf(id, _) => [id]
    case Composite(id, _, checks, _) => [id] + IdsOfAll(checks)
  }

  function IdsOfAll(checks: seq<Check>): seq<string>
    decreases checks
  {
    if checks == [] then [] else IdsOf(checks[0]) + IdsOfAll(checks[1..])
  }

  /** No node is malformed by itself. */
  predicate NodesOk(c: Check)
    decreases c
  {
    && !Blank(c.id)
    && match c
       case Leaf(_, kind) => KindError(kind).None?
       case Composite(_, _, checks, _) => checks != [] && AllNodesOk(checks)
  }

  predicate AllNodesOk(checks: seq<Check>)
    decreases checks
  {
    checks != [] ==> NodesOk(checks[0]) && AllNodesOk(checks[1..])
  }

  /** `ids` are distinct and none is taken. */
  predicate AllNew(ids: seq<string>, taken: set<string>) {
    && (forall i :: 0 <= i < |ids| ==> ids[i] !in taken)
    && (forall i, j :: 0 <= i < j < |ids| ==> ids[i] != ids[j])
  }

  function AsSet(ids: seq<string>): set<string> {
    set i | 0 <= i < |ids| :: ids[i]
  }

  lemma AllNewSplit(a: seq<string>, b: seq<string>, taken: set<string>)
    ensures AllNew(a + b, taken) <==> AllNew(a, taken) && AllNew(b, taken + AsSet(a))
    ensures AsSet(a + b) == AsSet(a) + AsSet(b)
  {
    var all := a + b;
    if AllNew(a, taken) && AllNew(b, taken + AsSet(a)) {
      forall i, j | 0 <= i < j < |all|
        ensures all[i] != all[j]
      {
        if i < |a| <= j {
          assert a[i] in AsSet(a) && b[j - |a|] !in taken + AsSet(a);
        } else if |a| <= i {
          assert b[i - |a|] != b[j - |a|];
        }
      }
      forall i | 0 <= i < |all|
        ensures all[i] !in taken
      {
        if i >= |a| {
          assert b[i - |a|] !in taken + AsSet(a);
        }
      }
    } else if AllNew(all, taken) {
      NewParts(a, b, taken);
    }
    assert forall i :: 0 <= i < |b| ==> all[|a| + i] == b[i];
    assert forall i :: 0 <= i < |a| ==> all[i] == a[i];
  }

  lemma NewParts(a: seq<string>, b: seq<string>, taken: set<string>)
    requires AllNew(a + b, taken)
    ensures AllNew(a, taken) && AllNew(b, taken + AsSet(a))
  {
    var all := a + b;
    assert forall i :: 0 <= i < |a| ==> all[i] == a[i];
    assert forall i :: 0 <= i < |b| ==> all[|a| + i] == b[i];
    forall i | 0 <= i < |b|
      ensures b[i] !in AsSet(a)
    {
      assert forall k :: 0 <= k < |a| ==> all[k] != all[|a| + i];
    }
  }

  /** A check is accepted exactly when its nodes are in order and its ids are new and distinct; then they are all taken. */
  lemma {:induction false} AcceptedExactly(c: Check, ids: set<string>)
    ensures var r := ValidateCheck(c, ids);
            && (r.Ok? <==> NodesOk(c) && AllNew(IdsOf(c), ids))
            && (r.Ok? ==> r.value == ids + AsSet(IdsOf(c)))
    decreases c
  {
    hide KindError;
    match c
    case Leaf(id, _) => assert AsSet([id]) == {id} by { assert [id][0] == id; }
    case Composite(id, _, checks, _) =>
      AllNewSplit([id], IdsOfAll(checks), ids);
      assert AsSet([id]) == {id} by { assert [id][0] == id; }
      AllAcceptedExactly(checks, ids + {id});
  }

  lemma {:induction false} AllAcceptedExactly(checks: seq<Check>, ids: set<string>)
    ensures var r := ValidateAll(checks, ids);
            && (r.Ok? <==> AllNodesOk(checks) && AllNew(IdsOfAll(checks), ids))
            && (r.Ok? ==> r.value == ids + AsSet(IdsOfAll(checks)))
    decreases checks
  {
    hide ValidateCheck, NodesOk, IdsOf;
    if checks != [] {
      AcceptedExactly(checks[0], ids);
      AllNewSplit(IdsOf(checks[0]), IdsOfAll(checks[1..]), ids);
      AllAcceptedExactly(checks[1..], ids + AsSet(IdsOf(checks[0])));
    } else {
      assert AsSet([]) == {};
    }
  }

  lemma {:induction false} IdsOfAllConcat(a: seq<Check>, b: seq<Check>)
    ensures IdsOfAll(a + b) == IdsOfAll(a) + IdsOfAll(b)
    decreases |a|
  {
    if a == [] {
      assert a + b == b;
    } else {
      assert (a + b)[1..] == a[1..] + b;
      IdsOfAllConcat(a[1..], b);
    }
  }

  /** No id occurs twice, at the top or below. */
  predicate IdsDistinct(checks: seq<Check>) {
    AllNew(IdsOfAll(checks), {})
  }

  lemma {:induction false} TopsAmongIds(checks: seq<Check>, i: nat)
    requires i < |checks|
    ensures checks[i].id in IdsOfAll(checks)
    decreases |checks|
  {
    if i > 0 {
      TopsAmongIds(checks[1..], i - 1);
    } else {
      assert IdsOf(checks[0])[0] == checks[0].id;
    }
  }

  lemma {:induction false} DistinctIdsDistinctTops(checks: seq<Check>)
    requires IdsDistinct(checks)
    ensures forall i, j :: 0 <= i < j < |checks| ==> checks[i].id != checks[j].id
    decreases |checks|
  {
    if checks != [] {
      var a, b := IdsOf(checks[0]), IdsOfAll(checks[1..]);
      AllNewSplit(a, b, {});
      assert {} + AsSet(a) == AsSet(a);
      assert AllNew(b, {});
      DistinctIdsDistinctTops(checks[1..]);
      forall j | 0 < j < |checks|
        ensures checks[0].id != checks[j].id
      {
        TopsAmongIds(checks[1..], j - 1);
        assert a[0] in AsSet(a);
      }
    }
  }

  lemma DistinctTogether(a: seq<string>, b: seq<string>)
    requires AllNew(a, {}) && AllNew(b, {})
    ensures AllNew(a + b, {}) <==> forall id :: id in b ==> id !in a
  {
    var all := a + b;
    assert forall i :: 0 <= i < |b| ==> all[|a| + i] == b[i];
    if exists id :: id in b && id in a {
      var id :| id in b && id in a;
      var i :| 0 <= i < |a| && a[i] == id;
      var j :| 0 <= j < |b| && b[j] == id;
      assert all[i] == all[|a| + j];
    } else {
      forall i, j | 0 <= i < j < |all|
        ensures all[i] != all[j]
      {
        if i < |a| <= j {
          assert a[i] in a && b[j - |a|] in b;
        }
      }
    }
  }

  /**
   A new check is compared only with the ids at the top. So all ids stay
   distinct if and only if none of its ids is already nested below the top.
   */
  lemma {:induction false} IdsStayDistinct(checks: seq<Check>, c: Check)
    requires IdsDistinct(checks) && ValidateCheck(c, TopIds(checks)).Ok?
    ensures IdsDistinct(checks + [c]) <==> forall id :: id in IdsOf(c) ==> id !in IdsOfAll(checks)
  {
    hide ValidateCheck, IdsOf, TopIds;
    AcceptedExactly(c, TopIds(checks));
    IdsOfAllConcat(checks, [c]);
    IdsOfOne(c);
    hide IdsOfAll;
    DistinctTogether(IdsOfAll(checks), IdsOf(c));
  }

  lemma IdsOfOne(c: Check)
    ensures IdsOfAll([c]) == IdsOf(c)
  {
    assert [c][1..] == [];
  }
}
