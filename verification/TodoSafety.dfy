/**
 What every run of ledger operations keeps (crates/core/src/todo.rs): a valid
 ledger, one winner for each revision, finished items that stay finished, an
 evaluation that is ready exactly when all is done, and an assessment that erases
 exactly its cycle.
 */
module TodoSafety {
  import opened Prelude
  import opened TodoSpec

  // ---- The invariant ----

  ghost predicate Keyed(l: Ledger) {
    && (forall c :: c in l.cycles ==> l.cycles[c].id == c)
    && (forall id :: id in l.items ==> l.items[id].id == id)
  }

  ghost predicate ListsDistinct(l: Ledger) {
    forall c :: c in l.cycles ==> Distinct(l.cycles[c].itemIds)
  }

  ghost predicate ListsOwn(l: Ledger) {
    forall c, id :: c in l.cycles && id in l.cycles[c].itemIds ==> id in l.items && l.items[id].cycle == c
  }

  ghost predicate ItemsListed(l: Ledger) {
    forall id :: id in l.items ==> l.items[id].cycle in l.cycles && id in l.cycles[l.items[id].cycle].itemIds
  }

  /** A cycle lists exactly the items that name it, each once. */
  ghost predicate Linked(l: Ledger) {
    ListsDistinct(l) && ListsOwn(l) && ItemsListed(l)
  }

  ghost predicate InJournal(journal: seq<Receipt>, rid: string, cycle: string, item: string) {
    exists i :: 0 <= i < |journal| && journal[i].id == rid && journal[i].cycle == cycle && journal[i].item == Some(item)
  }

  /** Receipt ids are unique, and an item's receipts are in the journal under its own cycle and name. */
  ghost predicate Evidenced(l: Ledger) {
    && UniqueReceipts(l.journal)
    && (forall i :: 0 <= i < |l.journal| ==> l.journal[i].cycle in l.cycles)
    && (forall id, rid :: id in l.items && rid in l.items[id].receipts ==>
          InJournal(l.journal, rid, l.items[id].cycle, id))
  }

  ghost predicate Strong(l: Ledger) {
    ActiveOk(l) && Keyed(l) && Linked(l) && Evidenced(l)
  }

  /** New ids are new. */
  ghost predicate FreshFor(l: Ledger, op: Op) {
    match op
    case Begin(_, _, id, _) => id !in l.cycles
    case Add(_, _, id, _) => id !in l.items
    case Attach(_, _, id, _) => forall i :: 0 <= i < |l.journal| ==> l.journal[i].id != id
    case _ => true
  }

  // ---- Each kind of change ----

  /** Nothing that ties cycles and items together differs. */
  ghost predicate SameLinks(l: Ledger, t: Ledger) {
    && t.active == l.active
    && t.cycles.Keys == l.cycles.Keys
    && t.items.Keys == l.items.Keys
    && (forall c :: c in l.cycles ==>
          var x, y := l.cycles[c], t.cycles[c];
          x.id == y.id && x.itemIds == y.itemIds && (x.status.Active? ==> y.status.Active?))
    && (forall id :: id in l.items ==> l.items[id].id == t.items[id].id && l.items[id].cycle == t.items[id].cycle)
  }

  lemma {:induction false} SameLinksKeep(l: Ledger, t: Ledger)
    requires SameLinks(l, t) && ActiveOk(l) && Keyed(l) && Linked(l)
    ensures ActiveOk(t) && Keyed(t) && Linked(t)
  {
  }

  /** The journal keeps its receipts and the items gain none. */
  lemma {:induction false} SameReceiptsKeep(l: Ledger, t: Ledger)
    requires SameLinks(l, t) && Evidenced(l) && t.journal == l.journal
    requires forall id :: id in l.items ==> t.items[id].receipts == l.items[id].receipts
    ensures Evidenced(t)
  {
  }

  lemma {:induction false} BegunStrong(l: Ledger, intent: Intent, id: string, now: nat)
    requires Strong(l) && id !in l.cycles && l.revision < U64_MAX
    ensures Strong(Begun(l, intent, id, now))
  {
    var t := Begun(l, intent, id, now);
    assert forall c :: c in l.cycles ==> t.cycles[c] == l.cycles[c];
    forall x, rid | x in t.items && rid in t.items[x].receipts
      ensures InJournal(t.journal, rid, t.items[x].cycle, x)
    {
      assert InJournal(l.journal, rid, l.items[x].cycle, x);
    }
  }

  lemma {:induction false} AddedShape(l: Ledger, item: NewItem, id: string, now: nat)
    requires l.active.Some? && l.active.value in l.cycles && l.revision < U64_MAX
    ensures var t, c := Added(l, item, id, now), l.active.value;
            && t.active == l.active && t.journal == l.journal
            && t.cycles.Keys == l.cycles.Keys
            && t.items.Keys == l.items.Keys + {id}
            && t.cycles[c] == l.cycles[c].(itemIds := l.cycles[c].itemIds + [id], revision := l.revision + 1)
            && (forall x :: x in l.cycles && x != c ==> t.cycles[x] == l.cycles[x])
            && t.items[id].id == id && t.items[id].cycle == c && t.items[id].receipts == []
            && (forall x :: x in l.items && x != id ==> t.items[x] == l.items[x])
  {
  }

  lemma {:induction false} AddedLinks(l: Ledger, item: NewItem, id: string, now: nat)
    requires Strong(l) && l.active.Some? && id !in l.items && l.revision < U64_MAX
    ensures var t := Added(l, item, id, now); ActiveOk(t) && Keyed(t) && Linked(t)
  {
    hide Evidenced, Added, ListsDistinct, ListsOwn, ItemsListed;
    AddedShape(l, item, id, now);
    AddedDistinct(l, item, id, now);
    AddedOwn(l, item, id, now);
    AddedListed(l, item, id, now);
  }

  lemma {:induction false} AddedDistinct(l: Ledger, item: NewItem, id: string, now: nat)
    requires ListsDistinct(l) && ListsOwn(l)
    requires l.active.Some? && l.active.value in l.cycles && id !in l.items && l.revision < U64_MAX
    ensures ListsDistinct(Added(l, item, id, now))
  {
    hide Added;
    AddedShape(l, item, id, now);
    var c := l.active.value;
    assert id !in l.cycles[c].itemIds;
    assert Distinct(l.cycles[c].itemIds + [id]);
  }

  lemma {:induction false} AddedOwn(l: Ledger, item: NewItem, id: string, now: nat)
    requires ListsOwn(l)
    requires l.active.Some? && l.active.value in l.cycles && id !in l.items && l.revision < U64_MAX
    ensures ListsOwn(Added(l, item, id, now))
  {
    hide Added;
    AddedShape(l, item, id, now);
  }

  lemma {:induction false} AddedListed(l: Ledger, item: NewItem, id: string, now: nat)
    requires ItemsListed(l)
    requires l.active.Some? && l.active.value in l.cycles && id !in l.items && l.revision < U64_MAX
    ensures ItemsListed(Added(l, item, id, now))
  {
    hide Added;
    AddedShape(l, item, id, now);
    var t := Added(l, item, id, now);
    var ids := t.cycles[l.active.value].itemIds;
    assert ids[|ids| - 1] == id;
  }

  lemma {:induction false} AddedStrong(l: Ledger, item: NewItem, id: string, now: nat)
    requires Strong(l) && l.active.Some? && id !in l.items && l.revision < U64_MAX
    ensures Strong(Added(l, item, id, now))
  {
    AddedLinks(l, item, id, now);
    hide Linked, Keyed;
    var t := Added(l, item, id, now);
    assert t.journal == l.journal && t.cycles.Keys == l.cycles.Keys;
    forall x, rid | x in t.items && rid in t.items[x].receipts
      ensures InJournal(t.journal, rid, t.items[x].cycle, x)
    {
      assert x in l.items && t.items[x] == l.items[x];
      assert InJournal(l.journal, rid, l.items[x].cycle, x);
    }
  }

  /** Rewriting items without touching their links. */
  lemma {:induction false} StoredStrong(l: Ledger, items: map<string, Item>, n: nat)
    requires Strong(l) && items.Keys == l.items.Keys
    requires forall id :: id in items ==>
               items[id].id == l.items[id].id && items[id].cycle == l.items[id].cycle && items[id].receipts == l.items[id].receipts
    ensures Strong(l.(items := items, revision := n))
  {
  }

  lemma {:induction false} AttachedLinks(l: Ledger, a: Attachment, id: string, now: nat)
    requires ActiveOk(l) && l.active.Some? && l.revision < U64_MAX
    requires a.item.Some? ==> a.item.value in l.items
    ensures SameLinks(l, Attached(l, a, id, now))
  {
  }

  lemma {:induction false} AttachedEvidence(l: Ledger, a: Attachment, id: string, now: nat)
    requires Strong(l) && l.active.Some? && l.revision < U64_MAX
    requires a.item.Some? ==> a.item.value in l.items && l.items[a.item.value].cycle == l.active.value
    requires forall i :: 0 <= i < |l.journal| ==> l.journal[i].id != id
    ensures Evidenced(Attached(l, a, id, now))
  {
    hide Keyed, Linked;
    var t := Attached(l, a, id, now);
    var last := |l.journal|;
    assert t.cycles.Keys == l.cycles.Keys;
    assert forall i :: 0 <= i < last ==> t.journal[i] == l.journal[i];
    forall x, rid | x in t.items && rid in t.items[x].receipts
      ensures InJournal(t.journal, rid, t.items[x].cycle, x)
    {
      if x in l.items && rid in l.items[x].receipts {
        assert InJournal(l.journal, rid, l.items[x].cycle, x);
        var i :| 0 <= i < last && l.journal[i].id == rid && l.journal[i].cycle == l.items[x].cycle && l.journal[i].item == Some(x);
        assert t.journal[i] == l.journal[i];
      } else {
        assert t.journal[last].id == rid;
      }
    }
  }

  // ---- Erasing a cycle ----

  lemma {:induction false} WithoutMembers(journal: seq<Receipt>, cycle: string)
    ensures forall r :: r in Without(journal, cycle) <==> r in journal && r.cycle != cycle
    ensures |Without(journal, cycle)| + CountReceipts(journal, cycle) == |journal|
  {
    if journal != [] {
      var n := |journal| - 1;
      WithoutMembers(journal[..n], cycle);
      assert journal == journal[..n] + [journal[n]];
    }
  }

  lemma {:induction false} WithoutUnique(journal: seq<Receipt>, cycle: string)
    requires UniqueReceipts(journal)
    ensures UniqueReceipts(Without(journal, cycle))
  {
    if journal != [] {
      var n := |journal| - 1;
      WithoutUnique(journal[..n], cycle);
      WithoutMembers(journal[..n], cycle);
      var rest := Without(journal[..n], cycle);
      assert forall i :: 0 <= i < |rest| ==> rest[i] in rest;
      assert forall r :: r in journal[..n] ==> r.id != journal[n].id;
    }
  }

  lemma {:induction false} AssessedShape(l: Ledger, now: nat)
    requires Strong(l) && Evaluate(l).Ready?
    ensures l.active.Some? && l.active.value in l.cycles
    ensures var t, c := Assessed(l, now), l.active.value;
            && t.active == None && t.revision == l.revision + 1
            && t.journal == Without(l.journal, c)
            && t.cycles == l.cycles - {c}
            && (forall x :: x in t.items <==> x in l.items && l.items[x].cycle != c)
            && (forall x :: x in t.items ==> t.items[x] == l.items[x])
  {
    hide Evidenced, EvaluateCycle, Without, Distinct, CountReceipts, CountCompleted, TallyOf;
    var c := l.active.value;
    assert forall x :: x in l.cycles[c].itemIds ==> x in l.items && l.items[x].cycle == c;
    assert forall x :: x in l.items && l.items[x].cycle == c ==> x in l.cycles[c].itemIds;
  }

  lemma {:induction false} AssessedLinks(l: Ledger, now: nat)
    requires Strong(l) && Evaluate(l).Ready?
    ensures var t := Assessed(l, now); ActiveOk(t) && Keyed(t) && Linked(t)
  {
    hide Evidenced, Evaluate, Without, Assessed;
    AssessedShape(l, now);
  }

  lemma {:induction false} AssessedEvidence(l: Ledger, now: nat)
    requires Strong(l) && Evaluate(l).Ready?
    ensures Evidenced(Assessed(l, now))
  {
    hide EvaluateCycle, Without;
    var c := l.active.value;
    var t := Assessed(l, now);
    WithoutMembers(l.journal, c);
    assert UniqueReceipts(l.journal);
    WithoutUnique(l.journal, c);
    forall i | 0 <= i < |t.journal|
      ensures t.journal[i].cycle in t.cycles
    {
      assert t.journal[i] in t.journal;
    }
    forall x, rid | x in t.items && rid in t.items[x].receipts
      ensures InJournal(t.journal, rid, t.items[x].cycle, x)
    {
      assert x in l.items && l.items[x].cycle != c;
      assert InJournal(l.journal, rid, l.items[x].cycle, x);
      var i :| 0 <= i < |l.journal| && l.journal[i].id == rid && l.journal[i].cycle == l.items[x].cycle && l.journal[i].item == Some(x);
      assert l.journal[i] in t.journal;
    }
  }

  // ---- Every operation ----

  lemma {:induction false} ItemStep(l: Ledger, op: Op)
    requires Strong(l)
    requires op.Update? || op.Complete? || op.CompleteMany? || op.Cancel? || op.Block?
    ensures Strong(Apply(l, op).0)
  {
    hide Strong;
    if Refusal(l, op).None? {
      if op.CompleteMany? {
        BatchMembers(l, op.itemIds, {});
      }
      StoredStrong(l, Apply(l, op).0.items, l.revision + 1);
    }
  }

  lemma {:induction false} CycleStep(l: Ledger, op: Op)
    requires Strong(l) && FreshFor(l, op)
    requires op.Begin? || op.Archive? || op.Assess?
    ensures Strong(Apply(l, op).0)
  {
    hide Linked, Evidenced, Assessed, Evaluate, InJournal;
    if Refusal(l, op).None? {
      match op
      case Begin(_, intent, id, now) => BegunStrong(l, intent, id, now);
      case Assess(_, now) =>
        if Evaluate(l).Ready? {
          AssessedLinks(l, now);
          AssessedEvidence(l, now);
        }
      case Archive(_, c) =>
        var t := Apply(l, op).0;
        assert SameLinks(l, t);
        SameLinksKeep(l, t);
        SameReceiptsKeep(l, t);
    }
  }

  lemma {:induction false} GrowthStep(l: Ledger, op: Op)
    requires Strong(l) && FreshFor(l, op)
    requires op.Add? || op.Attach?
    ensures Strong(Apply(l, op).0)
  {
    hide Linked, Keyed, Evidenced, Added, Attached;
    if Refusal(l, op).None? {
      match op
      case Add(_, item, id, now) => AddedStrong(l, item, id, now);
      case Attach(_, a, id, now) =>
        AttachedLinks(l, a, id, now);
        SameLinksKeep(l, Attached(l, a, id, now));
        AttachedEvidence(l, a, id, now);
    }
  }

  /** Every operation keeps the invariant. */
  lemma {:induction false} StepStrong(l: Ledger, op: Op)
    requires Strong(l) && FreshFor(l, op)
    ensures Strong(Apply(l, op).0)
  {
    hide Strong, Apply, FreshFor;
    StrongHasActive(l);
    match op
    case Add(_, _, _, _) => GrowthStep(l, op);
    case Attach(_, _, _, _) => GrowthStep(l, op);
    case Begin(_, _, _, _) => CycleStep(l, op);
    case Archive(_, _) => CycleStep(l, op);
    case Assess(_, _) => CycleStep(l, op);
    case _ => ItemStep(l, op);
  }

  lemma StrongHasActive(l: Ledger)
    requires Strong(l)
    ensures ActivePresent(l)
  {
  }

  // ---- One operation ----

  /**
   A refused operation leaves the ledger as it was; one that took effect was
   asked for at the current revision and moves it by one.
   */
  lemma {:induction false} RefusalChangesNothing(l: Ledger, op: Op)
    requires Strong(l)
    ensures var (t, e) := Apply(l, op);
            && (e.Some? ==> t == l)
            && (e.None? ==> op.expected == l.revision)
            && (t != l ==> t.revision == l.revision + 1 <= U64_MAX)
  {
    hide Evaluate, Keyed, Linked, Evidenced;
  }

  /** What may still change about a finished item. */
  predicate SameOutcome(a: Item, b: Item) {
    b == a.(receipts := b.receipts, updatedAt := b.updatedAt, revision := b.revision)
  }

  /** A finished item keeps its title, status and outcome until its whole cycle is assessed. */
  lemma {:induction false} FinishedStaysFinished(l: Ledger, op: Op, id: string)
    requires Strong(l) && FreshFor(l, op)
    requires id in l.items && Terminal(l.items[id].status)
    ensures var t := Apply(l, op).0;
            if id in t.items then SameOutcome(l.items[id], t.items[id])
            else op.Assess? && Evaluate(l).Ready? && l.active == Some(l.items[id].cycle)
  {
    hide Evaluate, Strong, Assessed, ValidText;
    StrongHasActive(l);
    if Refusal(l, op).None? {
      if op.CompleteMany? {
        BatchMembers(l, op.itemIds, {});
      } else if op.Assess? && Evaluate(l).Ready? {
        AssessedShape(l, op.now);
      }
    }
  }

  // ---- Completion ----

  /** The items of a cycle. */
  function ItemsOf(l: Ledger, c: string): set<string> {
    set id | id in l.items && l.items[id].cycle == c
  }

  lemma {:induction false} ListIsItems(l: Ledger, c: string)
    requires Strong(l) && c in l.cycles
    ensures forall id :: id in l.cycles[c].itemIds <==> id in ItemsOf(l, c)
  {
    hide Keyed, Evidenced, ListsDistinct;
  }

  lemma {:induction false} TallyMeans(items: map<string, Item>, ids: seq<string>)
    requires forall id :: id in ids ==> id in items
    ensures TallyOf(items, ids).unfinished == [] <==> forall id :: id in ids ==> Terminal(items[id].status)
    ensures TallyOf(items, ids).deficits == [] <==> forall id :: id in ids ==> !Deficient(items[id])
  {
    if ids != [] {
      var n := |ids| - 1;
      TallyMeans(items, ids[..n]);
      assert ids == ids[..n] + [ids[n]];
    }
  }

  /** What stands between the active cycle and its end: some item open, or completed without its evidence. */
  predicate AllDone(l: Ledger, c: string) {
    && ItemsOf(l, c) != {}
    && forall id :: id in ItemsOf(l, c) ==> Terminal(l.items[id].status) && !Deficient(l.items[id])
  }

  /** The ledger is ready exactly when the active cycle has items, all are finished, and required evidence is there. */
  lemma {:induction false} ReadyExactlyWhenDone(l: Ledger)
    requires Strong(l)
    ensures Evaluate(l).Ready? <==>
              l.active.Some? && l.cycles[l.active.value].outcome.None? && AllDone(l, l.active.value)
  {
    if l.active.Some? {
      var c := l.active.value;
      var ids := l.cycles[c].itemIds;
      ListIsItems(l, c);
      assert forall id :: id in ids ==> id in l.items;
      TallyMeans(l.items, ids);
      hide TallyOf, Evidenced, Deficient, Terminal, ListsDistinct, ItemsListed, Keyed;
      assert ids == [] <==> ItemsOf(l, c) == {} by {
        if ids != [] {
          assert ids[0] in ItemsOf(l, c);
        }
      }
    }
  }

  lemma {:induction false} DistinctSize(ids: seq<string>, s: set<string>)
    requires Distinct(ids) && forall id :: id in ids <==> id in s
    ensures |ids| == |s|
  {
    if ids == [] {
      assert s == {};
    } else {
      var n := |ids| - 1;
      assert ids == ids[..n] + [ids[n]];
      assert forall i :: 0 <= i < n ==> ids[..n][i] == ids[i];
      DistinctSize(ids[..n], s - {ids[n]});
    }
  }

  function CompletedIds(items: map<string, Item>, s: set<string>): set<string> {
    set id | id in s && id in items && items[id].status.Completed?
  }

  lemma {:induction false} CompletedSize(items: map<string, Item>, ids: seq<string>, s: set<string>)
    requires Distinct(ids) && forall id :: id in ids <==> id in s
    ensures CountCompleted(items, ids) == |CompletedIds(items, s)|
  {
    if ids == [] {
      assert CompletedIds(items, s) == {};
    } else {
      var n := |ids| - 1;
      var id := ids[n];
      assert ids == ids[..n] + [id];
      assert forall i :: 0 <= i < n ==> ids[..n][i] == ids[i];
      CompletedSize(items, ids[..n], s - {id});
      var before, after := CompletedIds(items, s - {id}), CompletedIds(items, s);
      assert after == if id in items && items[id].status.Completed? then before + {id} else before;
    }
  }

  /**
   Assessing a ready ledger erases exactly the active cycle: other cycles, their
   items and their receipts stay. The outcome counts every item once and every
   erased receipt.
   */
  lemma {:induction false} AssessErasesTheCycle(l: Ledger, now: nat)
    requires Strong(l) && Evaluate(l).Ready? && l.revision < U64_MAX
    ensures l.active.Some?
    ensures var c, t := l.active.value, Apply(l, Assess(l.revision, now)).0;
            && t.active.None?
            && t.cycles == l.cycles - {c}
            && (forall id :: id in t.items <==> id in l.items && id !in ItemsOf(l, c))
            && (forall id :: id in t.items ==> t.items[id] == l.items[id])
            && (forall r :: r in t.journal <==> r in l.journal && r.cycle != c)
            && t.lastOutcome.Some? && t.lastOutcome.value.0 == c
            && var o := t.lastOutcome.value.1;
               && o.completed + o.cancelled == |ItemsOf(l, c)|
               && o.completed == |CompletedIds(l.items, ItemsOf(l, c))|
               && (o.kind == AllCancelled <==> CompletedIds(l.items, ItemsOf(l, c)) == {})
               && o.receipts == |l.journal| - |t.journal|
               && o.revision == t.revision
  {
    AssessedShape(l, now);
    var c := l.active.value;
    WithoutMembers(l.journal, c);
    ListIsItems(l, c);
    AssessedCounts(l, now);
    hide Strong, Evaluate, Without;
  }

  lemma {:induction false} AssessedCounts(l: Ledger, now: nat)
    requires Strong(l) && Evaluate(l).Ready?
    ensures var c, o := l.active.value, OutcomeOf(l, now);
            && Assessed(l, now).lastOutcome == Some((c, o))
            && o.completed + o.cancelled == |ItemsOf(l, c)|
            && o.completed == |CompletedIds(l.items, ItemsOf(l, c))|
            && (o.kind == AllCancelled <==> CompletedIds(l.items, ItemsOf(l, c)) == {})
            && o.receipts == CountReceipts(l.journal, c)
            && o.revision == l.revision + 1
  {
    hide Evidenced, ListsOwn, ItemsListed, TallyOf, CountCompleted, CountReceipts;
    var c := l.active.value;
    ListIsItems(l, c);
    DistinctSize(l.cycles[c].itemIds, ItemsOf(l, c));
    CompletedSize(l.items, l.cycles[c].itemIds, ItemsOf(l, c));
  }

  // ---- A batch is its members ----

  /** Completing one after the other, each at the revision it finds. */
  function CompleteEach(l: Ledger, ids: seq<string>, outcome: Option<string>, now: nat): (Ledger, Option<TodoError>)
    decreases ids
  {
    if ids == [] then (l, None)
    else
      var (t, e) := Apply(l, Complete(l.revision, ids[0], outcome, now));
      if e.Some? then (t, e) else CompleteEach(t, ids[1..], outcome, now)
  }

  function Unstamped(item: Item): Item {
    item.(updatedAt := 0, revision := 0)
  }

  /** Equal but for revisions and times of items. */
  ghost predicate SameButStamps(a: Ledger, b: Ledger) {
    && b == a.(revision := b.revision, items := b.items)
    && a.items.Keys == b.items.Keys
    && forall id :: id in a.items ==> Unstamped(a.items[id]) == Unstamped(b.items[id])
  }

  predicate Completable(l: Ledger, ids: seq<string>) {
    Distinct(ids) && forall id :: id in ids ==> EnsureOpenItem(l, id).None?
  }

  lemma {:induction false} BatchExactly(l: Ledger, ids: seq<string>, seen: set<string>)
    ensures CheckBatch(l, ids, seen).None? <==> Completable(l, ids) && forall id :: id in ids ==> id !in seen
  {
    hide EnsureOpenItem;
    if ids != [] {
      var rest := ids[1..];
      BatchExactly(l, rest, seen + {ids[0]});
      assert ids == [ids[0]] + rest;
      assert Distinct(ids) <==> Distinct(rest) && ids[0] !in rest by {
        assert forall i :: 0 <= i < |rest| ==> rest[i] == ids[i + 1];
        if ids[0] in rest {
          var i :| 0 <= i < |rest| && rest[i] == ids[0];
          assert ids[i + 1] == ids[0];
        }
      }
    }
  }

  /** What the batch does, said item by item. */
  predicate CompletedBy(a: Ledger, b: Ledger, ids: seq<string>, outcome: Option<string>) {
    && b == a.(revision := b.revision, items := b.items)
    && a.items.Keys == b.items.Keys
    && forall id :: id in a.items ==>
         Unstamped(b.items[id]) == Unstamped(if id in ids then Finished(a.items[id], Completed, outcome) else a.items[id])
  }

  lemma {:induction false} CompleteOne(l: Ledger, id: string, outcome: Option<string>, now: nat)
    requires l.revision < U64_MAX && CheckOptional("outcome", outcome).None?
    ensures var (t, e) := Apply(l, Complete(l.revision, id, outcome, now));
            && (e.None? <==> EnsureOpenItem(l, id).None?)
            && (e.None? ==>
                  && id in l.items
                  && t.revision == l.revision + 1
                  && CompletedBy(l, t, [id], outcome)
                  && (forall x :: EnsureOpenItem(t, x).None? <==> x != id && EnsureOpenItem(l, x).None?))
  {
    hide ValidText, CheckOptional;
  }

  lemma {:induction false} CompleteEachMeans(l: Ledger, ids: seq<string>, outcome: Option<string>, now: nat)
    requires CheckOptional("outcome", outcome).None? && l.revision + |ids| <= U64_MAX
    ensures var (t, e) := CompleteEach(l, ids, outcome, now);
            && (e.None? <==> Completable(l, ids))
            && (e.None? ==> CompletedBy(l, t, ids, outcome))
    decreases |ids|
  {
    hide EnsureOpenItem, CheckOptional, Apply;
    if ids != [] {
      CompleteOne(l, ids[0], outcome, now);
      var (t, e) := Apply(l, Complete(l.revision, ids[0], outcome, now));
      CompletableCons(l, t, ids);
      if e.None? {
        CompleteEachMeans(t, ids[1..], outcome, now);
        assert ids == [ids[0]] + ids[1..];
      }
    } else {
      CompletedNothing(l, outcome);
    }
  }

  lemma CompletedNothing(l: Ledger, outcome: Option<string>)
    ensures CompletedBy(l, l, [], outcome)
  {
  }

  lemma {:induction false} CompletableCons(l: Ledger, t: Ledger, ids: seq<string>)
    requires ids != []
    requires EnsureOpenItem(l, ids[0]).None? ==>
               forall x :: EnsureOpenItem(t, x).None? <==> x != ids[0] && EnsureOpenItem(l, x).None?
    ensures Completable(l, ids) <==> EnsureOpenItem(l, ids[0]).None? && Completable(t, ids[1..])
  {
    hide EnsureOpenItem;
    var rest := ids[1..];
    assert ids == [ids[0]] + rest;
    assert forall i :: 0 <= i < |rest| ==> rest[i] == ids[i + 1];
    if ids[0] in rest {
      var i :| 0 <= i < |rest| && rest[i] == ids[0];
      assert ids[i + 1] == ids[0];
    }
  }

  /**
   Completing a batch is completing its items one after the other: it is
   accepted in the same cases, and differs only in revisions and times.
   */
  lemma {:induction false} BatchIsSequence(l: Ledger, ids: seq<string>, outcome: Option<string>, now: nat)
    requires ids != [] && l.revision + |ids| <= U64_MAX && CheckOptional("outcome", outcome).None?
    ensures var (a, e) := Apply(l, CompleteMany(l.revision, ids, outcome, now));
            var (b, f) := CompleteEach(l, ids, outcome, now);
            && (e.None? <==> f.None?)
            && (e.None? ==> SameButStamps(a, b))
  {
    hide CheckOptional, EnsureOpenItem, CheckBatch, CompleteEach;
    BatchExactly(l, ids, {});
    CompleteEachMeans(l, ids, outcome, now);
    if Completable(l, ids) {
      BatchMembers(l, ids, {});
      var a := Apply(l, CompleteMany(l.revision, ids, outcome, now)).0;
      assert CompletedBy(l, a, ids, outcome);
    }
  }

  // ---- Runs ----

  /** A run of a new ledger: the ledgers it goes through and the operation between each two. */
  ghost predicate IsRun(ledgers: seq<Ledger>, ops: seq<Op>) {
    && |ledgers| == |ops| + 1
    && ledgers[0] == New(ledgers[0].owner) && ValidText(ledgers[0].owner)
    && forall i {:trigger ops[i]} :: 0 <= i < |ops| ==>
         && FreshFor(ledgers[i], ops[i])
         && (ActivePresent(ledgers[i]) || !ops[i].Attach?)
         && ledgers[i + 1] == Apply(ledgers[i], ops[i]).0
  }

  /** Only the active cycle is in the table: assessing one erases it. */
  ghost predicate OnlyActive(l: Ledger) {
    forall c :: c in l.cycles ==> l.active == Some(c) && l.cycles[c].status.Active? && l.cycles[c].outcome.None?
  }

  lemma {:induction false} StepOnlyActive(l: Ledger, op: Op)
    requires Strong(l) && OnlyActive(l) && FreshFor(l, op)
    ensures OnlyActive(Apply(l, op).0)
    ensures op.Archive? ==> Apply(l, op).1.Some?
  {
    hide Evaluate, Strong, Assessed, ValidText;
    StrongHasActive(l);
    if op.Assess? && Evaluate(l).Ready? {
      AssessedShape(l, op.now);
    }
  }

  lemma OwnerKept(l: Ledger, op: Op)
    requires ActivePresent(l)
    ensures Apply(l, op).0.owner == l.owner
  {
    hide Evaluate, ValidText;
  }

  lemma {:induction false} RunStrong(ledgers: seq<Ledger>, ops: seq<Op>, k: nat)
    requires IsRun(ledgers, ops) && k < |ledgers|
    ensures Strong(ledgers[k]) && OnlyActive(ledgers[k]) && ValidText(ledgers[k].owner)
  {
    if k > 0 {
      hide Strong, OnlyActive, Apply, FreshFor, ValidText;
      RunStrong(ledgers, ops, k - 1);
      StrongHasActive(ledgers[k - 1]);
      StepStrong(ledgers[k - 1], ops[k - 1]);
      StepOnlyActive(ledgers[k - 1], ops[k - 1]);
      OwnerKept(ledgers[k - 1], ops[k - 1]);
    }
  }

  /** From a new ledger every operation, refused or not, leaves one that passes its own validation. */
  lemma LedgerStaysValid(ledgers: seq<Ledger>, ops: seq<Op>, k: nat)
    requires IsRun(ledgers, ops) && k < |ledgers|
    ensures WellFormed(ledgers[k])
  {
    RunStrong(ledgers, ops, k);
    StrongIsWellFormed(ledgers[k]);
  }

  lemma StrongIsWellFormed(l: Ledger)
    requires Strong(l) && ValidText(l.owner)
    ensures WellFormed(l)
  {
  }

  /** Nothing a run reaches can be archived: an assessed cycle is gone, and any other is active. */
  lemma ArchiveAlwaysRefused(ledgers: seq<Ledger>, ops: seq<Op>, k: nat)
    requires IsRun(ledgers, ops) && k < |ops| && ops[k].Archive?
    ensures Apply(ledgers[k], ops[k]).1.Some? && ledgers[k + 1] == ledgers[k]
  {
    hide Strong, Apply, FreshFor;
    RunStrong(ledgers, ops, k);
    StepOnlyActive(ledgers[k], ops[k]);
    RefusalChangesNothing(ledgers[k], ops[k]);
  }

  lemma {:induction false} RevisionsGrow(ledgers: seq<Ledger>, ops: seq<Op>, i: nat, j: nat)
    requires IsRun(ledgers, ops) && i <= j < |ledgers|
    ensures ledgers[i].revision <= ledgers[j].revision
  {
    if i < j {
      hide Strong, Apply, FreshFor, OnlyActive;
      RevisionsGrow(ledgers, ops, i, j - 1);
      RunStrong(ledgers, ops, j - 1);
      RefusalChangesNothing(ledgers[j - 1], ops[j - 1]);
    }
  }

  /** Of the operations asked for at one revision at most one takes effect; later ones saw a later revision. */
  lemma {:induction false} OneWinnerPerRevision(ledgers: seq<Ledger>, ops: seq<Op>, i: nat, j: nat)
    requires IsRun(ledgers, ops) && i < j < |ops|
    requires ledgers[i + 1] != ledgers[i] && ledgers[j + 1] != ledgers[j]
    ensures ops[i].expected < ops[j].expected
  {
    hide Strong, Apply, FreshFor, OnlyActive;
    RunStrong(ledgers, ops, i);
    RunStrong(ledgers, ops, j);
    RefusalChangesNothing(ledgers[i], ops[i]);
    RefusalChangesNothing(ledgers[j], ops[j]);
    RevisionsGrow(ledgers, ops, i + 1, j);
  }
}
