/**
 The ledger object (crates/core/src/todo.rs): fields changed in place, each
 operation proved to follow TodoSpec, with its checks in the order the source
 makes them and nothing changed when one of them refuses. The evaluation of a
 cycle and the validation of a ledger are loops over items, receipts and cycles,
 proved to decide what TodoSpec says.
 */
module TodoLedger {
  import opened Prelude
  import opened TodoSpec
  import Text

  function Code<T>(r: Result<T, TodoError>): Option<TodoError> {
    if r.Err? then Some(r.error) else None
  }

  class AgentLedger {
    const owner: string
    var revision: nat
    var active: Option<string>
    var cycles: map<string, Cycle>
    var items: map<string, Item>
    var journal: seq<Receipt>
    var lastOutcome: Option<(string, Outcome)>

    ghost function Abs(): Ledger
      reads this
    {
      Ledger(owner, revision, active, cycles, items, journal, lastOutcome)
    }

    constructor (owner: string)
      ensures Abs() == New(owner)
    {
      this.owner, revision, active := owner, 0, None;
      cycles, items, journal, lastOutcome := map[], map[], [], None;
    }

    method CompareAndSwap(expected: nat) returns (e: Option<TodoError>)
      ensures e == Cas(Abs(), expected)
    {
      e := if expected == revision then None else Some(StaleRevision(expected, revision));
    }

    method BumpRevision() returns (e: Option<TodoError>)
      modifies this`revision
      ensures e == Bump(old(Abs()))
      ensures revision == old(revision) + if e.None? then 1 else 0
    {
      if revision >= U64_MAX {
        return Some(RevisionOverflow);
      }
      revision := revision + 1;
      e := None;
    }

    method RequireActiveItem(id: string) returns (e: Option<TodoError>)
      ensures e == EnsureActiveItem(Abs(), id)
    {
      if active.None? {
        return Some(NoActiveCycle);
      }
      if id !in items {
        return Some(ItemNotFound(id));
      }
      if items[id].cycle != active.value {
        return Some(ItemOutsideActiveCycle(id));
      }
      e := None;
    }

    method RequireOpenItem(id: string) returns (e: Option<TodoError>)
      ensures e == EnsureOpenItem(Abs(), id)
    {
      e := RequireActiveItem(id);
      if e.None? && Terminal(items[id].status) {
        e := Some(ItemTerminal(id));
      }
    }

    method BeginCycle(expected: nat, intent: Intent, id: string, now: nat) returns (r: Result<string, TodoError>)
      modifies this
      ensures (Abs(), Code(r)) == Apply(old(Abs()), Begin(expected, intent, id, now))
      ensures r.Ok? ==> r.value == id
    {
      hide ValidText;
      var e := CompareAndSwap(expected);
      if e.Some? {
        return Err(e.value);
      }
      if !ValidText(intent.summary) {
        return Err(Validation("intent.summary"));
      }
      for i := 0 to |intent.criteria|
        invariant CheckTexts("intent.completion_criteria", intent.criteria)
               == CheckTexts("intent.completion_criteria", intent.criteria[i..])
      {
        assert intent.criteria[i..][1..] == intent.criteria[i + 1..];
        if !ValidText(intent.criteria[i]) {
          return Err(Validation("intent.completion_criteria"));
        }
      }
      if active.Some? {
        return Err(ActiveCycleExists);
      }
      e := BumpRevision();
      if e.Some? {
        return Err(e.value);
      }
      lastOutcome := None;
      cycles := cycles[id := Cycle(id, intent, Active, [], None, now, revision)];
      active := Some(id);
      r := Ok(id);
    }

    method AddItem(expected: nat, item: NewItem, id: string, now: nat) returns (r: Result<Item, TodoError>)
      modifies this
      ensures (Abs(), Code(r)) == Apply(old(Abs()), Add(expected, item, id, now))
      ensures r.Ok? ==> id in items && r.value == items[id]
    {
      hide ValidText;
      var e := CompareAndSwap(expected);
      if e.Some? {
        return Err(e.value);
      }
      if !ValidText(item.title) {
        return Err(Validation("title"));
      }
      if item.description.Some? && !ValidText(item.description.value) {
        return Err(Validation("description"));
      }
      if active.None? {
        return Err(NoActiveCycle);
      }
      var cycleId := active.value;
      e := BumpRevision();
      if e.Some? {
        return Err(e.value);
      }
      var created := Item(id, cycleId, item.title, item.description, Pending, item.evidenceRequired, [], None, None,
                          now, now, revision);
      items := items[id := created];
      if cycleId !in cycles {
        return Err(Corrupt);
      }
      cycles := cycles[cycleId := cycles[cycleId].(itemIds := cycles[cycleId].itemIds + [id], revision := revision)];
      r := Ok(created);
    }

    method UpdateItem(expected: nat, id: string, patch: Patch, now: nat) returns (r: Result<Item, TodoError>)
      modifies this
      ensures (Abs(), Code(r)) == Apply(old(Abs()), Update(expected, id, patch, now))
      ensures r.Ok? ==> id in items && r.value == items[id]
    {
      hide ValidText;
      var e := CompareAndSwap(expected);
      if e.Some? {
        return Err(e.value);
      }
      e := RequireActiveItem(id);
      if e.Some? {
        return Err(e.value);
      }
      if patch.title.None? && patch.description.None? && patch.evidenceRequired.None? && patch.status.None? {
        return Err(Validation("update has no fields"));
      }
      if patch.title.Some? && !ValidText(patch.title.value) {
        return Err(Validation("title"));
      }
      if patch.description.Some? && !ValidText(patch.description.value) {
        return Err(Validation("description"));
      }
      if patch.status.Some? && Terminal(patch.status.value) {
        return Err(Validation("status"));
      }
      if Terminal(items[id].status) {
        return Err(ItemTerminal(id));
      }
      e := BumpRevision();
      if e.Some? {
        return Err(e.value);
      }
      var item := items[id];
      if patch.title.Some? {
        item := item.(title := patch.title.value);
      }
      if patch.description.Some? {
        item := item.(description := patch.description);
      }
      if patch.evidenceRequired.Some? {
        item := item.(evidenceRequired := patch.evidenceRequired.value);
      }
      if patch.status.Some? {
        item := item.(status := patch.status.value);
        if !patch.status.value.Blocked? {
          item := item.(blockingReason := None);
        }
      }
      Store(id, item, now);
      r := Ok(items[id]);
    }

    /** Write an item back with the new revision. */
    method Store(id: string, item: Item, now: nat)
      modifies this`items
      ensures items == old(items)[id := item.(updatedAt := now, revision := revision)]
    {
      items := items[id := item.(updatedAt := now, revision := revision)];
    }

    /** The common part of completing and cancelling. */
    method FinishItem(expected: nat, id: string, status: ItemStatus, outcome: Option<string>, now: nat)
      returns (r: Result<Item, TodoError>)
      requires Terminal(status)
      modifies this
      ensures var l := old(Abs());
              var e := Or(Cas(l, expected), Or(EnsureOpenItem(l, id), Or(CheckOptional("outcome", outcome), Bump(l))));
              && Code(r) == e
              && Abs() == if e.Some? then l else WithItem(l, id, Finished(l.items[id], status, outcome), now)
      ensures r.Ok? ==> id in items && r.value == items[id]
    {
      hide ValidText;
      var e := CompareAndSwap(expected);
      if e.Some? {
        return Err(e.value);
      }
      e := RequireOpenItem(id);
      if e.Some? {
        return Err(e.value);
      }
      if outcome.Some? && !ValidText(outcome.value) {
        return Err(Validation("outcome"));
      }
      e := BumpRevision();
      if e.Some? {
        return Err(e.value);
      }
      Store(id, items[id].(status := status, outcome := outcome, blockingReason := None), now);
      r := Ok(items[id]);
    }

    method CompleteItem(expected: nat, id: string, outcome: Option<string>, now: nat) returns (r: Result<Item, TodoError>)
      modifies this
      ensures (Abs(), Code(r)) == Apply(old(Abs()), Complete(expected, id, outcome, now))
      ensures r.Ok? ==> id in items && r.value == items[id]
    {
      hide ValidText, WithItem;
      r := FinishItem(expected, id, Completed, outcome, now);
    }

    method CancelItem(expected: nat, id: string, reason: string, now: nat) returns (r: Result<Item, TodoError>)
      modifies this
      ensures (Abs(), Code(r)) == Apply(old(Abs()), Cancel(expected, id, reason, now))
      ensures r.Ok? ==> id in items && r.value == items[id]
    {
      hide ValidText, WithItem;
      if !ValidText(reason) {
        return Err(Validation("reason"));
      }
      r := FinishItem(expected, id, Cancelled, Some(reason), now);
    }

    method BlockItem(expected: nat, id: string, reason: string, now: nat) returns (r: Result<Item, TodoError>)
      modifies this
      ensures (Abs(), Code(r)) == Apply(old(Abs()), Block(expected, id, reason, now))
      ensures r.Ok? ==> id in items && r.value == items[id]
    {
      hide ValidText;
      var e := CompareAndSwap(expected);
      if e.Some? {
        return Err(e.value);
      }
      if !ValidText(reason) {
        return Err(Validation("reason"));
      }
      e := RequireOpenItem(id);
      if e.Some? {
        return Err(e.value);
      }
      e := BumpRevision();
      if e.Some? {
        return Err(e.value);
      }
      Store(id, items[id].(status := Blocked, blockingReason := Some(reason)), now);
      r := Ok(items[id]);
    }

    /** Whether every item of a batch may be completed. */
    method CheckAll(ids: seq<string>) returns (e: Option<TodoError>)
      ensures e == CheckBatch(Abs(), ids, {})
    {
      var unique: set<string> := {};
      for i := 0 to |ids|
        invariant CheckBatch(Abs(), ids, {}) == CheckBatch(Abs(), ids[i..], unique)
      {
        assert ids[i..][1..] == ids[i + 1..];
        if ids[i] in unique {
          return Some(Validation("duplicate item"));
        }
        unique := unique + {ids[i]};
        e := RequireOpenItem(ids[i]);
        if e.Some? {
          return e;
        }
      }
      e := None;
    }

    method CompleteItems(expected: nat, ids: seq<string>, outcome: Option<string>, now: nat) returns (r: Result<seq<Item>, TodoError>)
      modifies this
      ensures (Abs(), Code(r)) == Apply(old(Abs()), CompleteMany(expected, ids, outcome, now))
    {
      hide ValidText, CompletedAll, CheckBatch, EnsureOpenItem;
      var e := CompareAndSwap(expected);
      if e.Some? {
        return Err(e.value);
      }
      if ids == [] {
        return Err(Validation("item_ids"));
      }
      if outcome.Some? && !ValidText(outcome.value) {
        return Err(Validation("outcome"));
      }
      e := CheckAll(ids);
      if e.Some? {
        return Err(e.value);
      }
      e := BumpRevision();
      if e.Some? {
        return Err(e.value);
      }
      ghost var l := old(Abs());
      OpenItemsExist(l, ids);
      var completed := [];
      CompletedNone(items, outcome, now, revision);
      assert ids[..0] == [];
      for i := 0 to |ids|
        invariant forall id :: id in ids ==> id in l.items
        invariant items == CompletedAll(l.items, ids[..i], outcome, now, revision)
        invariant items.Keys == l.items.Keys
        invariant Abs() == l.(revision := l.revision + 1, items := items)
      {
        CompletedOne(l.items, ids, i, outcome, now, revision);
        assert ids[i] in ids;
        Store(ids[i], items[ids[i]].(status := Completed, outcome := outcome, blockingReason := None), now);
        completed := completed + [items[ids[i]]];
      }
      assert ids[..|ids|] == ids;
      r := Ok(completed);
    }

    method AttachEvidence(expected: nat, a: Attachment, id: string, now: nat) returns (r: Result<Receipt, TodoError>)
      requires active.Some? ==> active.value in cycles
      modifies this
      ensures (Abs(), Code(r)) == Apply(old(Abs()), Attach(expected, a, id, now))
      ensures r.Ok? ==> journal == old(journal) + [r.value]
    {
      hide ValidText;
      var e := CompareAndSwap(expected);
      if e.Some? {
        return Err(e.value);
      }
      if !ValidText(a.kind) {
        return Err(Validation("evidence.kind"));
      }
      if !ValidText(a.reference) {
        return Err(Validation("evidence.reference"));
      }
      if a.summary.Some? && !ValidText(a.summary.value) {
        return Err(Validation("evidence.summary"));
      }
      if active.None? {
        return Err(NoActiveCycle);
      }
      var cycleId := active.value;
      if a.item.Some? {
        e := RequireActiveItem(a.item.value);
        if e.Some? {
          return Err(e.value);
        }
      }
      e := BumpRevision();
      if e.Some? {
        return Err(e.value);
      }
      var receipt := Receipt(id, cycleId, a.item, a.kind, a.reference, a.summary, now, revision);
      if a.item.Some? {
        Store(a.item.value, items[a.item.value].(receipts := items[a.item.value].receipts + [id]), now);
      }
      cycles := cycles[cycleId := cycles[cycleId].(revision := revision)];
      journal := journal + [receipt];
      r := Ok(receipt);
    }

    // ---- Completion ----

    method TallyItems(ids: seq<string>) returns (t: Tally)
      ensures t == TallyOf(items, ids)
    {
      t := Tally([], [], [], []);
      for i := 0 to |ids|
        invariant t == TallyOf(items, ids[..i])
      {
        assert ids[..i + 1][..i] == ids[..i];
        if ids[i] in items {
          var item := items[ids[i]];
          if !Terminal(item.status) {
            t := t.(unfinished := t.unfinished + [ids[i]]);
            if item.status.Blocked? {
              var reason := if item.blockingReason.Some? then item.blockingReason.value else "blocked";
              t := t.(blocked := t.blocked + [ids[i]], actionable := t.actionable + [ResolveBlock(ids[i], reason)]);
            } else {
              t := t.(actionable := t.actionable + [Action.FinishItem(ids[i])]);
            }
          }
          if item.status.Completed? && item.evidenceRequired && item.receipts == [] {
            t := t.(deficits := t.deficits + [ids[i]], actionable := t.actionable + [Action.AttachEvidence(ids[i])]);
          }
        }
      }
      assert ids[..|ids|] == ids;
    }

    method CompletedCount(ids: seq<string>) returns (n: nat)
      ensures n == CountCompleted(items, ids)
    {
      n := 0;
      for i := 0 to |ids|
        invariant n == CountCompleted(items, ids[..i])
      {
        assert ids[..i + 1][..i] == ids[..i];
        if ids[i] in items && items[ids[i]].status.Completed? {
          n := n + 1;
        }
      }
      assert ids[..|ids|] == ids;
    }

    method ReceiptCount(cycle: string) returns (n: nat)
      ensures n == CountReceipts(journal, cycle)
    {
      n := 0;
      for i := 0 to |journal|
        invariant n == CountReceipts(journal[..i], cycle)
      {
        assert journal[..i + 1][..i] == journal[..i];
        if journal[i].cycle == cycle {
          n := n + 1;
        }
      }
      assert journal[..|journal|] == journal;
    }

    method EvaluateCompletion() returns (e: Evaluation)
      ensures e == Evaluate(Abs())
    {
      hide TallyOf, CountCompleted, CountReceipts;
      if active.None? || active.value !in cycles {
        return if lastOutcome.Some? then Final(lastOutcome.value.0, lastOutcome.value.1) else NoActive;
      }
      var cycle := cycles[active.value];
      if cycle.outcome.Some? {
        return Final(cycle.id, cycle.outcome.value);
      }
      var t := TallyItems(cycle.itemIds);
      var actionable := t.actionable;
      if cycle.itemIds == [] {
        actionable := actionable + [Action.AddItem];
      } else {
        assert actionable + [] == actionable;
      }
      if t.unfinished != [] || t.deficits != [] || cycle.itemIds == [] {
        return Waiting(cycle.id, t.unfinished, t.blocked, actionable, t.deficits);
      }
      var completed := CompletedCount(cycle.itemIds);
      var receipts := ReceiptCount(cycle.id);
      var cancelled := |cycle.itemIds| - completed;
      e := Ready(cycle.id, if completed == 0 then AllCancelled else SomeCompleted, completed, cancelled, receipts);
    }

    method RemoveItems(ids: seq<string>)
      modifies this`items
      ensures items == map id | id in old(items) && id !in ids :: old(items)[id]
    {
      for i := 0 to |ids|
        invariant items == map id | id in old(items) && id !in ids[..i] :: old(items)[id]
      {
        items := items - {ids[i]};
      }
      assert ids[..|ids|] == ids;
    }

    method RetainReceipts(cycle: string)
      modifies this`journal
      ensures journal == Without(old(journal), cycle)
    {
      var kept := [];
      for i := 0 to |journal|
        invariant journal == old(journal)
        invariant kept == Without(journal[..i], cycle)
      {
        assert journal[..i + 1][..i] == journal[..i];
        if journal[i].cycle != cycle {
          kept := kept + [journal[i]];
        } else {
          assert kept + [] == kept;
        }
      }
      assert journal[..|journal|] == journal;
      journal := kept;
    }

    method AssessCycle(expected: nat, now: nat) returns (r: Result<Evaluation, TodoError>)
      modifies this
      ensures (Abs(), Code(r)) == Apply(old(Abs()), Assess(expected, now))
      ensures r.Ok? ==>
        r.value == if Evaluate(old(Abs())).Ready?
                   then Final(Evaluate(old(Abs())).cycle, OutcomeOf(old(Abs()), now))
                   else Evaluate(old(Abs()))
    {
      hide EvaluateCycle, Without;
      var e := CompareAndSwap(expected);
      if e.Some? {
        return Err(e.value);
      }
      var evaluation := EvaluateCompletion();
      if !evaluation.Ready? {
        return Ok(evaluation);
      }
      ReadyCycle(Abs());
      ghost var l := old(Abs());
      e := BumpRevision();
      if e.Some? {
        return Err(e.value);
      }
      var outcome := Outcome(evaluation.kind, evaluation.completed, evaluation.cancelled, evaluation.receipts, now, revision);
      assert outcome == OutcomeOf(l, now);
      var itemIds := cycles[active.value].itemIds;
      cycles := cycles - {evaluation.cycle};
      RemoveItems(itemIds);
      RetainReceipts(evaluation.cycle);
      active := None;
      lastOutcome := Some((evaluation.cycle, outcome));
      r := Ok(Final(evaluation.cycle, outcome));
    }

    method ArchiveCycle(expected: nat, id: string) returns (r: Result<(), TodoError>)
      modifies this
      ensures (Abs(), Code(r)) == Apply(old(Abs()), Archive(expected, id))
    {
      var e := CompareAndSwap(expected);
      if e.Some? {
        return Err(e.value);
      }
      if id !in cycles {
        return Err(CycleNotFound(id));
      }
      if cycles[id].status.Active? {
        return Err(CycleActive(id));
      }
      e := BumpRevision();
      if e.Some? {
        return Err(e.value);
      }
      cycles := cycles[id := cycles[id].(status := Archived, revision := revision)];
      r := Ok(());
    }

    // ---- Validation ----

    /** Collect the items the cycles list; None once something is wrong. */
    method ListedItems() returns (r: Option<set<string>>)
      ensures r.Some? <==> forall c :: c in cycles ==> CycleOk(Abs(), c)
      ensures r.Some? ==> forall id :: id in r.value <==> exists c :: c in cycles && id in cycles[c].itemIds
    {
      var referenced: set<string> := {};
      var left := cycles.Keys;
      while left != {}
        invariant left <= cycles.Keys
        invariant forall c :: c in cycles && c !in left ==> CycleOk(Abs(), c)
        invariant forall id :: id in referenced <==> exists c :: c in cycles && c !in left && id in cycles[c].itemIds
        decreases left
      {
        var c :| c in left;
        var cycle := cycles[c];
        if cycle.id != c {
          assert !CycleOk(Abs(), c);
          return None;
        }
        ghost var before := referenced;
        for i := 0 to |cycle.itemIds|
          invariant Distinct(cycle.itemIds[..i])
          invariant forall id :: id in cycle.itemIds[..i] ==> id in items && items[id].cycle == c
          invariant forall id :: id in referenced <==> id in before || id in cycle.itemIds[..i]
        {
          var id := cycle.itemIds[i];
          assert cycle.itemIds[..i + 1] == cycle.itemIds[..i] + [id];
          if id in referenced {
            RepeatedItem(Abs(), left, c, i, id);
            return None;
          }
          if id !in items || items[id].cycle != cycle.id {
            assert id in cycle.itemIds;
            return None;
          }
          referenced := referenced + {id};
        }
        assert cycle.itemIds[..|cycle.itemIds|] == cycle.itemIds;
        left := left - {c};
      }
      r := Some(referenced);
    }

    method Validate() returns (e: Option<TodoError>)
      ensures e.None? <==> WellFormed(Abs())
      ensures e.Some? ==> e.value == if ValidText(owner) then Corrupt else Validation("owner_agent_id")
    {
      hide ValidText, CycleOk, ReceiptsKnown, UniqueReceipts, IdSet;
      if !ValidText(owner) {
        return Some(Validation("owner_agent_id"));
      }
      if active.Some? && (active.value !in cycles || !cycles[active.value].status.Active?) {
        return Some(Corrupt);
      }
      var referenced := ListedItems();
      if referenced.None? {
        return Some(Corrupt);
      }
      ListedAreItems(Abs(), referenced.value);
      if |referenced.value| != |items| {
        return Some(Corrupt);
      }
      var receiptIds := ReceiptIds();
      UniqueBySize(journal);
      if |receiptIds| != |journal| {
        return Some(Corrupt);
      }
      var known := ReceiptsPresent(receiptIds);
      e := if known then None else Some(Corrupt);
    }

    method ReceiptsPresent(receiptIds: set<string>) returns (ok: bool)
      requires receiptIds == IdSet(journal)
      ensures ok <==> forall id :: id in items ==> ReceiptsKnown(journal, items[id])
    {
      IdSetMembers(journal);
      hide IdSet;
      var left := items.Keys;
      while left != {}
        invariant left <= items.Keys
        invariant forall id :: id in items && id !in left ==> ReceiptsKnown(journal, items[id])
        decreases left
      {
        var id :| id in left;
        left := left - {id};
        for i := 0 to |items[id].receipts|
          invariant forall k :: 0 <= k < i ==> items[id].receipts[k] in receiptIds
        {
          if items[id].receipts[i] !in receiptIds {
            assert items[id].receipts[i] in items[id].receipts;
            assert !ReceiptsKnown(journal, items[id]);
            return false;
          }
        }
      }
      ok := true;
    }

    method ReceiptIds() returns (ids: set<string>)
      ensures ids == IdSet(journal)
    {
      ids := {};
      for i := 0 to |journal|
        invariant ids == IdSet(journal[..i])
      {
        assert journal[..i + 1][..i] == journal[..i];
        ids := ids + {journal[i].id};
      }
      assert journal[..|journal|] == journal;
    }
  }

  function IdSet(journal: seq<Receipt>): set<string> {
    if journal == [] then {} else IdSet(journal[..|journal| - 1]) + {journal[|journal| - 1].id}
  }

  lemma {:induction false} IdSetMembers(journal: seq<Receipt>)
    ensures forall id :: id in IdSet(journal) <==> exists i :: 0 <= i < |journal| && journal[i].id == id
    decreases |journal|
  {
    if journal != [] {
      var n := |journal| - 1;
      IdSetMembers(journal[..n]);
      assert journal == journal[..n] + [journal[n]];
    }
  }

  lemma RepeatedItem(l: Ledger, left: set<string>, c: string, i: nat, id: string)
    requires c in l.cycles && c in left && i < |l.cycles[c].itemIds| && l.cycles[c].itemIds[i] == id
    requires l.cycles[c].id == c
    requires forall x :: x in l.cycles && x !in left ==> CycleOk(l, x)
    requires id in l.cycles[c].itemIds[..i] || exists x :: x in l.cycles && x !in left && id in l.cycles[x].itemIds
    ensures !CycleOk(l, c)
  {
  }

  /** As many listed items as items: every item is listed. */
  lemma ListedAreItems(l: Ledger, referenced: set<string>)
    requires forall c :: c in l.cycles ==> CycleOk(l, c)
    requires forall id :: id in referenced <==> exists c :: c in l.cycles && id in l.cycles[c].itemIds
    ensures |referenced| == |l.items| <==>
              forall id :: id in l.items ==> exists c :: c in l.cycles && id in l.cycles[c].itemIds
  {
    assert referenced <= l.items.Keys;
    SubsetSize(referenced, l.items.Keys);
    assert |l.items.Keys| == |l.items|;
  }

  lemma SubsetSize(a: set<string>, b: set<string>)
    requires a <= b
    ensures |a| == |b| <==> a == b
  {
    assert b == a + (b - a);
  }

  lemma {:induction false} UniqueBySize(journal: seq<Receipt>)
    ensures |IdSet(journal)| <= |journal|
    ensures |IdSet(journal)| == |journal| <==> UniqueReceipts(journal)
    decreases |journal|
  {
    if journal != [] {
      UniqueBySize(journal[..|journal| - 1]);
      UniqueSnoc(journal);
      hide UniqueReceipts;
    }
  }

  lemma UniqueSnoc(journal: seq<Receipt>)
    requires journal != []
    ensures var n := |journal| - 1;
            UniqueReceipts(journal) <==> UniqueReceipts(journal[..n]) && journal[n].id !in IdSet(journal[..n])
  {
    hide IdSet;
    var n := |journal| - 1;
    var rest := journal[..n];
    IdSetMembers(rest);
    assert forall i :: 0 <= i < n ==> rest[i] == journal[i];
  }

  lemma ReadyCycle(l: Ledger)
    requires Evaluate(l).Ready?
    ensures l.active.Some? && l.active.value in l.cycles && Evaluate(l).cycle == l.cycles[l.active.value].id
  {
  }

  lemma OpenItemsExist(l: Ledger, ids: seq<string>)
    requires CheckBatch(l, ids, {}).None?
    ensures forall id :: id in ids ==> id in l.items
  {
    BatchMembers(l, ids, {});
  }

  lemma CompletedNone(items: map<string, Item>, outcome: Option<string>, now: nat, n: nat)
    ensures CompletedAll(items, [], outcome, now, n) == items
  {
  }

  lemma CompletedOne(items: map<string, Item>, ids: seq<string>, i: nat, outcome: Option<string>, now: nat, n: nat)
    requires i < |ids| && forall id :: id in ids ==> id in items
    ensures var before := CompletedAll(items, ids[..i], outcome, now, n);
            && ids[i] in before
            && CompletedAll(items, ids[..i + 1], outcome, now, n)
               == before[ids[i] := Finished(before[ids[i]], Completed, outcome).(updatedAt := now, revision := n)]
  {
  }
}
