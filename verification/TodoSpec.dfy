/**
 The rules of an agent's todo ledger (crates/core/src/todo.rs): what each
 operation refuses and what it changes. Fresh ids and the time are given.
 */
module TodoSpec {
  import opened Prelude
  import Text

  datatype ItemStatus = Pending | InProgress | Completed | Cancelled | Blocked

  datatype CycleStatus = Active | CompletedCycle | CancelledCycle | Archived

  datatype Intent = Intent(summary: string, criteria: seq<string>)

  datatype OutcomeKind = AllCancelled | SomeCompleted

  datatype Outcome = Outcome(
    kind: OutcomeKind, completed: nat, cancelled: nat, receipts: nat, assessedAt: nat, revision: nat)

  datatype Item = Item(
    id: string, cycle: string, title: string, description: Option<string>, status: ItemStatus,
    evidenceRequired: bool, receipts: seq<string>, outcome: Option<string>, blockingReason: Option<string>,
    createdAt: nat, updatedAt: nat, revision: nat)

  datatype Cycle = Cycle(
    id: string, intent: Intent, status: CycleStatus, itemIds: seq<string>, outcome: Option<Outcome>,
    createdAt: nat, revision: nat)

  datatype Receipt = Receipt(
    id: string, cycle: string, item: Option<string>, kind: string, reference: string, summary: Option<string>,
    attachedAt: nat, revision: nat)

  datatype Ledger = Ledger(
    owner: string,
    revision: nat,
    active: Option<string>,
    cycles: map<string, Cycle>,
    items: map<string, Item>,
    journal: seq<Receipt>,
    lastOutcome: Option<(string, Outcome)>)

  datatype TodoError =
    | StaleRevision(expected: nat, actual: nat)
    | Validation(field: string)
    | ActiveCycleExists
    | NoActiveCycle
    | ItemNotFound(item: string)
    | ItemOutsideActiveCycle(item: string)
    | ItemTerminal(item: string)
    | CycleNotFound(cycle: string)
    | CycleActive(cycle: string)
    | RevisionOverflow
    | Corrupt

  datatype NewItem = NewItem(title: string, description: Option<string>, evidenceRequired: bool)

  datatype Patch = Patch(
    title: Option<string>, description: Option<string>, evidenceRequired: Option<bool>, status: Option<ItemStatus>)

  datatype Attachment = Attachment(item: Option<string>, kind: string, reference: string, summary: Option<string>)

  datatype Op =
    | Begin(expected: nat, intent: Intent, id: string, now: nat)
    | Add(expected: nat, item: NewItem, id: string, now: nat)
    | Update(expected: nat, itemId: string, patch: Patch, now: nat)
    | Complete(expected: nat, itemId: string, outcome: Option<string>, now: nat)
    | CompleteMany(expected: nat, itemIds: seq<string>, outcome: Option<string>, now: nat)
    | Cancel(expected: nat, itemId: string, reason: string, now: nat)
    | Block(expected: nat, itemId: string, reason: string, now: nat)
    | Attach(expected: nat, attachment: Attachment, id: string, now: nat)
    | Assess(expected: nat, now: nat)
    | Archive(expected: nat, cycleId: string)

  function New(owner: string): Ledger {
    Ledger(owner, 0, None, map[], map[], [], None)
  }

  predicate Terminal(s: ItemStatus) {
    s.Completed? || s.Cancelled?
  }

  // ---- Checks ----

  function Utf8Bytes(s: string): nat {
    if s == [] then 0
    else (if s[0] < '\U{80}' then 1 else if s[0] < '\U{800}' then 2 else if s[0] < '\U{10000}' then 3 else 4)
         + Utf8Bytes(s[1..])
  }

  /** Not blank and at most 16 KiB. */
  predicate ValidText(s: string) {
    (exists i :: 0 <= i < |s| && !Text.IsWhitespace(s[i])) && Utf8Bytes(s) <= 16 * 1024
  }

  function CheckText(field: string, s: string): Option<TodoError> {
    if ValidText(s) then None else Some(Validation(field))
  }

  function CheckOptional(field: string, s: Option<string>): Option<TodoError> {
    if s.Some? then CheckText(field, s.value) else None
  }

  function CheckTexts(field: string, texts: seq<string>): Option<TodoError> {
    if texts == [] then None
    else if ValidText(texts[0]) then CheckTexts(field, texts[1..])
    else Some(Validation(field))
  }

  function Cas(l: Ledger, expected: nat): Option<TodoError> {
    if expected == l.revision then None else Some(StaleRevision(expected, l.revision))
  }

  function Bump(l: Ledger): Option<TodoError> {
    if l.revision < U64_MAX then None else Some(RevisionOverflow)
  }

  function EnsureActiveItem(l: Ledger, id: string): Option<TodoError> {
    if l.active.None? then Some(NoActiveCycle)
    else if id !in l.items then Some(ItemNotFound(id))
    else if l.items[id].cycle != l.active.value then Some(ItemOutsideActiveCycle(id))
    else None
  }

  /** The item can be worked on: in the active cycle and not finished. */
  function EnsureOpenItem(l: Ledger, id: string): Option<TodoError> {
    var e := EnsureActiveItem(l, id);
    if e.Some? then e
    else if Terminal(l.items[id].status) then Some(ItemTerminal(id))
    else None
  }

  /** The first refusal of two. */
  function Or(a: Option<TodoError>, b: Option<TodoError>): Option<TodoError> {
    if a.Some? then a else b
  }

  function CheckBatch(l: Ledger, ids: seq<string>, seen: set<string>): Option<TodoError> {
    if ids == [] then None
    else if ids[0] in seen then Some(Validation("duplicate item"))
    else Or(EnsureOpenItem(l, ids[0]), CheckBatch(l, ids[1..], seen + {ids[0]}))
  }

  // ---- Completion ----

  datatype Action =
    | AddItem
    | FinishItem(item: string)
    | ResolveBlock(item: string, reason: string)
    | AttachEvidence(item: string)

  datatype Evaluation =
    | NoActive
    | Waiting(cycle: string, unfinished: seq<string>, blocked: seq<string>, actionable: seq<Action>, deficits: seq<string>)
    | Ready(cycle: string, kind: OutcomeKind, completed: nat, cancelled: nat, receipts: nat)
    | Final(cycle: string, outcome: Outcome)

  /** What the items say so far. */
  datatype Tally = Tally(unfinished: seq<string>, blocked: seq<string>, actionable: seq<Action>, deficits: seq<string>)

  predicate Deficient(item: Item) {
    item.status.Completed? && item.evidenceRequired && item.receipts == []
  }

  function Tallied(t: Tally, id: string, item: Item): Tally {
    if Terminal(item.status) then
      if Deficient(item) then t.(deficits := t.deficits + [id], actionable := t.actionable + [AttachEvidence(id)]) else t
    else if item.status.Blocked? then
      var reason := if item.blockingReason.Some? then item.blockingReason.value else "blocked";
      t.(unfinished := t.unfinished + [id], blocked := t.blocked + [id], actionable := t.actionable + [ResolveBlock(id, reason)])
    else t.(unfinished := t.unfinished + [id], actionable := t.actionable + [FinishItem(id)])
  }

  function TallyOf(items: map<string, Item>, ids: seq<string>): Tally {
    if ids == [] then Tally([], [], [], [])
    else
      var t := TallyOf(items, ids[..|ids| - 1]);
      var id := ids[|ids| - 1];
      if id in items then Tallied(t, id, items[id]) else t
  }

  function CountCompleted(items: map<string, Item>, ids: seq<string>): (n: nat)
    ensures n <= |ids|
  {
    if ids == [] then 0
    else
      var id := ids[|ids| - 1];
      CountCompleted(items, ids[..|ids| - 1]) + (if id in items && items[id].status.Completed? then 1 else 0)
  }

  function CountReceipts(journal: seq<Receipt>, cycle: string): (n: nat)
    ensures n <= |journal|
  {
    if journal == [] then 0
    else CountReceipts(journal[..|journal| - 1], cycle) + (if journal[|journal| - 1].cycle == cycle then 1 else 0)
  }

  function EvaluateCycle(l: Ledger, c: Cycle): Evaluation {
    var t := TallyOf(l.items, c.itemIds);
    if t.unfinished != [] || t.deficits != [] || c.itemIds == [] then
      Waiting(c.id, t.unfinished, t.blocked, t.actionable + (if c.itemIds == [] then [AddItem] else []), t.deficits)
    else
      var completed := CountCompleted(l.items, c.itemIds);
      Ready(c.id, if completed == 0 then AllCancelled else SomeCompleted, completed, |c.itemIds| - completed,
            CountReceipts(l.journal, c.id))
  }

  function Evaluate(l: Ledger): Evaluation {
    if l.active.Some? && l.active.value in l.cycles then
      var c := l.cycles[l.active.value];
      if c.outcome.Some? then Final(c.id, c.outcome.value) else EvaluateCycle(l, c)
    else if l.lastOutcome.Some? then Final(l.lastOutcome.value.0, l.lastOutcome.value.1)
    else NoActive
  }

  // ---- Changes ----

  function WithItem(l: Ledger, id: string, item: Item, now: nat): Ledger
    requires l.revision < U64_MAX
  {
    var n := l.revision + 1;
    l.(revision := n, items := l.items[id := item.(updatedAt := now, revision := n)])
  }

  function Patched(item: Item, p: Patch): Item {
    item.(
      title := if p.title.Some? then p.title.value else item.title,
      description := if p.description.Some? then p.description else item.description,
      evidenceRequired := if p.evidenceRequired.Some? then p.evidenceRequired.value else item.evidenceRequired,
      status := if p.status.Some? then p.status.value else item.status,
      blockingReason := if p.status.Some? && !p.status.value.Blocked? then None else item.blockingReason)
  }

  function Finished(item: Item, status: ItemStatus, outcome: Option<string>): Item {
    item.(status := status, outcome := outcome, blockingReason := None)
  }

  function CompletedAll(items: map<string, Item>, ids: seq<string>, outcome: Option<string>, now: nat, n: nat): map<string, Item>
    requires forall id :: id in ids ==> id in items
  {
    map id | id in items ::
      if id in ids then Finished(items[id], Completed, outcome).(updatedAt := now, revision := n) else items[id]
  }

  function Begun(l: Ledger, intent: Intent, id: string, now: nat): Ledger
    requires l.revision < U64_MAX
  {
    var n := l.revision + 1;
    l.(revision := n, lastOutcome := None, active := Some(id),
       cycles := l.cycles[id := Cycle(id, intent, Active, [], None, now, n)])
  }

  function Added(l: Ledger, item: NewItem, id: string, now: nat): Ledger
    requires l.revision < U64_MAX && l.active.Some?
  {
    var n, c := l.revision + 1, l.active.value;
    var created := Item(id, c, item.title, item.description, Pending, item.evidenceRequired, [], None, None, now, now, n);
    var t := l.(revision := n, items := l.items[id := created]);
    if c in l.cycles
    then t.(cycles := l.cycles[c := l.cycles[c].(itemIds := l.cycles[c].itemIds + [id], revision := n)])
    else t
  }

  function Attached(l: Ledger, a: Attachment, id: string, now: nat): Ledger
    requires l.revision < U64_MAX && l.active.Some? && l.active.value in l.cycles
    requires a.item.Some? ==> a.item.value in l.items
  {
    var n, c := l.revision + 1, l.active.value;
    var t := if a.item.Some?
             then WithItem(l, a.item.value, l.items[a.item.value].(receipts := l.items[a.item.value].receipts + [id]), now)
             else l.(revision := n);
    t.(cycles := l.cycles[c := l.cycles[c].(revision := n)],
       journal := l.journal + [Receipt(id, c, a.item, a.kind, a.reference, a.summary, now, n)])
  }

  function Without(journal: seq<Receipt>, cycle: string): seq<Receipt> {
    if journal == [] then []
    else Without(journal[..|journal| - 1], cycle)
         + (if journal[|journal| - 1].cycle == cycle then [] else [journal[|journal| - 1]])
  }

  function OutcomeOf(l: Ledger, now: nat): Outcome
    requires Evaluate(l).Ready?
  {
    var e := Evaluate(l);
    Outcome(e.kind, e.completed, e.cancelled, e.receipts, now, l.revision + 1)
  }

  function Assessed(l: Ledger, now: nat): Ledger
    requires Evaluate(l).Ready?
  {
    var c := l.active.value;
    l.(revision := l.revision + 1,
       active := None,
       cycles := l.cycles - {l.cycles[c].id},
       items := map id | id in l.items && id !in l.cycles[c].itemIds :: l.items[id],
       journal := Without(l.journal, l.cycles[c].id),
       lastOutcome := Some((l.cycles[c].id, OutcomeOf(l, now))))
  }

  // ---- Operations ----

  /** Why an operation is refused before anything changes. */
  function Refusal(l: Ledger, op: Op): Option<TodoError> {
    match op
    case Begin(expected, intent, _, _) =>
      Or(Cas(l, expected),
      Or(CheckText("intent.summary", intent.summary),
      Or(CheckTexts("intent.completion_criteria", intent.criteria),
      Or(if l.active.Some? then Some(ActiveCycleExists) else None, Bump(l)))))
    case Add(expected, item, _, _) =>
      Or(Cas(l, expected),
      Or(CheckText("title", item.title),
      Or(CheckOptional("description", item.description),
      Or(if l.active.None? then Some(NoActiveCycle) else None, Bump(l)))))
    case Update(expected, id, p, _) =>
      Or(Cas(l, expected),
      Or(EnsureActiveItem(l, id),
      Or(if p == Patch(None, None, None, None) then Some(Validation("update has no fields")) else None,
      Or(CheckOptional("title", p.title),
      Or(CheckOptional("description", p.description),
      Or(if p.status.Some? && Terminal(p.status.value) then Some(Validation("status")) else None,
      Or(EnsureOpenItem(l, id), Bump(l))))))))
    case Complete(expected, id, outcome, _) =>
      Or(Cas(l, expected), Or(EnsureOpenItem(l, id), Or(CheckOptional("outcome", outcome), Bump(l))))
    case CompleteMany(expected, ids, outcome, _) =>
      Or(Cas(l, expected),
      Or(if ids == [] then Some(Validation("item_ids")) else None,
      Or(CheckOptional("outcome", outcome),
      Or(CheckBatch(l, ids, {}), Bump(l)))))
    case Cancel(expected, id, reason, _) =>
      Or(CheckText("reason", reason), Or(Cas(l, expected), Or(EnsureOpenItem(l, id), Bump(l))))
    case Block(expected, id, reason, _) =>
      Or(Cas(l, expected), Or(CheckText("reason", reason), Or(EnsureOpenItem(l, id), Bump(l))))
    case Attach(expected, a, _, _) =>
      Or(Cas(l, expected),
      Or(CheckText("evidence.kind", a.kind),
      Or(CheckText("evidence.reference", a.reference),
      Or(CheckOptional("evidence.summary", a.summary),
      Or(if l.active.None? then Some(NoActiveCycle) else None,
      Or(if a.item.Some? then EnsureActiveItem(l, a.item.value) else None, Bump(l)))))))
    case Assess(expected, _) => Or(Cas(l, expected), if Evaluate(l).Ready? then Bump(l) else None)
    case Archive(expected, c) =>
      Or(Cas(l, expected),
      Or(if c !in l.cycles then Some(CycleNotFound(c))
         else if l.cycles[c].status.Active? then Some(CycleActive(c))
         else None, Bump(l)))
  }

  /** An active cycle is in the table; the source panics where it is not. */
  predicate ActivePresent(l: Ledger) {
    l.active.Some? ==> l.active.value in l.cycles
  }

  lemma BatchMembers(l: Ledger, ids: seq<string>, seen: set<string>)
    requires CheckBatch(l, ids, seen).None?
    ensures forall id :: id in ids ==> EnsureOpenItem(l, id).None? && id !in seen
    ensures forall i, j :: 0 <= i < j < |ids| ==> ids[i] != ids[j]
  {
    if ids != [] {
      BatchMembers(l, ids[1..], seen + {ids[0]});
    }
  }

  /** The ledger after an operation and what it reports. */
  function Apply(l: Ledger, op: Op): (Ledger, Option<TodoError>)
    requires ActivePresent(l) || !op.Attach?
  {
    var e := Refusal(l, op);
    if e.Some? then (l, e)
    else match op
      case Begin(_, intent, id, now) => (Begun(l, intent, id, now), None)
      case Add(_, item, id, now) =>
        (Added(l, item, id, now), if l.active.value in l.cycles then None else Some(Corrupt))
      case Update(_, id, p, now) => (WithItem(l, id, Patched(l.items[id], p), now), None)
      case Complete(_, id, outcome, now) => (WithItem(l, id, Finished(l.items[id], Completed, outcome), now), None)
      case CompleteMany(_, ids, outcome, now) =>
        BatchMembers(l, ids, {});
        (l.(revision := l.revision + 1, items := CompletedAll(l.items, ids, outcome, now, l.revision + 1)), None)
      case Cancel(_, id, reason, now) => (WithItem(l, id, Finished(l.items[id], Cancelled, Some(reason)), now), None)
      case Block(_, id, reason, now) =>
        (WithItem(l, id, l.items[id].(status := Blocked, blockingReason := Some(reason)), now), None)
      case Attach(_, a, id, now) => (Attached(l, a, id, now), None)
      case Assess(_, now) => (if Evaluate(l).Ready? then Assessed(l, now) else l, None)
      case Archive(_, c) =>
        (l.(revision := l.revision + 1,
            cycles := l.cycles[c := l.cycles[c].(status := Archived, revision := l.revision + 1)]), None)
  }

  // ---- Validation ----

  predicate Distinct(ids: seq<string>) {
    forall i, j :: 0 <= i < j < |ids| ==> ids[i] != ids[j]
  }

  ghost predicate ActiveOk(l: Ledger) {
    l.active.Some? ==> l.active.value in l.cycles && l.cycles[l.active.value].status.Active?
  }

  /** A cycle stands under its own id and lists, once each, items that name it. */
  ghost predicate CycleOk(l: Ledger, c: string)
    requires c in l.cycles
  {
    && l.cycles[c].id == c
    && Distinct(l.cycles[c].itemIds)
    && forall id :: id in l.cycles[c].itemIds ==> id in l.items && l.items[id].cycle == c
  }

  ghost predicate UniqueReceipts(journal: seq<Receipt>) {
    forall i, j :: 0 <= i < j < |journal| ==> journal[i].id != journal[j].id
  }

  ghost predicate ReceiptsKnown(journal: seq<Receipt>, item: Item) {
    forall rid :: rid in item.receipts ==> exists i :: 0 <= i < |journal| && journal[i].id == rid
  }

  /** What the ledger's own validation looks for. */
  ghost predicate WellFormed(l: Ledger) {
    && ValidText(l.owner)
    && ActiveOk(l)
    && (forall c :: c in l.cycles ==> CycleOk(l, c))
    && (forall id :: id in l.items ==> exists c :: c in l.cycles && id in l.cycles[c].itemIds)
    && UniqueReceipts(l.journal)
    && (forall id :: id in l.items ==> ReceiptsKnown(l.journal, l.items[id]))
  }
}
