/**
 Correlated delivery between agents (crates/core/src/session.rs): numbering per
 thread, duplicates by message id, deferral while a recipient works on another
 goal, and release when it takes the goal up. Recording a message, changing a
 recipient's goal, marking what is released and putting a message into a mailbox
 are each done under a lock of their own; other calls may come between them.
 */
module Mailbox {
  import opened Prelude

  /** A message with its correlation filled in. */
  datatype Mail = Mail(id: string, thread: string, seqNo: nat, goal: Option<string>, sender: string, body: string)

  /** A message as it is handed to the session. */
  datatype Draft = Draft(id: Option<string>, thread: Option<string>, goal: Option<string>, body: string)

  datatype Delivery = Deferred | Delivered

  datatype Record = Record(mail: Mail, recipient: string, state: Delivery)

  /** A recipient the session knows: running, or unavailable with a durable mailbox. */
  datatype Slot = Slot(live: bool, goal: Option<string>, mailbox: seq<Mail>)

  /** A message put into a recipient's mailbox. */
  datatype Injection = Injection(recipient: string, mail: Mail)

  /** What a call under way has recorded as delivered and still has to put into its recipient's mailbox. */
  datatype Errand = Errand(recipient: string, left: seq<string>)

  datatype State = State(
    records: map<string, Record>,
    nextSeq: map<string, nat>,
    agents: map<string, Slot>,
    injected: seq<Injection>,
    errands: map<nat, Errand>,
    unreachable: set<string>,   // had no recipient to be put into the mailbox of
    stranded: set<string>)      // their errand ended in a crash

  datatype Outcome = Duplicate | WasDeferred | WasDelivered | QueuedUnavailable | AuditOnly

  const EMPTY := State(map[], map[], map[], [], map[], {}, {})

  function ThreadOf(draft: Draft, sender: string, target: string): string {
    match draft.thread
    case Some(t) => t
    case None =>
      match draft.goal
      case Some(g) => "goal:" + g
      case None => "agent:" + sender + "->" + target
  }

  function NextSeq(s: State, thread: string): nat {
    if thread in s.nextSeq then s.nextSeq[thread] else 1
  }

  function ActiveGoal(s: State, agent: string): Option<string> {
    if agent in s.agents then s.agents[agent].goal else None
  }

  predicate ShouldDefer(s: State, target: string, goal: Option<string>) {
    goal.Some? && ActiveGoal(s, target) != goal
  }

  /** Errand `k` of `s` has exactly `ids` left; without any it is over. */
  function WithErrand(s: State, k: nat, recipient: string, ids: seq<string>): State {
    s.(errands := if ids == [] then s.errands - {k} else s.errands[k := Errand(recipient, ids)])
  }

  function Inject(s: State, recipient: string, mail: Mail): State {
    if recipient !in s.agents then s.(unreachable := s.unreachable + {mail.id})
    else
      var slot := s.agents[recipient];
      s.(agents := s.agents[recipient := slot.(mailbox := slot.mailbox + [mail])],
         injected := s.injected + [Injection(recipient, mail)])
  }

  /** Errand `k` goes on by one message. */
  predicate CanInject(s: State, k: nat) {
    k in s.errands && s.errands[k].left != [] && s.errands[k].left[0] in s.records
  }

  function InjectNext(s: State, k: nat): State
    requires CanInject(s, k)
  {
    var e := s.errands[k];
    WithErrand(Inject(s, e.recipient, s.records[e.left[0]].mail), k, e.recipient, e.left[1..])
  }

  function IdOf(draft: Draft, freshId: string): string {
    match draft.id
    case Some(id) => id
    case None => freshId
  }

  predicate IsDuplicate(s: State, draft: Draft) {
    draft.id.Some? && draft.id.value in s.records
  }

  /** The record a send that is not a duplicate makes. */
  function NewRecord(s: State, sender: string, target: string, draft: Draft, freshId: string): Record {
    var thread := ThreadOf(draft, sender, target);
    Record(Mail(IdOf(draft, freshId), thread, NextSeq(s, thread), draft.goal, sender, draft.body),
           target,
           if ShouldDefer(s, target, draft.goal) then Deferred else Delivered)
  }

  function Recorded(s: State, r: Record): State {
    s.(records := s.records[r.mail.id := r], nextSeq := s.nextSeq[r.mail.thread := r.mail.seqNo + 1])
  }

  /** A send up to the point where its message goes into the mailbox, which is left to errand `k`. */
  function Sent(s: State, k: nat, sender: string, target: string, draft: Draft, freshId: string): State {
    if IsDuplicate(s, draft) then s
    else
      var r := NewRecord(s, sender, target, draft, freshId);
      var t := Recorded(s, r);
      if r.state.Deferred? then t else WithErrand(t, k, target, [r.mail.id])
  }

  // ---- Release ----

  predicate Releasable(s: State, agent: string, goal: Option<string>, id: string) {
    && id in s.records
    && s.records[id].recipient == agent
    && s.records[id].state == Deferred
    && goal.Some?
    && s.records[id].mail.goal == goal
  }

  /** Strings in character order. */
  predicate StringBefore(a: string, b: string) {
    a == "" || (b != "" && (a[0] < b[0] || (a[0] == b[0] && StringBefore(a[1..], b[1..]))))
  }

  predicate Before(a: Mail, b: Mail) {
    a.seqNo < b.seqNo || (a.seqNo == b.seqNo && StringBefore(a.id, b.id))
  }

  /** `order` lists exactly the messages that become deliverable, by sequence number and then id. */
  ghost predicate ReleaseOrder(s: State, agent: string, goal: Option<string>, order: seq<string>) {
    && (forall id :: id in order <==> Releasable(s, agent, goal, id))
    && Ordered(s.records, order)
  }

  function MarkDelivered(records: map<string, Record>, order: seq<string>): map<string, Record> {
    map id | id in records :: if id in order then records[id].(state := Delivered) else records[id]
  }

  /** The recipient's slot alone. */
  function SlotSet(s: State, agent: string, goal: Option<string>): State
    requires agent in s.agents
  {
    s.(agents := s.agents[agent := s.agents[agent].(goal := goal)])
  }

  /** `order` is taken out of what waits, to be put into the mailbox of `agent` by errand `k`. */
  function Marked(s: State, k: nat, agent: string, order: seq<string>): State {
    WithErrand(s.(records := MarkDelivered(s.records, order)), k, agent, order)
  }

  /** Errand `k` to its end. */
  function Finish(s: State, k: nat): State
    decreases if k in s.errands then |s.errands[k].left| else 0
  {
    if CanInject(s, k) then Finish(InjectNext(s, k), k) else s
  }

  // ---- The session ----

  class Session {
    var records: map<string, Record>
    var nextSeq: map<string, nat>
    var agents: map<string, Slot>
    ghost var injected: seq<Injection>
    ghost var errands: map<nat, Errand>
    ghost var unreachable: set<string>

    ghost function Abs(): State
      reads this
    {
      State(records, nextSeq, agents, injected, errands, unreachable, {})
    }

    constructor ()
      ensures Abs() == EMPTY
    {
      records, nextSeq, agents, injected, errands, unreachable := map[], map[], map[], [], map[], {};
    }

    /** Under the lock of the records: number the message and decide whether it waits. */
    method RecordSend(sender: string, target: string, draft: Draft, freshId: string, ghost k: nat)
      returns (record: Record, known: bool)
      requires k !in errands
      modifies this
      ensures Abs() == Sent(old(Abs()), k, sender, target, draft, freshId)
      ensures known == IsDuplicate(old(Abs()), draft)
      ensures record == if known then old(records)[draft.id.value] else NewRecord(old(Abs()), sender, target, draft, freshId)
    {
      if draft.id.Some? && draft.id.value in records {
        return records[draft.id.value], true;
      }
      var id := IdOf(draft, freshId);
      var thread := ThreadOf(draft, sender, target);
      var seqNo := if thread in nextSeq then nextSeq[thread] else 1;
      nextSeq := nextSeq[thread := seqNo + 1];
      var active := if target in agents then agents[target].goal else None;
      var defer := draft.goal.Some? && active != draft.goal;
      var mail := Mail(id, thread, seqNo, draft.goal, sender, draft.body);
      record := Record(mail, target, if defer then Deferred else Delivered);
      known := false;
      records := records[id := record];
      if !defer {
        errands := errands[k := Errand(target, [id])];
      }
    }

    /** Under the lock of the recipient: the next message of errand `k`. */
    method InjectInto(agent: string, mail: Mail, ghost k: nat)
      requires CanInject(Abs(), k)
      requires errands[k].recipient == agent && records[errands[k].left[0]].mail == mail
      modifies this
      ensures Abs() == InjectNext(old(Abs()), k)
    {
      if agent in agents {
        var slot := agents[agent];
        agents := agents[agent := slot.(mailbox := slot.mailbox + [mail])];
        injected := injected + [Injection(agent, mail)];
      } else {
        unreachable := unreachable + {mail.id};
      }
      errands := if |errands[k].left| == 1 then errands - {k} else errands[k := Errand(agent, errands[k].left[1..])];
    }

    /**
     A send that nothing interrupts; `saveOk` is whether the snapshot written at
     its end reached the disk.
     */
    method DeliverCorrelated(sender: string, target: string, draft: Draft, freshId: string, saveOk: bool, ghost k: nat)
      returns (r: Result<(Outcome, Record), string>)
      requires k !in errands
      modifies this
      ensures Abs() == Finish(Sent(old(Abs()), k, sender, target, draft, freshId), k)
      ensures if IsDuplicate(old(Abs()), draft) then r == Ok((Duplicate, old(records)[draft.id.value]))
              else if !saveOk then r.Err?
              else r.Ok? && r.value.1 == NewRecord(old(Abs()), sender, target, draft, freshId)
    {
      var record, known := RecordSend(sender, target, draft, freshId, k);
      if known {
        return Ok((Duplicate, record));
      }
      var outcome := WasDeferred;
      if record.state.Delivered? {
        outcome := if target !in agents then AuditOnly
                   else if agents[target].live then WasDelivered
                   else QueuedUnavailable;
        InjectInto(target, record.mail, k);
      }
      if !saveOk {
        return Err("save failed");
      }
      r := Ok((outcome, record));
    }

    /** `Agent::set_active_goal_id`: the slot and nothing else. */
    method SetActiveGoalId(agent: string, goal: Option<string>) returns (found: bool)
      modifies this
      ensures found == (agent in old(agents))
      ensures Abs() == if found then SlotSet(old(Abs()), agent, goal) else old(Abs())
    {
      found := agent in agents;
      if found {
        agents := agents[agent := agents[agent].(goal := goal)];
      }
    }

    /** Under the lock of the records: what becomes deliverable, marked as delivered. */
    method MarkReleasable(agent: string, goal: Option<string>, ghost k: nat) returns (released: seq<string>)
      requires k !in errands
      modifies this
      ensures ReleaseOrder(old(Abs()), agent, goal, released)
      ensures Abs() == Marked(old(Abs()), k, agent, released)
    {
      released := SortReleasable(agent, goal);
      records := MarkDelivered(records, released);
      errands := if released == [] then errands - {k} else errands[k := Errand(agent, released)];
    }

    /** A goal change with its release that nothing interrupts. */
    method SetAgentActiveGoal(agent: string, goal: Option<string>, saveOk: bool, ghost k: nat)
      returns (r: Result<seq<string>, string>, ghost order: seq<string>)
      requires k !in errands
      modifies this
      ensures agent !in old(agents) ==> r.Err? && Abs() == old(Abs())
      ensures agent in old(agents) ==>
        && ReleaseOrder(old(Abs()), agent, goal, order)
        && Abs() == Finish(Marked(SlotSet(old(Abs()), agent, goal), k, agent, order), k)
        && r == if saveOk then Ok(order) else Err("save failed")
    {
      order := [];
      var found := SetActiveGoalId(agent, goal);
      if !found {
        return Err("agent not found"), [];
      }
      var released := MarkReleasable(agent, goal, k);
      order := released;
      ghost var t := Abs();
      for i := 0 to |released|
        invariant Ordered(records, released)
        invariant if i < |released| then k in errands && errands[k] == Errand(agent, released[i..]) else k !in errands
        invariant Finish(Abs(), k) == Finish(t, k)
      {
        hide Finish, InjectNext, Ordered;
        OrderedIn(records, released, i);
        FinishStep(Abs(), k);
        assert released[i..][1..] == released[i + 1..];
        InjectKeepsRecords(Abs(), k);
        InjectInto(agent, records[released[i]].mail, k);
      }
      FinishStep(Abs(), k);
      r := if saveOk then Ok(released) else Err("save failed");
    }

    /** The deferred records of `agent` and `goal`, by sequence number and id. */
    method SortReleasable(agent: string, goal: Option<string>) returns (order: seq<string>)
      ensures ReleaseOrder(Abs(), agent, goal, order)
    {
      order := [];
      var left := records.Keys;
      while left != {}
        invariant left <= records.Keys
        invariant forall id :: id in order <==> Releasable(Abs(), agent, goal, id) && id !in left
        invariant Ordered(records, order)
        decreases left
      {
        var id :| id in left;
        left := left - {id};
        var record := records[id];
        if record.recipient == agent && record.state == Deferred && goal.Some? && record.mail.goal == goal {
          order := Insert(records, order, id);
        }
      }
    }
  }

  lemma FinishStep(s: State, k: nat)
    ensures Finish(s, k) == if CanInject(s, k) then Finish(InjectNext(s, k), k) else s
  {
  }

  lemma OrderedIn(records: map<string, Record>, order: seq<string>, i: nat)
    requires Ordered(records, order) && i < |order|
    ensures order[i] in records
  {
    assert order[i] in order;
  }

  lemma InjectKeepsRecords(s: State, k: nat)
    requires CanInject(s, k)
    ensures var t := InjectNext(s, k);
            && t.records == s.records && t.nextSeq == s.nextSeq && t.stranded == s.stranded
            && (if |s.errands[k].left| == 1 then k !in t.errands
                else k in t.errands && t.errands[k] == Errand(s.errands[k].recipient, s.errands[k].left[1..]))
  {
  }

  // ---- Sorting ----

  lemma {:induction false} StringBeforeTotal(a: string, b: string)
    ensures StringBefore(a, b) || StringBefore(b, a)
    decreases |a|
  {
    if a != "" && b != "" && a[0] == b[0] {
      StringBeforeTotal(a[1..], b[1..]);
    }
  }

  lemma {:induction false} StringBeforeTransitive(a: string, b: string, c: string)
    requires StringBefore(a, b) && StringBefore(b, c)
    ensures StringBefore(a, c)
    decreases |a|
  {
    if a != "" && a[0] == b[0] && b[0] == c[0] {
      StringBeforeTransitive(a[1..], b[1..], c[1..]);
    }
  }

  lemma BeforeTransitive(a: Mail, b: Mail, c: Mail)
    requires Before(a, b) && Before(b, c)
    ensures Before(a, c)
  {
    if a.seqNo == b.seqNo == c.seqNo {
      StringBeforeTransitive(a.id, b.id, c.id);
    }
  }

  ghost predicate Ordered(records: map<string, Record>, order: seq<string>) {
    && (forall id :: id in order ==> id in records)
    && (forall i, j :: 0 <= i < j < |order| ==>
          order[i] != order[j] && Before(records[order[i]].mail, records[order[j]].mail))
  }

  method Insert(records: map<string, Record>, order: seq<string>, id: string) returns (r: seq<string>)
    requires Ordered(records, order) && id in records && id !in order
    ensures Ordered(records, r)
    ensures forall x :: x in r <==> x in order || x == id
  {
    var k := 0;
    while k < |order| && Before(records[order[k]].mail, records[id].mail)
      invariant 0 <= k <= |order|
      invariant forall i :: 0 <= i < k ==> Before(records[order[i]].mail, records[id].mail)
    {
      k := k + 1;
    }
    r := order[..k] + [id] + order[k..];
    forall j | k <= j < |order|
      ensures Before(records[id].mail, records[order[j]].mail)
    {
      StringBeforeTotal(records[order[k]].mail.id, records[id].mail.id);
      if j > k {
        BeforeTransitive(records[id].mail, records[order[k]].mail, records[order[j]].mail);
      }
    }
    forall i, j | 0 <= i < j < |r|
      ensures r[i] != r[j] && Before(records[r[i]].mail, records[r[j]].mail)
    {
      if i == k {
        assert r[j] == order[j - 1];
      } else if j == k {
        assert r[i] == order[i];
      } else {
        var i', j' := if i < k then i else i - 1, if j < k then j else j - 1;
        assert r[i] == order[i'] && r[j] == order[j'];
      }
    }
  }
}
