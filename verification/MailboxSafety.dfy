/**
 What every interleaving of sends, goal changes and releases keeps: the numbers
 of a thread have no gap and no repetition, every recorded message is in exactly
 one place, no mailbox gets a message twice, and a send under an id that is known
 already changes nothing.
 */
module MailboxSafety {
  import opened Prelude
  import opened Mailbox

  /** One lock at a time; `k` names the call that goes on to inject. */
  datatype Event =
    | Join(agent: string, live: bool)
    | Send(k: nat, sender: string, target: string, draft: Draft, freshId: string)
    | SetSlot(agent: string, goal: Option<string>)
    | Mark(k: nat, agent: string, goal: Option<string>, order: seq<string>)
    | InjectOne(k: nat)

  /** Fresh ids are fresh, agents join once, and a release follows the sorted order. */
  ghost predicate Enabled(s: State, e: Event) {
    match e
    case Join(agent, _) => agent !in s.agents
    case Send(k, _, _, draft, freshId) => k !in s.errands && (draft.id.None? ==> freshId !in s.records)
    case SetSlot(agent, _) => agent in s.agents
    case Mark(k, agent, goal, order) => k !in s.errands && ReleaseOrder(s, agent, goal, order)
    case InjectOne(k) => CanInject(s, k)
  }

  function Step(s: State, e: Event): State
    requires Enabled(s, e)
  {
    match e
    case Join(agent, live) => s.(agents := s.agents[agent := Slot(live, None, [])])
    case Send(k, sender, target, draft, freshId) => Sent(s, k, sender, target, draft, freshId)
    case SetSlot(agent, goal) => SlotSet(s, agent, goal)
    case Mark(k, agent, _, order) => Marked(s, k, agent, order)
    case InjectOne(k) => InjectNext(s, k)
  }

  /** A run: the states it goes through, from the empty session, and the event between each two. */
  ghost predicate IsRun(states: seq<State>, events: seq<Event>) {
    && |states| == |events| + 1
    && states[0] == EMPTY
    && forall i {:trigger events[i]} :: 0 <= i < |events| ==>
         Enabled(states[i], events[i]) && states[i + 1] == Step(states[i], events[i])
  }

  // ---- Numbering ----

  ghost predicate Keyed(records: map<string, Record>) {
    forall id :: id in records ==> records[id].mail.id == id
  }

  /** Sequence numbers of a thread lie below its counter, and no two records share one. */
  ghost predicate Numbered(records: map<string, Record>, nextSeq: map<string, nat>) {
    && (forall id :: id in records ==>
          var m := records[id].mail;
          m.thread in nextSeq && 1 <= m.seqNo < nextSeq[m.thread])
    && (forall a, b :: a in records && b in records && a != b && records[a].mail.thread == records[b].mail.thread ==>
          records[a].mail.seqNo != records[b].mail.seqNo)
  }

  ghost predicate Has(records: map<string, Record>, thread: string, n: nat) {
    exists id :: id in records && records[id].mail.thread == thread && records[id].mail.seqNo == n
  }

  /** No number below a thread's counter is missing. */
  ghost predicate Gapless(records: map<string, Record>, nextSeq: map<string, nat>) {
    && (forall t :: t in nextSeq ==> nextSeq[t] >= 1)
    && (forall t, n: nat :: t in nextSeq && 1 <= n < nextSeq[t] ==> Has(records, t, n))
  }

  ghost predicate Counted(s: State) {
    Keyed(s.records) && Numbered(s.records, s.nextSeq) && Gapless(s.records, s.nextSeq)
  }

  /** A record that can be added: new id, the next number of its thread. */
  ghost predicate Fresh(s: State, r: Record) {
    r.mail.id !in s.records && r.mail.seqNo == NextSeq(s, r.mail.thread)
  }

  lemma {:induction false} RecordedNumbered(s: State, r: Record)
    requires Counted(s) && Fresh(s, r)
    ensures Keyed(Recorded(s, r).records)
    ensures Numbered(Recorded(s, r).records, Recorded(s, r).nextSeq)
  {
    assert NextSeq(s, r.mail.thread) >= 1;
  }

  lemma {:induction false} RecordedGapless(s: State, r: Record)
    requires Counted(s) && Fresh(s, r)
    ensures Gapless(Recorded(s, r).records, Recorded(s, r).nextSeq)
  {
    hide Numbered;
    var t := Recorded(s, r);
    forall th, n: nat | th in t.nextSeq && 1 <= n < t.nextSeq[th]
      ensures Has(t.records, th, n)
    {
      if th == r.mail.thread && n == r.mail.seqNo {
        assert r.mail.id in t.records;
      } else {
        assert Has(s.records, th, n);
        var id :| id in s.records && s.records[id].mail.thread == th && s.records[id].mail.seqNo == n;
        assert id in t.records && t.records[id] == s.records[id];
      }
    }
  }

  lemma {:induction false} SameMails(s: State, t: State)
    requires Counted(s) && t.nextSeq == s.nextSeq && t.records.Keys == s.records.Keys
    requires forall id :: id in s.records ==> t.records[id].mail == s.records[id].mail
    ensures Counted(t)
  {
    assert forall id :: id in t.records <==> id in s.records;
    assert Gapless(t.records, t.nextSeq) by {
      hide Numbered, Keyed;
      forall th, n: nat | th in t.nextSeq && 1 <= n < t.nextSeq[th]
        ensures Has(t.records, th, n)
      {
        assert Has(s.records, th, n);
        var id :| id in s.records && s.records[id].mail.thread == th && s.records[id].mail.seqNo == n;
        assert t.records[id].mail == s.records[id].mail;
      }
    }
    hide Gapless;
  }

  lemma {:induction false} StepCounted(s: State, e: Event)
    requires Counted(s) && Enabled(s, e)
    ensures Counted(Step(s, e))
  {
    hide Keyed, Numbered, Gapless, ThreadOf, ReleaseOrder;
    match e
    case Send(_, sender, target, draft, freshId) =>
      if !IsDuplicate(s, draft) {
        var r := NewRecord(s, sender, target, draft, freshId);
        RecordedNumbered(s, r);
        RecordedGapless(s, r);
      }
    case _ => SameMails(s, Step(s, e));
  }

  // ---- Places ----

  ghost predicate Underway(s: State, id: string) {
    exists k :: k in s.errands && id in s.errands[k].left
  }

  ghost predicate InMailbox(s: State, id: string) {
    exists i :: 0 <= i < |s.injected| && s.injected[i].mail.id == id
  }

  /** Errands carry delivered messages to their recipient, each message once. */
  ghost predicate ErrandsSound(s: State) {
    && (forall k, id :: k in s.errands && id in s.errands[k].left ==>
          id in s.records && s.records[id].state == Delivered && s.records[id].recipient == s.errands[k].recipient)
    && (forall k :: k in s.errands ==> NoRepeats(s.errands[k].left))
    && (forall k, l, id :: k in s.errands && l in s.errands && k != l && id in s.errands[k].left ==> id !in s.errands[l].left)
  }

  predicate NoRepeats(ids: seq<string>) {
    forall i, j :: 0 <= i < j < |ids| ==> ids[i] != ids[j]
  }

  /** Every injection is of a delivered record to its recipient, and no message is injected twice. */
  ghost predicate InjectedOnce(s: State) {
    && (forall i :: 0 <= i < |s.injected| ==>
          var x := s.injected[i];
          x.mail.id in s.records && s.records[x.mail.id] == Record(x.mail, x.recipient, Delivered))
    && (forall i, j :: 0 <= i < j < |s.injected| ==> s.injected[i].mail.id != s.injected[j].mail.id)
  }

  ghost predicate LostSound(s: State) {
    forall id :: id in s.unreachable || id in s.stranded ==>
      && id in s.records && s.records[id].state == Delivered
      && !(id in s.unreachable && id in s.stranded)
  }

  ghost predicate Apart(s: State) {
    && (forall id :: Underway(s, id) ==> !InMailbox(s, id) && id !in s.unreachable && id !in s.stranded)
    && (forall id :: InMailbox(s, id) ==> id !in s.unreachable && id !in s.stranded)
  }

  ghost predicate Accounted(s: State) {
    forall id :: id in s.records && s.records[id].state == Delivered ==>
      Underway(s, id) || InMailbox(s, id) || id in s.unreachable || id in s.stranded
  }

  ghost predicate Placed(s: State) {
    ErrandsSound(s) && InjectedOnce(s) && LostSound(s) && Apart(s) && Accounted(s)
  }

  ghost predicate Inv(s: State) {
    Counted(s) && Placed(s)
  }

  lemma {:induction false} JoinPlaced(s: State, e: Event)
    requires Placed(s) && Enabled(s, e) && (e.Join? || e.SetSlot?)
    ensures Placed(Step(s, e))
  {
    var t := Step(s, e);
    assert forall id :: Underway(t, id) <==> Underway(s, id);
    assert forall id :: InMailbox(t, id) <==> InMailbox(s, id);
  }

  function WithRecord(s: State, r: Record, k: nat): State {
    if r.state.Deferred? then Recorded(s, r) else WithErrand(Recorded(s, r), k, r.recipient, [r.mail.id])
  }

  lemma {:induction false} RecordedMoves(s: State, r: Record, k: nat)
    requires k !in s.errands
    ensures var t := WithRecord(s, r, k);
            && (forall id :: Underway(t, id) <==> Underway(s, id) || (r.state.Delivered? && id == r.mail.id))
            && (forall id :: InMailbox(t, id) <==> InMailbox(s, id))
  {
    var t := WithRecord(s, r, k);
    forall id
      ensures Underway(t, id) <==> Underway(s, id) || (r.state.Delivered? && id == r.mail.id)
    {
      if Underway(s, id) {
        var l :| l in s.errands && id in s.errands[l].left;
        assert l in t.errands && t.errands[l] == s.errands[l];
      }
      if r.state.Delivered? && id == r.mail.id {
        assert k in t.errands && id in t.errands[k].left;
      }
    }
  }

  lemma {:induction false} RecordedErrands(s: State, r: Record, k: nat)
    requires ErrandsSound(s) && r.mail.id !in s.records && k !in s.errands
    ensures ErrandsSound(WithRecord(s, r, k))
  {
  }

  lemma {:induction false} RecordedInjected(s: State, r: Record, k: nat)
    requires InjectedOnce(s) && r.mail.id !in s.records
    ensures InjectedOnce(WithRecord(s, r, k))
  {
  }

  /** A new record that waits, or that errand `k` carries. */
  lemma {:induction false} RecordedPlaced(s: State, r: Record, k: nat)
    requires Placed(s) && r.mail.id !in s.records && k !in s.errands
    ensures Placed(WithRecord(s, r, k))
  {
    RecordedMoves(s, r, k);
    RecordedErrands(s, r, k);
    RecordedInjected(s, r, k);
    NotUnderway(s);
    InjectedDelivered(s);
    hide Underway, InMailbox, ErrandsSound, InjectedOnce;
  }

  lemma {:induction false} SendPlaced(s: State, e: Event)
    requires Placed(s) && Enabled(s, e) && e.Send?
    ensures Placed(Step(s, e))
  {
    hide Placed, ThreadOf, WithErrand;
    if !IsDuplicate(s, e.draft) {
      RecordedPlaced(s, NewRecord(s, e.sender, e.target, e.draft, e.freshId), e.k);
    }
  }

  lemma {:induction false} MarkUnderway(s: State, e: Event)
    requires Placed(s) && Enabled(s, e) && e.Mark?
    ensures forall id :: Underway(Step(s, e), id) <==> Underway(s, id) || id in e.order
    ensures forall id :: id in e.order ==> id in s.records && s.records[id].state == Deferred && s.records[id].recipient == e.agent
  {
    hide Apart, Accounted, InjectedOnce, LostSound;
    var t := Step(s, e);
    assert forall id :: id in e.order ==> Releasable(s, e.agent, e.goal, id);
    forall id
      ensures Underway(t, id) <==> Underway(s, id) || id in e.order
    {
      if Underway(s, id) {
        var l :| l in s.errands && id in s.errands[l].left;
        assert l in t.errands && t.errands[l] == s.errands[l];
      }
      if id in e.order {
        assert e.k in t.errands && id in t.errands[e.k].left;
      }
    }
  }

  lemma {:induction false} MarkErrands(s: State, e: Event)
    requires ErrandsSound(s) && Enabled(s, e) && e.Mark?
    ensures ErrandsSound(Step(s, e))
  {
    hide Underway;
    var t := Step(s, e);
    assert forall id :: id in e.order ==> Releasable(s, e.agent, e.goal, id);
    assert NoRepeats(e.order);
    hide ReleaseOrder;
  }

  lemma {:induction false} MarkInjected(s: State, e: Event)
    requires InjectedOnce(s) && Enabled(s, e) && e.Mark?
    ensures InjectedOnce(Step(s, e))
    ensures forall id :: InMailbox(Step(s, e), id) <==> InMailbox(s, id)
  {
    hide ReleaseOrder;
  }

  lemma {:induction false} MarkPlaced(s: State, e: Event)
    requires Placed(s) && Enabled(s, e) && e.Mark?
    ensures Placed(Step(s, e))
  {
    MarkUnderway(s, e);
    MarkErrands(s, e);
    MarkInjected(s, e);
    NotUnderway(s);
    InjectedDelivered(s);
    hide Underway, InMailbox, ReleaseOrder, ErrandsSound, InjectedOnce;
  }

  lemma NotUnderway(s: State)
    requires ErrandsSound(s)
    ensures forall id :: Underway(s, id) ==> id in s.records && s.records[id].state == Delivered
  {
  }

  lemma InjectedDelivered(s: State)
    requires InjectedOnce(s)
    ensures forall id :: InMailbox(s, id) ==> id in s.records && s.records[id].state == Delivered
  {
  }

  lemma {:induction false} InjectMoves(s: State, k: nat)
    requires ErrandsSound(s) && CanInject(s, k) && Keyed(s.records)
    ensures var t, x := InjectNext(s, k), s.errands[k].left[0];
            && Underway(s, x)
            && (forall id :: Underway(t, id) <==> Underway(s, id) && id != x)
  {
    var t, x := InjectNext(s, k), s.errands[k].left[0];
    var left := s.errands[k].left;
    assert x in left;
    assert left == [x] + left[1..];
    assert forall id :: id in left <==> id == x || id in left[1..];
    assert x !in left[1..];
    forall id
      ensures Underway(t, id) <==> Underway(s, id) && id != x
    {
      if Underway(s, id) && id != x {
        var l :| l in s.errands && id in s.errands[l].left;
        assert l in t.errands && id in t.errands[l].left;
      }
      if Underway(t, id) {
        var l :| l in t.errands && id in t.errands[l].left;
        assert l in s.errands && id in s.errands[l].left;
      }
    }
  }

  lemma {:induction false} InjectArrives(s: State, k: nat)
    requires CanInject(s, k) && Keyed(s.records)
    ensures var t, x := InjectNext(s, k), s.errands[k].left[0];
            forall id :: InMailbox(t, id) <==> InMailbox(s, id) || (id == x && s.errands[k].recipient in s.agents)
  {
    var t, x := InjectNext(s, k), s.errands[k].left[0];
    forall id
      ensures InMailbox(t, id) <==> InMailbox(s, id) || (id == x && s.errands[k].recipient in s.agents)
    {
      if InMailbox(s, id) {
        var i :| 0 <= i < |s.injected| && s.injected[i].mail.id == id;
        assert t.injected[i].mail.id == id;
      }
      if id == x && s.errands[k].recipient in s.agents {
        assert t.injected[|s.injected|].mail.id == id;
      }
    }
  }

  lemma TailOf(ids: seq<string>)
    requires ids != [] && NoRepeats(ids)
    ensures NoRepeats(ids[1..]) && forall id :: id in ids[1..] ==> id in ids
  {
    assert forall i :: 0 <= i < |ids[1..]| ==> ids[1..][i] == ids[i + 1];
  }

  lemma ErrandsAfter(s: State, k: nat)
    requires CanInject(s, k)
    ensures var t := InjectNext(s, k);
            && t.records == s.records
            && (forall l :: l in t.errands ==> l in s.errands && t.errands[l].recipient == s.errands[l].recipient)
            && (forall l :: l in t.errands && l != k ==> t.errands[l] == s.errands[l])
            && (k in t.errands ==> t.errands[k].left == s.errands[k].left[1..])
  {
  }

  lemma {:induction false} InjectErrands(s: State, k: nat)
    requires ErrandsSound(s) && CanInject(s, k)
    ensures ErrandsSound(InjectNext(s, k))
  {
    hide NoRepeats, InjectNext;
    TailOf(s.errands[k].left);
    ErrandsAfter(s, k);
    var t := InjectNext(s, k);
    assert forall l, id :: l in t.errands && id in t.errands[l].left ==> id in s.errands[l].left;
  }

  lemma {:induction false} InjectInjected(s: State, k: nat)
    requires InjectedOnce(s) && CanInject(s, k) && Keyed(s.records)
    requires var x := s.errands[k].left[0];
             s.records[x] == Record(s.records[x].mail, s.errands[k].recipient, Delivered) && !InMailbox(s, x)
    ensures InjectedOnce(InjectNext(s, k))
  {
  }

  lemma {:induction false} HeadSound(s: State, k: nat)
    requires ErrandsSound(s) && CanInject(s, k)
    ensures var x := s.errands[k].left[0];
            s.records[x] == Record(s.records[x].mail, s.errands[k].recipient, Delivered)
  {
    assert s.errands[k].left[0] in s.errands[k].left;
  }

  lemma {:induction false} InjectPlaced(s: State, k: nat)
    requires Placed(s) && Keyed(s.records) && CanInject(s, k)
    ensures Placed(InjectNext(s, k))
  {
    var t, x := InjectNext(s, k), s.errands[k].left[0];
    InjectMoves(s, k);
    InjectArrives(s, k);
    InjectErrands(s, k);
    HeadSound(s, k);
    InjectInjected(s, k);
    NotUnderway(s);
    InjectedDelivered(s);
    hide Underway, InMailbox, ErrandsSound, InjectedOnce;
  }

  lemma {:induction false} StepInv(s: State, e: Event)
    requires Inv(s) && Enabled(s, e)
    ensures Inv(Step(s, e))
  {
    hide Placed, Counted, Step, Enabled;
    StepCounted(s, e);
    StepPlaced(s, e);
  }

  lemma {:induction false} StepPlaced(s: State, e: Event)
    requires Inv(s) && Enabled(s, e)
    ensures Placed(Step(s, e))
  {
    hide Placed, Counted, Step, Enabled;
    match e
    case Send(_, _, _, _, _) => SendPlaced(s, e);
    case Mark(_, _, _, _) => MarkPlaced(s, e);
    case InjectOne(k) => InjectStep(s, k);
    case _ => JoinPlaced(s, e);
  }

  lemma InjectStep(s: State, k: nat)
    requires Inv(s) && Enabled(s, InjectOne(k))
    ensures Placed(Step(s, InjectOne(k)))
  {
    hide Placed, Numbered, Gapless;
    InjectPlaced(s, k);
  }

  lemma EmptyInv()
    ensures Inv(EMPTY)
  {
  }

  /** The invariant holds in every state of every run. */
  lemma {:induction false} RunInv(states: seq<State>, events: seq<Event>, i: nat)
    requires IsRun(states, events) && i < |states|
    ensures Inv(states[i])
  {
    hide Inv, Step, Enabled;
    if i > 0 {
      RunInv(states, events, i - 1);
      StepInv(states[i - 1], events[i - 1]);
    } else {
      EmptyInv();
    }
  }

  /** Per thread the recorded numbers are exactly 1 to the counter, each once. */
  lemma ThreadsAreGapless(states: seq<State>, events: seq<Event>, k: nat, thread: string, n: nat)
    requires IsRun(states, events) && k < |states|
    ensures var s := states[k];
            && (Has(s.records, thread, n) <==> thread in s.nextSeq && 1 <= n < s.nextSeq[thread])
            && (forall a, b :: a in s.records && b in s.records && a != b ==>
                  !(s.records[a].mail.thread == s.records[b].mail.thread == thread
                    && s.records[a].mail.seqNo == s.records[b].mail.seqNo))
  {
    RunInv(states, events, k);
  }

  datatype Place = Waiting | Carried | Mailbox | Unreachable | Stranded

  ghost predicate At(s: State, id: string, p: Place) {
    match p
    case Waiting => id in s.records && s.records[id].state == Deferred
    case Carried => Underway(s, id)
    case Mailbox => InMailbox(s, id)
    case Unreachable => id in s.unreachable
    case Stranded => id in s.stranded
  }

  /**
   Every message that was ever recorded, and no other, is in exactly one place:
   it waits, a call carries it, it is in its recipient's mailbox, or it had no
   recipient or was stranded by a crash. No mailbox gets it twice.
   */
  lemma OnePlace(states: seq<State>, events: seq<Event>, k: nat, id: string)
    requires IsRun(states, events) && k < |states|
    ensures var s := states[k];
            && (id in s.records <==> exists p :: At(s, id, p))
            && (forall p, q :: At(s, id, p) && At(s, id, q) ==> p == q)
            && (forall i, j :: 0 <= i < j < |s.injected| ==> s.injected[i].mail.id != s.injected[j].mail.id)
            && (forall i :: 0 <= i < |s.injected| && s.injected[i].mail.id == id ==>
                  id in s.records && s.injected[i] == Injection(s.records[id].recipient, s.records[id].mail))
  {
    RunInv(states, events, k);
    PlaceOf(states[k], id);
  }

  lemma PlaceOf(s: State, id: string)
    requires Inv(s)
    ensures id in s.records <==> exists p :: At(s, id, p)
    ensures forall p, q :: At(s, id, p) && At(s, id, q) ==> p == q
    ensures forall i :: 0 <= i < |s.injected| && s.injected[i].mail.id == id ==> id in s.records
  {
    hide Counted, Underway, InMailbox;
    NotUnderway(s);
    InjectedDelivered(s);
    if id in s.records {
      var p := if s.records[id].state == Deferred then Waiting
               else if Underway(s, id) then Carried
               else if InMailbox(s, id) then Mailbox
               else if id in s.unreachable then Unreachable else Stranded;
      assert At(s, id, p);
    }
  }

  // ---- What only grows ----

  /** Records stay as they are but for what is released; mailboxes keep what they got. */
  ghost predicate Grows(s: State, t: State) {
    && (forall id :: id in s.records ==>
          && id in t.records
          && t.records[id].mail == s.records[id].mail && t.records[id].recipient == s.records[id].recipient
          && (s.records[id].state == Delivered ==> t.records[id].state == Delivered))
    && s.injected <= t.injected
    && s.unreachable <= t.unreachable
    && s.stranded <= t.stranded
  }

  lemma {:induction false} StepGrows(s: State, e: Event)
    requires Enabled(s, e)
    ensures Grows(s, Step(s, e))
  {
    hide ReleaseOrder, ThreadOf;
  }

  lemma {:induction false} RunGrows(states: seq<State>, events: seq<Event>, i: nat, j: nat)
    requires IsRun(states, events) && i <= j < |states|
    ensures Grows(states[i], states[j])
  {
    hide Step, Enabled;
    if i < j {
      RunGrows(states, events, i, j - 1);
      StepGrows(states[j - 1], events[j - 1]);
    }
  }

  lemma SendRecords(s: State, e: Event)
    requires Enabled(s, e) && e.Send? && e.draft.id.Some?
    ensures e.draft.id.value in Step(s, e).records
  {
  }

  /** A send repeated under the same id changes nothing, whatever happened in between. */
  lemma {:induction false} RedeliveryIsIdempotent(states: seq<State>, events: seq<Event>, i: nat, j: nat)
    requires IsRun(states, events) && i < j < |events|
    requires events[i].Send? && events[j].Send?
    requires events[i].draft.id.Some? && events[j].draft.id == events[i].draft.id
    ensures states[j + 1] == states[j]
  {
    SendRecords(states[i], events[i]);
    RunGrows(states, events, i + 1, j);
  }
}
