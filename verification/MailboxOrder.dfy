/**
 When exactly calls that interleave let one message of a stream overtake
 another, and let a message wait for the goal its recipient works on.
 */
module MailboxOrder {
  import opened Prelude
  import opened Mailbox
  import opened MailboxSafety

  // ---- Streams ----

  /** What a recipient gets of one thread for one goal. */
  datatype Stream = Stream(recipient: string, goal: Option<string>, thread: string)

  function StreamOf(r: Record): Stream {
    Stream(r.recipient, r.mail.goal, r.mail.thread)
  }

  predicate Belongs(x: Injection, st: Stream) {
    x.recipient == st.recipient && x.mail.goal == st.goal && x.mail.thread == st.thread
  }

  predicate InOrder(injected: seq<Injection>, st: Stream) {
    forall i, j :: 0 <= i < j < |injected| && Belongs(injected[i], st) && Belongs(injected[j], st) ==>
      injected[i].mail.seqNo < injected[j].mail.seqNo
  }

  /** Errand `k` puts a message of `st` into the mailbox that was sent after `y` of the same stream, which is not there yet. */
  ghost predicate Overtakes(s: State, k: nat, y: string, st: Stream) {
    && CanInject(s, k) && s.errands[k].recipient in s.agents && s.errands[k].recipient == st.recipient
    && y in s.records && StreamOf(s.records[y]) == st
    && var x := s.records[s.errands[k].left[0]].mail;
       && x.goal == st.goal && x.thread == st.thread
       && s.records[y].mail.seqNo < x.seqNo
       && (At(s, y, Waiting) || At(s, y, Carried))
  }

  /** Until state `k` nothing of `st` was put into the mailbox before an earlier message that has since arrived. */
  ghost predicate NothingOvertaken(states: seq<State>, events: seq<Event>, k: nat, st: Stream)
    requires |states| == |events| + 1 && k < |states|
  {
    forall t, y {:trigger Overtakes(states[t], events[t].k, y, st)}
      | 0 <= t < k && events[t].InjectOne? && Overtakes(states[t], events[t].k, y, st) ::
      !InMailbox(states[k], y)
  }

  /** The step that put injection `i` into its mailbox. */
  lemma {:induction false} WhenInjected(states: seq<State>, events: seq<Event>, k: nat, i: nat) returns (t: nat)
    requires IsRun(states, events) && k < |states| && i < |states[k].injected|
    ensures t < k && |states[t].injected| == i && events[t].InjectOne?
    ensures var s, e := states[t], events[t].k;
            && CanInject(s, e) && s.errands[e].recipient in s.agents
            && states[k].injected[i] == Injection(s.errands[e].recipient, s.records[s.errands[e].left[0]].mail)
  {
    hide Step, Enabled;
    var s, u := states[k - 1], states[k];
    Arrival(s, events[k - 1]);
    if i < |s.injected| {
      t := WhenInjected(states, events, k - 1, i);
      assert u.injected[i] == s.injected[i];
    } else {
      t := k - 1;
    }
  }

  lemma Arrival(s: State, e: Event)
    requires Enabled(s, e)
    ensures var t := Step(s, e);
            t.injected == s.injected
            || (&& e.InjectOne? && CanInject(s, e.k) && s.errands[e.k].recipient in s.agents
                && t.injected == s.injected + [Injection(s.errands[e.k].recipient, s.records[s.errands[e.k].left[0]].mail)])
  {
    hide ReleaseOrder, ThreadOf;
  }

  /** What errand `k` puts into the mailbox next. */
  function NextInjection(s: State, k: nat): Injection
    requires CanInject(s, k)
  {
    Injection(s.errands[k].recipient, s.records[s.errands[k].left[0]].mail)
  }

  lemma {:induction false} ArrivesLater(s: State, u: State, k: nat, y: string, st: Stream)
    requires Placed(s) && InjectedOnce(u) && Grows(s, u)
    requires Overtakes(s, k, y, st) && InMailbox(u, y)
    requires |s.injected| < |u.injected| && u.injected[|s.injected|] == NextInjection(s, k)
    ensures !InOrder(u.injected, st)
  {
    var i := |s.injected|;
    var j :| 0 <= j < |u.injected| && u.injected[j].mail.id == y;
    assert u.records[y] == Record(u.injected[j].mail, u.injected[j].recipient, Delivered);
    assert Belongs(u.injected[i], st) && Belongs(u.injected[j], st);
    assert !InMailbox(s, y) by {
      hide ErrandsSound, Accounted, Underway;
      InjectedDelivered(s);
    }
    assert forall n :: 0 <= n < i ==> u.injected[n] == s.injected[n];
    assert i < j;
  }

  lemma {:induction false} OvertakenIsOutOfOrder(states: seq<State>, events: seq<Event>, k: nat, st: Stream, t: nat, y: string)
    requires IsRun(states, events) && t < k < |states| && events[t].InjectOne?
    requires Overtakes(states[t], events[t].k, y, st) && InMailbox(states[k], y)
    ensures !InOrder(states[k].injected, st)
  {
    hide Step, Enabled, Placed, Counted, InOrder, InMailbox;
    RunInv(states, events, t);
    RunInv(states, events, k);
    InjectedOnceOf(states[k]);
    RunGrows(states, events, t, k);
    RunGrows(states, events, t + 1, k);
    Arrives(states[t], events[t]);
    ArrivesLater(states[t], states[k], events[t].k, y, st);
  }

  lemma InjectedOnceOf(s: State)
    requires Placed(s)
    ensures InjectedOnce(s)
  {
  }

  lemma Arrives(s: State, e: Event)
    requires Enabled(s, e) && e.InjectOne? && s.errands[e.k].recipient in s.agents
    ensures Step(s, e).injected == s.injected + [NextInjection(s, e.k)]
  {
  }

  /** A message with a lower number than one already recorded is recorded already. */
  lemma {:induction false} RecordedEarlier(s: State, u: State, x: string, y: string)
    requires Counted(s) && Counted(u) && Grows(s, u)
    requires x in s.records && y in u.records
    requires s.records[x].mail.thread == u.records[y].mail.thread && u.records[y].mail.seqNo < s.records[x].mail.seqNo
    ensures y in s.records && s.records[y].mail == u.records[y].mail && s.records[y].recipient == u.records[y].recipient
  {
    hide Keyed;
    var th, m := u.records[y].mail.thread, u.records[y].mail.seqNo;
    assert Has(s.records, th, m);
    var id :| id in s.records && s.records[id].mail.thread == th && s.records[id].mail.seqNo == m;
  }

  /** What is in the mailbox later, behind all that is in it now, still waits or is carried. */
  lemma {:induction false} NotYetThere(s: State, u: State, j: nat)
    requires Inv(s) && Placed(u) && Grows(s, u)
    requires |s.injected| <= j < |u.injected| && u.injected[j].mail.id in s.records
    ensures var y := u.injected[j].mail.id; At(s, y, Waiting) || At(s, y, Carried)
  {
    hide Counted, Underway, ErrandsSound, Accounted;
    var y := u.injected[j].mail.id;
    PlaceOf(s, y);
    var p :| At(s, y, p);
    assert InMailbox(u, y);
    assert forall n :: 0 <= n < |s.injected| ==> u.injected[n] == s.injected[n];
    assert !InMailbox(s, y);
  }

  lemma {:induction false} OutOfOrderIsOvertaken(states: seq<State>, events: seq<Event>, k: nat, st: Stream) returns (t: nat, y: string)
    requires IsRun(states, events) && k < |states| && !InOrder(states[k].injected, st)
    ensures t < k && events[t].InjectOne? && Overtakes(states[t], events[t].k, y, st) && InMailbox(states[k], y)
  {
    var u := states[k];
    var i, j :| 0 <= i < j < |u.injected| && Belongs(u.injected[i], st) && Belongs(u.injected[j], st)
                && u.injected[i].mail.seqNo >= u.injected[j].mail.seqNo;
    hide Step, Enabled, IsRun, InOrder;
    t := WhenInjected(states, events, k, i);
    y := u.injected[j].mail.id;
    RunInv(states, events, t);
    RunInv(states, events, k);
    RunGrows(states, events, t, k);
    InjectedPair(u, i, j);
    hide Counted, Placed;
    var x := states[t].errands[events[t].k].left[0];
    RecordedEarlier(states[t], u, x, y);
    NotYetThere(states[t], u, j);
  }

  lemma {:induction false} InjectedPair(u: State, i: nat, j: nat)
    requires Inv(u) && i < j < |u.injected|
    ensures var y := u.injected[j].mail.id;
            y in u.records && u.records[y].mail == u.injected[j].mail && u.records[y].recipient == u.injected[j].recipient
    ensures u.injected[i].mail.thread == u.injected[j].mail.thread ==> u.injected[i].mail.seqNo != u.injected[j].mail.seqNo
    ensures InMailbox(u, u.injected[j].mail.id)
  {
  }

  /**
   A stream is in order, in every state of every run, if and only if nothing of
   it was ever put into the mailbox before an earlier message that still waited
   or was still carried, and that has arrived since.
   */
  lemma {:induction false} StreamOrderedExactly(states: seq<State>, events: seq<Event>, k: nat, st: Stream)
    requires IsRun(states, events) && k < |states|
    ensures InOrder(states[k].injected, st) <==> NothingOvertaken(states, events, k, st)
  {
    assert |states| == |events| + 1;
    hide IsRun, InOrder, InMailbox, Overtakes;
    if InOrder(states[k].injected, st) {
      forall t, y | 0 <= t < k && events[t].InjectOne? && Overtakes(states[t], events[t].k, y, st)
        ensures !InMailbox(states[k], y)
      {
        if InMailbox(states[k], y) {
          OvertakenIsOutOfOrder(states, events, k, st, t, y);
        }
      }
    } else {
      var t, y := OutOfOrderIsOvertaken(states, events, k, st);
    }
  }

  // ---- Waiting ----

  /** What waits for `agent` to work on `goal`. */
  function Waits(s: State, agent: string, goal: string): set<string> {
    set id | id in s.records && s.records[id].state == Deferred
             && s.records[id].recipient == agent && s.records[id].mail.goal == Some(goal)
  }

  predicate Releases(e: Event, agent: string, goal: string) {
    e.Mark? && e.agent == agent && e.goal == Some(goal)
  }

  lemma {:induction false} StepWaits(s: State, e: Event, agent: string, goal: string)
    requires Enabled(s, e) && ActiveGoal(s, agent) == Some(goal)
    ensures Waits(Step(s, e), agent, goal) == if Releases(e, agent, goal) then {} else Waits(s, agent, goal)
  {
    hide ThreadOf;
    match e
    case Mark(_, a, g, order) =>
      forall id | id in s.records
        ensures id in order <==> Releasable(s, a, g, id)
      {
      }
      hide ReleaseOrder;
    case _ =>
  }

  /**
   While `agent` works on `goal`, exactly what already waited for it when it
   took the goal up waits for it now, until a release for that goal, after which
   nothing does. So a message is overdue if and only if the slot was changed
   without a release since.
   */
  lemma {:induction false} WaitsExactly(states: seq<State>, events: seq<Event>, i: nat, j: nat, agent: string, goal: string)
    requires IsRun(states, events) && i <= j < |states|
    requires forall t :: i <= t < j ==> ActiveGoal(states[t], agent) == Some(goal)
    ensures var released := exists t :: i <= t < j && Releases(events[t], agent, goal);
            Waits(states[j], agent, goal) == if released then {} else Waits(states[i], agent, goal)
  {
    hide Step, Enabled, Waits, ActiveGoal;
    if i < j {
      WaitsExactly(states, events, i, j - 1, agent, goal);
      StepWaits(states[j - 1], events[j - 1], agent, goal);
    }
  }

  predicate MarksIt(e: Event, id: string) {
    e.Mark? && id in e.order
  }

  lemma StepKeepsWaiting(s: State, e: Event, id: string)
    requires Enabled(s, e) && At(s, id, Waiting)
    ensures At(Step(s, e), id, Waiting) <==> !MarksIt(e, id)
  {
    hide ReleaseOrder, ThreadOf, Underway, InMailbox;
  }

  /** A deferred message stays deferred for as long as no release takes it out: a change of slot never does. */
  lemma {:induction false} WaitsUntilReleased(states: seq<State>, events: seq<Event>, i: nat, j: nat, id: string)
    requires IsRun(states, events) && i <= j < |states| && At(states[i], id, Waiting)
    ensures At(states[j], id, Waiting) <==> forall t :: i <= t < j ==> !MarksIt(events[t], id)
  {
    hide Step, Enabled, At;
    if i < j {
      WaitsUntilReleased(states, events, i, j - 1, id);
      if At(states[j - 1], id, Waiting) {
        StepKeepsWaiting(states[j - 1], events[j - 1], id);
      } else {
        RunGrows(states, events, i, j - 1);
        RunGrows(states, events, j - 1, j);
        GoneForGood(states[i], states[j - 1], states[j], id);
      }
    }
  }

  lemma GoneForGood(r: State, s: State, t: State, id: string)
    requires Grows(r, s) && Grows(s, t) && At(r, id, Waiting) && !At(s, id, Waiting)
    ensures !At(t, id, Waiting)
  {
  }

  // ---- Calls one after the other ----

  /** A call goes to its end before the next begins, and a slot changes only together with its release. */
  ghost predicate Serial(states: seq<State>, events: seq<Event>)
    requires |states| == |events| + 1
  {
    forall i {:trigger events[i]} :: 0 <= i < |events| ==>
      match events[i]
      case InjectOne(_) => true
      case Mark(_, agent, goal, _) => i > 0 && events[i - 1] == SetSlot(agent, goal)
      case _ => states[i].errands == map[] && (i > 0 ==> !events[i - 1].SetSlot?)
  }

  /** Nothing waits for the goal its recipient works on, but for the slot that was changed last. */
  ghost predicate NothingOverdue(s: State, last: Option<Event>) {
    forall id :: id in s.records && s.records[id].state == Deferred ==>
      var r := s.records[id];
      r.mail.goal.Some? && (ActiveGoal(s, r.recipient) != r.mail.goal || last == Some(SetSlot(r.recipient, r.mail.goal)))
  }

  /** The one call under way carries the rest of a stream in order, and nothing of its goal waits. */
  ghost predicate CarriesInOrder(s: State) {
    && (forall k, l :: k in s.errands && l in s.errands ==> k == l)
    && (forall k :: k in s.errands ==> Ordered(s.records, s.errands[k].left))
    && (forall k, x, y :: k in s.errands && x in s.errands[k].left && y in s.records && s.records[y].state == Deferred ==>
          x in s.records && !(s.records[y].recipient == s.errands[k].recipient && s.records[y].mail.goal == s.records[x].mail.goal))
  }

  ghost predicate SerialInv(s: State, last: Option<Event>) {
    && NothingOverdue(s, last)
    && CarriesInOrder(s)
    && (last.Some? && last.value.SetSlot? ==> s.errands == map[])
  }

  function LastEvent(events: seq<Event>, i: nat): Option<Event>
    requires i <= |events|
  {
    if i == 0 then None else Some(events[i - 1])
  }

  lemma {:induction false} RecordedOverdue(s: State, k: nat, r: Record)
    requires NothingOverdue(s, None) && r.mail.id !in s.records
    requires r.state.Deferred? <==> r.mail.goal.Some? && ActiveGoal(s, r.recipient) != r.mail.goal
    ensures NothingOverdue(WithRecord(s, r, k), None)
  {
    assert forall a :: ActiveGoal(WithRecord(s, r, k), a) == ActiveGoal(s, a);
    hide ActiveGoal;
  }

  lemma {:induction false} RecordedCarries(s: State, k: nat, r: Record)
    requires NothingOverdue(s, None) && s.errands == map[] && r.mail.id !in s.records
    requires r.state.Deferred? <==> r.mail.goal.Some? && ActiveGoal(s, r.recipient) != r.mail.goal
    ensures CarriesInOrder(WithRecord(s, r, k))
  {
    var t := WithRecord(s, r, k);
    assert forall id :: id in t.records && id != r.mail.id ==> id in s.records && t.records[id] == s.records[id];
    assert forall l :: l in t.errands ==> l == k && t.errands[l] == Errand(r.recipient, [r.mail.id]) && r.state.Delivered?;
    hide ActiveGoal;
  }

  lemma OverdueApart(s: State, last: Option<Event>)
    requires !(last.Some? && last.value.SetSlot?)
    ensures NothingOverdue(s, last) <==> NothingOverdue(s, None)
  {
  }

  lemma {:induction false} SerialSend(s: State, e: Event, last: Option<Event>)
    requires Enabled(s, e) && e.Send? && SerialInv(s, last)
    requires s.errands == map[] && !(last.Some? && last.value.SetSlot?)
    ensures SerialInv(Step(s, e), Some(e))
  {
    hide ThreadOf;
    if !IsDuplicate(s, e.draft) {
      var r := NewRecord(s, e.sender, e.target, e.draft, e.freshId);
      OverdueApart(s, last);
      RecordedOverdue(s, e.k, r);
      RecordedCarries(s, e.k, r);
    }
    OverdueApart(Step(s, e), Some(e));
    hide NothingOverdue, CarriesInOrder, NewRecord;
  }

  lemma {:induction false} SerialMark(s: State, e: Event, last: Option<Event>)
    requires Enabled(s, e) && e.Mark? && SerialInv(s, last)
    requires last == Some(SetSlot(e.agent, e.goal))
    ensures SerialInv(Step(s, e), Some(e))
  {
    var t := Step(s, e);
    forall id | id in s.records
      ensures id in e.order <==> Releasable(s, e.agent, e.goal, id)
    {
    }
    assert Ordered(t.records, e.order);
    hide ReleaseOrder, Ordered;
    forall id | id in e.order
      ensures Releasable(s, e.agent, e.goal, id)
    {
    }
  }

  lemma {:induction false} OrderedTail(records: map<string, Record>, order: seq<string>)
    requires Ordered(records, order) && order != []
    ensures Ordered(records, order[1..]) && forall id :: id in order[1..] ==> id in order
  {
    var rest := order[1..];
    assert forall i :: 0 <= i < |rest| ==> rest[i] == order[i + 1];
    assert forall id :: id in rest ==> id in order;
  }

  lemma {:induction false} SerialInject(s: State, k: nat, last: Option<Event>)
    requires Enabled(s, InjectOne(k)) && SerialInv(s, last)
    ensures SerialInv(Step(s, InjectOne(k)), Some(InjectOne(k)))
  {
    var t, left := Step(s, InjectOne(k)), s.errands[k].left;
    assert k in s.errands && s.errands != map[];
    assert CarriesInOrder(t) by {
      hide NothingOverdue;
      OrderedTail(s.records, left);
      hide Ordered;
    }
    hide CarriesInOrder;
    assert forall a :: ActiveGoal(t, a) == ActiveGoal(s, a);
  }

  lemma {:induction false} SerialSlot(s: State, e: Event, last: Option<Event>)
    requires Enabled(s, e) && (e.SetSlot? || e.Join?) && SerialInv(s, last)
    requires s.errands == map[] && !(last.Some? && last.value.SetSlot?)
    ensures SerialInv(Step(s, e), Some(e))
  {
    var t := Step(s, e);
    assert forall a :: ActiveGoal(t, a) == ActiveGoal(s, a) || (e.SetSlot? && a == e.agent && ActiveGoal(t, a) == e.goal);
  }

  lemma {:induction false} RunSerial(states: seq<State>, events: seq<Event>, i: nat)
    requires IsRun(states, events) && Serial(states, events) && i < |states|
    ensures SerialInv(states[i], LastEvent(events, i))
  {
    if i > 0 {
      RunSerial(states, events, i - 1);
      var s, e, last := states[i - 1], events[i - 1], LastEvent(events, i - 1);
      hide Step, Enabled, SerialInv;
      match e
      case Send(_, _, _, _, _) => SerialSend(s, e, last);
      case Mark(_, _, _, _) => SerialMark(s, e, last);
      case InjectOne(k) => SerialInject(s, k, last);
      case _ => SerialSlot(s, e, last);
    }
  }

  lemma {:induction false} SerialNeverOvertakes(s: State, last: Option<Event>, k: nat, y: string, st: Stream)
    requires SerialInv(s, last) && ErrandsSound(s)
    ensures !Overtakes(s, k, y, st)
  {
    if Overtakes(s, k, y, st) {
      assert false;
    }
  }

  /**
   When calls come one after the other and every change of slot comes with its
   release, all streams are in order, and behind each change and its release
   nothing waits for the goal its recipient works on.
   */
  lemma {:induction false} SerialIsOrdered(states: seq<State>, events: seq<Event>, k: nat, st: Stream)
    requires IsRun(states, events) && Serial(states, events) && k < |states|
    ensures InOrder(states[k].injected, st)
    ensures !(k > 0 && events[k - 1].SetSlot?) ==>
              forall agent, goal :: ActiveGoal(states[k], agent) == Some(goal) ==> Waits(states[k], agent, goal) == {}
  {
    forall t, y | 0 <= t < k && events[t].InjectOne? && Overtakes(states[t], events[t].k, y, st)
      ensures false
    {
      hide Step, Enabled, IsRun, Serial, Overtakes;
      RunSerial(states, events, t);
      RunInv(states, events, t);
      SerialNeverOvertakes(states[t], LastEvent(events, t), events[t].k, y, st);
    }
    StreamOrderedExactly(states, events, k, st);
    hide Step, Enabled, IsRun, Serial;
    RunSerial(states, events, k);
  }

  // ---- Runs that are not serial ----

  lemma {:induction false} Extend(states: seq<State>, events: seq<Event>, e: Event, t: State)
    returns (more: seq<State>, done: seq<Event>)
    requires IsRun(states, events) && StepsTo(states[|states| - 1], e, t)
    ensures IsRun(more, done) && more == states + [t] && done == events + [e]
  {
    hide Step, Enabled;
    more, done := states + [t], events + [e];
  }

  ghost predicate StepsTo(s: State, e: Event, t: State) {
    Enabled(s, e) && Step(s, e) == t
  }

  function MailTo(id: string, seqNo: nat, goal: Option<string>): Mail {
    Mail(id, "t", seqNo, goal, "s", "")
  }

  function DraftOf(id: string, goal: Option<string>): Draft {
    Draft(Some(id), Some("t"), goal, "")
  }

  /** A session with one recipient "r" and one thread "t". */
  function Scene(records: map<string, Record>, next: nat, goal: Option<string>, mailbox: seq<Mail>, errands: map<nat, Errand>): State {
    State(records, if next == 1 then map[] else map["t" := next], map["r" := Slot(true, goal, mailbox)],
          seq(|mailbox|, i requires 0 <= i < |mailbox| => Injection("r", mailbox[i])), errands, {}, {})
  }

  const GOAL := Some("g")
  const FIRST := MailTo("1", 1, GOAL)
  const SECOND := MailTo("2", 2, GOAL)
  const WAITING := map["1" := Record(FIRST, "r", Deferred)]
  const OVERTAKING := WAITING["2" := Record(SECOND, "r", Delivered)]
  const BOTH := map["1" := Record(FIRST, "r", Delivered), "2" := Record(SECOND, "r", Delivered)]

  lemma JoinScene()
    ensures StepsTo(EMPTY, Join("r", true), Scene(map[], 1, None, [], map[]))
  {
  }

  lemma DeferFirst()
    ensures StepsTo(Scene(map[], 1, None, [], map[]), Send(0, "s", "r", DraftOf("1", GOAL), ""), Scene(WAITING, 2, None, [], map[]))
    ensures StepsTo(Scene(WAITING, 2, None, [], map[]), SetSlot("r", GOAL), Scene(WAITING, 2, GOAL, [], map[]))
  {
  }

  /** A call puts its one message into the mailbox. */
  lemma InjectScene(records: map<string, Record>, next: nat, goal: Option<string>, mailbox: seq<Mail>,
                    k: nat, id: string, others: map<nat, Errand>)
    requires id in records && k !in others
    ensures StepsTo(Scene(records, next, goal, mailbox, others[k := Errand("r", [id])]), InjectOne(k),
                    Scene(records, next, goal, mailbox + [records[id].mail], others))
  {
    var s := Scene(records, next, goal, mailbox, others[k := Errand("r", [id])]);
    var t := Scene(records, next, goal, mailbox + [records[id].mail], others);
    assert s.errands[k].left[1..] == [];
    assert s.errands - {k} == others;
    assert s.injected + [Injection("r", records[id].mail)] == t.injected;
  }

  lemma DeliverSecond()
    ensures StepsTo(Scene(WAITING, 2, GOAL, [], map[]), Send(0, "s", "r", DraftOf("2", GOAL), ""),
                    Scene(OVERTAKING, 3, GOAL, [], map[0 := Errand("r", ["2"])]))
    ensures StepsTo(Scene(OVERTAKING, 3, GOAL, [], map[0 := Errand("r", ["2"])]), InjectOne(0),
                    Scene(OVERTAKING, 3, GOAL, [SECOND], map[]))
  {
    InjectScene(OVERTAKING, 3, GOAL, [], 0, "2", map[]);
    assert [] + [SECOND] == [SECOND];
  }

  lemma ReleaseFirst()
    ensures StepsTo(Scene(OVERTAKING, 3, GOAL, [SECOND], map[]), Mark(0, "r", GOAL, ["1"]),
                    Scene(BOTH, 3, GOAL, [SECOND], map[0 := Errand("r", ["1"])]))
    ensures StepsTo(Scene(BOTH, 3, GOAL, [SECOND], map[0 := Errand("r", ["1"])]), InjectOne(0),
                    Scene(BOTH, 3, GOAL, [SECOND, FIRST], map[]))
  {
    InjectScene(BOTH, 3, GOAL, [SECOND], 0, "1", map[]);
    assert [SECOND] + [FIRST] == [SECOND, FIRST];
  }

  /** The slot is changed without a release: a message waits for the goal its recipient works on. */
  lemma {:induction false} WaitsUnreleased() returns (states: seq<State>, events: seq<Event>)
    ensures IsRun(states, events) && |states| == 4 && states[3] == Scene(WAITING, 2, GOAL, [], map[])
    ensures ActiveGoal(states[3], "r") == GOAL && Waits(states[3], "r", "g") == {"1"}
  {
    JoinScene();
    DeferFirst();
    WaitingScene();
    states, events := [EMPTY], [];
    assert IsRun(states, events);
    hide IsRun, StepsTo, Scene, Waits, ActiveGoal;
    states, events := Extend(states, events, Join("r", true), Scene(map[], 1, None, [], map[]));
    states, events := Extend(states, events, Send(0, "s", "r", DraftOf("1", GOAL), ""), Scene(WAITING, 2, None, [], map[]));
    states, events := Extend(states, events, SetSlot("r", GOAL), Scene(WAITING, 2, GOAL, [], map[]));
  }

  lemma {:induction false} SecondDelivered(before: seq<State>, past: seq<Event>) returns (states: seq<State>, events: seq<Event>)
    requires IsRun(before, past) && |before| == 4 && before[3] == Scene(WAITING, 2, GOAL, [], map[])
    ensures IsRun(states, events) && |states| == 6 && states[..4] == before && states[5] == Scene(OVERTAKING, 3, GOAL, [SECOND], map[])
  {
    DeliverSecond();
    states, events := before, past;
    hide IsRun, StepsTo, Scene;
    states, events := Extend(states, events, Send(0, "s", "r", DraftOf("2", GOAL), ""),
                             Scene(OVERTAKING, 3, GOAL, [], map[0 := Errand("r", ["2"])]));
    states, events := Extend(states, events, InjectOne(0), Scene(OVERTAKING, 3, GOAL, [SECOND], map[]));
  }

  lemma {:induction false} FirstReleased(before: seq<State>, past: seq<Event>) returns (states: seq<State>, events: seq<Event>)
    requires IsRun(before, past) && |before| == 6 && before[5] == Scene(OVERTAKING, 3, GOAL, [SECOND], map[])
    ensures IsRun(states, events) && |states| == 8 && states[..6] == before && states[7] == Scene(BOTH, 3, GOAL, [SECOND, FIRST], map[])
  {
    ReleaseFirst();
    states, events := before, past;
    hide IsRun, StepsTo, Scene;
    states, events := Extend(states, events, Mark(0, "r", GOAL, ["1"]), Scene(BOTH, 3, GOAL, [SECOND], map[0 := Errand("r", ["1"])]));
    states, events := Extend(states, events, InjectOne(0), Scene(BOTH, 3, GOAL, [SECOND, FIRST], map[]));
  }

  /** ... and a later message of its stream overtakes it. */
  lemma {:induction false} WaitingIsOvertaken() returns (states: seq<State>, events: seq<Event>)
    ensures IsRun(states, events) && |states| == 8
    ensures ActiveGoal(states[3], "r") == GOAL && Waits(states[3], "r", "g") == {"1"}
    ensures !InOrder(states[7].injected, Stream("r", GOAL, "t"))
  {
    SceneOutOfOrder(BOTH, GOAL, FIRST, SECOND);
    hide IsRun, Scene, Waits, ActiveGoal, InOrder;
    states, events := WaitsUnreleased();
    var waiting := states;
    states, events := SecondDelivered(states, events);
    assert states[3] == states[..4][3];
    ghost var delivered := states;
    states, events := FirstReleased(states, events);
    assert states[3] == states[..6][3];
  }

  lemma WaitingScene()
    ensures ActiveGoal(Scene(WAITING, 2, GOAL, [], map[]), "r") == GOAL
    ensures Waits(Scene(WAITING, 2, GOAL, [], map[]), "r", "g") == {"1"}
  {
  }

  lemma SceneOutOfOrder(records: map<string, Record>, goal: Option<string>, first: Mail, second: Mail)
    requires first.seqNo < second.seqNo && first.goal == goal && second.goal == goal && first.thread == "t" && second.thread == "t"
    ensures !InOrder(Scene(records, 3, goal, [second, first], map[]).injected, Stream("r", goal, "t"))
  {
    var injected := Scene(records, 3, goal, [second, first], map[]).injected;
    assert injected[0] == Injection("r", second) && injected[1] == Injection("r", first);
  }

  const PLAIN_FIRST := MailTo("1", 1, None)
  const PLAIN_SECOND := MailTo("2", 2, None)
  const ONE_SENT := map["1" := Record(PLAIN_FIRST, "r", Delivered)]
  const BOTH_SENT := ONE_SENT["2" := Record(PLAIN_SECOND, "r", Delivered)]

  const ONE_CALL: map<nat, Errand> := map[1 := Errand("r", ["1"])]
  const TWO_CALLS: map<nat, Errand> := ONE_CALL[0 := Errand("r", ["2"])]

  lemma SendBoth()
    ensures StepsTo(Scene(map[], 1, None, [], map[]), Send(1, "s", "r", DraftOf("1", None), ""), Scene(ONE_SENT, 2, None, [], ONE_CALL))
    ensures StepsTo(Scene(ONE_SENT, 2, None, [], ONE_CALL), Send(0, "s", "r", DraftOf("2", None), ""), Scene(BOTH_SENT, 3, None, [], TWO_CALLS))
  {
  }

  lemma SecondFirst()
    ensures StepsTo(Scene(BOTH_SENT, 3, None, [], TWO_CALLS), InjectOne(0), Scene(BOTH_SENT, 3, None, [PLAIN_SECOND], ONE_CALL))
    ensures StepsTo(Scene(BOTH_SENT, 3, None, [PLAIN_SECOND], ONE_CALL), InjectOne(1), Scene(BOTH_SENT, 3, None, [PLAIN_SECOND, PLAIN_FIRST], map[]))
  {
    InjectScene(BOTH_SENT, 3, None, [], 0, "2", ONE_CALL);
    assert [] + [PLAIN_SECOND] == [PLAIN_SECOND];
    InjectScene(BOTH_SENT, 3, None, [PLAIN_SECOND], 1, "1", map[]);
    assert [PLAIN_SECOND] + [PLAIN_FIRST] == [PLAIN_SECOND, PLAIN_FIRST];
  }

  lemma {:induction false} BothSent() returns (states: seq<State>, events: seq<Event>)
    ensures IsRun(states, events) && |states| == 4 && states[3] == Scene(BOTH_SENT, 3, None, [], TWO_CALLS)
    ensures forall i :: 0 <= i < |events| ==> !events[i].SetSlot? && !events[i].Mark?
  {
    JoinScene();
    SendBoth();
    states, events := [EMPTY], [];
    assert IsRun(states, events);
    hide IsRun, StepsTo, Scene;
    states, events := Extend(states, events, Join("r", true), Scene(map[], 1, None, [], map[]));
    states, events := Extend(states, events, Send(1, "s", "r", DraftOf("1", None), ""), Scene(ONE_SENT, 2, None, [], ONE_CALL));
    states, events := Extend(states, events, Send(0, "s", "r", DraftOf("2", None), ""), Scene(BOTH_SENT, 3, None, [], TWO_CALLS));
  }

  /** Without any goal: two sends are numbered in one order and reach the mailbox in the other. */
  lemma {:induction false} SendsRace() returns (states: seq<State>, events: seq<Event>)
    ensures IsRun(states, events) && |states| == 6
    ensures forall i :: 0 <= i < |events| ==> !events[i].SetSlot? && !events[i].Mark?
    ensures !InOrder(states[5].injected, Stream("r", None, "t"))
  {
    SecondFirst();
    states, events := BothSent();
    hide IsRun, StepsTo, Scene;
    states, events := Extend(states, events, InjectOne(0), Scene(BOTH_SENT, 3, None, [PLAIN_SECOND], ONE_CALL));
    states, events := Extend(states, events, InjectOne(1), Scene(BOTH_SENT, 3, None, [PLAIN_SECOND, PLAIN_FIRST], map[]));
    SceneOutOfOrder(BOTH_SENT, None, PLAIN_FIRST, PLAIN_SECOND);
  }
}
