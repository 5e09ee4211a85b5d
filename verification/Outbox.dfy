/**
 The swarm outbox under crashes (`drain_pending_swarm_outbox` in
 crates/core/src/session.rs): entries are committed with the work state,
 delivered as correlated messages, and acknowledged in a later transaction. A
 save reads the agents and then the records; a crash goes back to what it wrote.
 */
module Outbox {
  import opened Prelude
  import opened Mailbox
  import opened MailboxSafety

  datatype EntryState = Pending | Acknowledged

  /** What one snapshot of the session holds. */
  datatype Memory = Memory(outbox: map<string, EntryState>, mailbox: State)

  /** A delivery an entry resolves to. */
  datatype Target = Target(recipient: string, sender: string, thread: string, body: string)

  /** The identity of a delivery: a function of entry and recipient. */
  function MessageId(entry: string, recipient: string): string {
    "swarm-outbox:" + entry + ":" + recipient
  }

  /** Entry ids have one length, so no two deliveries share an identity. */
  lemma MessageIdInjective(e: string, r: string, e': string, r': string)
    requires |e| == |e'| && MessageId(e, r) == MessageId(e', r')
    ensures e == e' && r == r'
  {
    var a, b := MessageId(e, r), MessageId(e', r');
    var p := |"swarm-outbox:"|;
    assert a[p..p + |e|] == e && b[p..p + |e|] == e';
    assert a[p + |e| + 1..] == r && b[p + |e| + 1..] == r';
  }

  function DraftFor(entry: string, t: Target): Draft {
    Draft(Some(MessageId(entry, t.recipient)), Some(t.thread), None, t.body)
  }

  /** The record of a delivery, with its message left to call `c`. */
  function Deliver(m: Memory, c: nat, entry: string, t: Target): Memory {
    m.(mailbox := Sent(m.mailbox, c, t.sender, t.recipient, DraftFor(entry, t), ""))
  }

  /** Acknowledge the pending entries of `ids`, then drop some acknowledged ones. */
  function Acknowledge(outbox: map<string, EntryState>, ids: set<string>, dropped: set<string>): map<string, EntryState> {
    var marked := map e | e in outbox :: if e in ids then Acknowledged else outbox[e];
    map e | e in marked && !(e in dropped && marked[e] == Acknowledged) :: marked[e]
  }

  // ---- Any schedule of drains, saves and crashes ----

  /** A drain at work on one entry: its resolved deliveries, how many were tried, whether one failed, and the call under way. */
  datatype Drain = Drain(entry: string, targets: seq<Target>, tried: nat, failed: bool, call: Option<nat>)

  /** The first half of a save: the agents with their mailboxes are read before the records. */
  datatype Read = Read(agents: map<string, Slot>, injected: seq<Injection>, unreachable: set<string>)

  datatype System = System(
    mem: Memory,
    disk: Memory,
    begun: map<nat, Read>,                  // saves that have read the agents
    drains: map<nat, Drain>,
    committed: set<string>,                 // entries whose commit reached the disk
    acked: map<string, seq<Target>>)        // durably acknowledged entries and what they resolved to

  /** Putting a message into a mailbox, a drain's own included, is traffic. */
  datatype SystemEvent =
    | BeginRead(save: nat)
    | CommitEntry(entry: string, saveOk: bool, save: nat)
    | StartDrain(drain: nat, entry: string, targets: seq<Target>)
    | DeliverNext(drain: nat, call: nat)
    | SaveDelivery(drain: nat, saveOk: bool, save: nat)
    | Ack(drain: nat, dropped: set<string>, saveOk: bool, save: nat)
    | Traffic(event: Event)
    | Save(save: nat)
    | Crash

  const START := System(Memory(map[], EMPTY), Memory(map[], EMPTY), map[], map[], {}, map[])

  ghost predicate CanStep(s: System, e: SystemEvent) {
    match e
    case CommitEntry(entry, _, _) => entry !in s.committed
    case DeliverNext(_, c) => c !in s.mem.mailbox.errands
    case Traffic(event) => Enabled(s.mem.mailbox, event)
    case _ => true
  }

  predicate Finished(d: Drain) {
    d.tried == |d.targets| && !d.failed && d.call.None?
  }

  function Tried(d: Drain, ok: bool): Drain {
    d.(tried := d.tried + 1, failed := d.failed || !ok, call := None)
  }

  predicate Free(d: Drain) {
    d.call.None? && d.tried < |d.targets|
  }

  function DeliverStep(s: System, k: nat, c: nat): System
    requires k in s.drains && Free(s.drains[k])
  {
    var d := s.drains[k];
    var t := d.targets[d.tried];
    if MessageId(d.entry, t.recipient) in s.mem.mailbox.records then s.(drains := s.drains[k := Tried(d, true)])
    else s.(mem := Deliver(s.mem, c, d.entry, t), drains := s.drains[k := d.(call := Some(c))])
  }

  /** The call has put its message into the mailbox. */
  predicate Arrived(s: System, d: Drain) {
    d.call.Some? && d.call.value !in s.mem.mailbox.errands && d.tried < |d.targets|
  }

  function Now(m: State): Read {
    Read(m.agents, m.injected, m.unreachable)
  }

  /** What a save writes that read the agents as `r` and the records now. */
  function Torn(m: State, r: Read): State {
    m.(agents := r.agents, injected := r.injected, unreachable := r.unreachable, errands := map[])
  }

  /** A save that has not read the agents yet reads them now. */
  function Written(s: System, w: nat, mem: Memory): Memory {
    mem.(mailbox := Torn(mem.mailbox, if w in s.begun then s.begun[w] else Now(mem.mailbox)))
  }

  function SaveStep(s: System, k: nat, saveOk: bool, w: nat): System
    requires k in s.drains
  {
    s.(disk := if saveOk then Written(s, w, s.mem) else s.disk, drains := s.drains[k := Tried(s.drains[k], saveOk)])
  }

  function AckStep(s: System, k: nat, dropped: set<string>, saveOk: bool, w: nat): System
    requires k in s.drains
  {
    var d := s.drains[k];
    if !Finished(d) || !saveOk then s.(drains := s.drains - {k})
    else
      var mem := s.mem.(outbox := Acknowledge(s.mem.outbox, {d.entry}, dropped));
      var newly := d.entry in s.mem.outbox && s.mem.outbox[d.entry] == Pending;
      s.(mem := mem, disk := Written(s, w, mem), drains := s.drains - {k},
         acked := if newly then s.acked[d.entry := d.targets] else s.acked)
  }

  /** Recorded as delivered, and neither in a mailbox nor known to be lost. */
  ghost predicate Missing(s: State, id: string) {
    && id in s.records && s.records[id].state == Delivered
    && !InMailbox(s, id) && id !in s.unreachable && id !in s.stranded
  }

  ghost function MissingIds(s: State): set<string> {
    set id | id in s.records && Missing(s, id)
  }

  /** A session started from its snapshot: what is missing there stays so. */
  ghost function Restarted(s: State): State {
    s.(errands := map[], stranded := s.stranded + MissingIds(s))
  }

  ghost function SystemStep(s: System, e: SystemEvent): System
    requires CanStep(s, e)
  {
    match e
    case BeginRead(w) => s.(begun := s.begun[w := Now(s.mem.mailbox)])
    case CommitEntry(entry, saveOk, w) =>
      if saveOk then
        var mem := s.mem.(outbox := s.mem.outbox[entry := Pending]);
        s.(mem := mem, disk := Written(s, w, mem), committed := s.committed + {entry})
      else s
    case StartDrain(k, entry, targets) =>
      if k !in s.drains && entry in s.mem.outbox && s.mem.outbox[entry] == Pending
      then s.(drains := s.drains[k := Drain(entry, targets, 0, false, None)])
      else s
    case DeliverNext(k, c) => if k in s.drains && Free(s.drains[k]) then DeliverStep(s, k, c) else s
    case SaveDelivery(k, saveOk, w) => if k in s.drains && Arrived(s, s.drains[k]) then SaveStep(s, k, saveOk, w) else s
    case Ack(k, dropped, saveOk, w) => if k in s.drains then AckStep(s, k, dropped, saveOk, w) else s
    case Traffic(event) => s.(mem := s.mem.(mailbox := Step(s.mem.mailbox, event)))
    case Save(w) => s.(disk := Written(s, w, s.mem))
    case Crash => s.(mem := s.disk.(mailbox := Restarted(s.disk.mailbox)), drains := map[], begun := map[])
  }

  ghost predicate IsSchedule(states: seq<System>, events: seq<SystemEvent>) {
    && |states| == |events| + 1
    && states[0] == START
    && forall i {:trigger events[i]} :: 0 <= i < |events| ==>
         CanStep(states[i], events[i]) && states[i + 1] == SystemStep(states[i], events[i])
  }

  // ---- The invariant ----

  /** Every delivery in `targets[..n]` has its record. */
  predicate AllRecorded(entry: string, targets: seq<Target>, n: nat, records: map<string, Record>)
    requires n <= |targets|
  {
    forall i :: 0 <= i < n ==> MessageId(entry, targets[i].recipient) in records
  }

  /** What a drain has tried is recorded, and so is what its call is at. */
  predicate DrainRecorded(d: Drain, records: map<string, Record>) {
    && d.tried <= |d.targets|
    && AllRecorded(d.entry, d.targets, d.tried, records)
    && (d.call.Some? ==> d.tried < |d.targets| && MessageId(d.entry, d.targets[d.tried].recipient) in records)
  }

  /** What a snapshot keeps of the invariant of the mailboxes. */
  ghost predicate Readable(s: State) {
    && Counted(s) && InjectedOnce(s) && LostSound(s)
    && forall id :: InMailbox(s, id) ==> id !in s.unreachable && id !in s.stranded
  }

  /** A read is of an earlier moment. */
  ghost predicate Earlier(r: Read, m: State) {
    r.injected <= m.injected && r.unreachable <= m.unreachable
  }

  ghost predicate ReadsEarlier(begun: map<nat, Read>, m: State) {
    forall w :: w in begun ==> Earlier(begun[w], m)
  }

  ghost predicate SystemInv(s: System) {
    && Inv(s.mem.mailbox)
    && Readable(s.disk.mailbox)
    && ReadsEarlier(s.begun, s.mem.mailbox)
    && s.disk.mailbox.records.Keys <= s.mem.mailbox.records.Keys
    && s.mem.outbox == s.disk.outbox
    && (forall k :: k in s.drains ==> DrainRecorded(s.drains[k], s.mem.mailbox.records))
    && (forall e :: e in s.acked ==> AllRecorded(e, s.acked[e], |s.acked[e]|, s.disk.mailbox.records))
    && (forall e :: e in s.committed ==> e in s.acked || (e in s.disk.outbox && s.disk.outbox[e] == Pending))
    && (forall e :: e in s.disk.outbox ==> e in s.committed && (s.disk.outbox[e] == Acknowledged ==> e in s.acked))
    && (forall e :: e in s.acked ==> e in s.committed && (e in s.disk.outbox ==> s.disk.outbox[e] == Acknowledged))
  }

  lemma ReadsStayEarlier(begun: map<nat, Read>, m: State, n: State)
    requires ReadsEarlier(begun, m) && Grows(m, n)
    ensures ReadsEarlier(begun, n)
  {
    forall w | w in begun
      ensures Earlier(begun[w], n)
    {
      assert Earlier(begun[w], m);
    }
  }

  lemma {:induction false} TornSound(m: State, r: Read)
    requires InjectedOnce(m) && LostSound(m) && Earlier(r, m)
    ensures InjectedOnce(Torn(m, r)) && LostSound(Torn(m, r))
    ensures forall id :: InMailbox(Torn(m, r), id) ==> InMailbox(m, id)
  {
    assert forall i :: 0 <= i < |r.injected| ==> r.injected[i] == m.injected[i];
  }

  lemma {:induction false} TornReadable(m: State, r: Read)
    requires Inv(m) && Earlier(r, m)
    ensures Readable(Torn(m, r)) && Torn(m, r).records == m.records && Torn(m, r).stranded == m.stranded
  {
    hide InjectedOnce, LostSound, InMailbox, Counted, Inv;
    ArrivedIsNotLost(m);
    TornSound(m, r);
    CountedAlike(m, Torn(m, r));
    assert forall id :: InMailbox(Torn(m, r), id) ==> id !in r.unreachable && id !in m.stranded;
  }

  lemma CountedAlike(s: State, t: State)
    requires s.records == t.records && s.nextSeq == t.nextSeq
    ensures Counted(s) <==> Counted(t)
  {
  }

  lemma ArrivedIsNotLost(m: State)
    requires Inv(m)
    ensures Counted(m) && InjectedOnce(m) && LostSound(m)
    ensures forall id :: InMailbox(m, id) ==> id !in m.unreachable && id !in m.stranded
  {
    hide Counted, InjectedOnce, LostSound, Underway, InMailbox;
  }

  /** What is written can be read back. */
  lemma {:induction false} WrittenReadable(s: System, w: nat, mem: Memory)
    requires Inv(mem.mailbox) && ReadsEarlier(s.begun, mem.mailbox)
    ensures var d := Written(s, w, mem);
            Readable(d.mailbox) && d.mailbox.records == mem.mailbox.records && d.outbox == mem.outbox
  {
    hide Inv, Readable, Earlier;
    EarlierNow(mem.mailbox);
    TornReadable(mem.mailbox, if w in s.begun then s.begun[w] else Now(mem.mailbox));
  }

  lemma EarlierNow(m: State)
    ensures Earlier(Now(m), m)
  {
  }

  lemma {:induction false} RecordsOnlyGrow(m: State, e: Event)
    requires Enabled(m, e)
    ensures m.records.Keys <= Step(m, e).records.Keys
    ensures Grows(m, Step(m, e))
  {
    hide Step, Enabled;
    StepGrows(m, e);
    forall id | id in m.records
      ensures id in Step(m, e).records
    {
    }
  }

  function SendEvent(c: nat, entry: string, t: Target): Event {
    Send(c, t.sender, t.recipient, DraftFor(entry, t), "")
  }

  lemma DeliverIsSend(m: Memory, c: nat, entry: string, t: Target)
    requires c !in m.mailbox.errands
    ensures Enabled(m.mailbox, SendEvent(c, entry, t))
    ensures Deliver(m, c, entry, t).mailbox == Step(m.mailbox, SendEvent(c, entry, t))
    ensures MessageId(entry, t.recipient) in Deliver(m, c, entry, t).mailbox.records
  {
    hide MessageId;
  }

  lemma {:induction false} KeepsRecorded(d: Drain, before: map<string, Record>, after: map<string, Record>)
    requires DrainRecorded(d, before) && before.Keys <= after.Keys
    ensures DrainRecorded(d, after)
  {
    hide MessageId;
    assert forall id :: id in before ==> id in after;
  }

  lemma {:induction false} DrainsKeepRecorded(s: System, drains: map<nat, Drain>, k: nat, after: map<string, Record>)
    requires forall l :: l in s.drains ==> DrainRecorded(s.drains[l], s.mem.mailbox.records)
    requires s.mem.mailbox.records.Keys <= after.Keys
    requires k in drains && DrainRecorded(drains[k], after)
    requires forall l :: l in drains && l != k ==> l in s.drains && drains[l] == s.drains[l]
    ensures forall l :: l in drains ==> DrainRecorded(drains[l], after)
  {
    hide DrainRecorded;
    forall l | l in drains && l != k
      ensures DrainRecorded(drains[l], after)
    {
      KeepsRecorded(s.drains[l], s.mem.mailbox.records, after);
    }
  }

  lemma {:induction false} DuplicateInv(s: System, k: nat)
    requires SystemInv(s) && k in s.drains && Free(s.drains[k])
    requires MessageId(s.drains[k].entry, s.drains[k].targets[s.drains[k].tried].recipient) in s.mem.mailbox.records
    ensures SystemInv(s.(drains := s.drains[k := Tried(s.drains[k], true)]))
  {
    hide Inv, MessageId;
  }

  lemma {:induction false} NewDeliveryInv(s: System, k: nat, call: nat, m: State)
    requires SystemInv(s) && k in s.drains && Free(s.drains[k])
    requires Inv(m) && s.mem.mailbox.records.Keys <= m.records.Keys && Grows(s.mem.mailbox, m)
    requires MessageId(s.drains[k].entry, s.drains[k].targets[s.drains[k].tried].recipient) in m.records
    ensures SystemInv(s.(mem := s.mem.(mailbox := m), drains := s.drains[k := s.drains[k].(call := Some(call))]))
  {
    hide Inv, MessageId, AllRecorded, Grows, Readable, Earlier, ReadsEarlier;
    var drains := s.drains[k := s.drains[k].(call := Some(call))];
    ReadsStayEarlier(s.begun, s.mem.mailbox, m);
    KeepsRecorded(s.drains[k], s.mem.mailbox.records, m.records);
    DrainsKeepRecorded(s, drains, k, m.records);
    hide DrainRecorded;
  }

  lemma {:induction false} DeliverInv(s: System, k: nat, c: nat)
    requires SystemInv(s) && c !in s.mem.mailbox.errands && k in s.drains && Free(s.drains[k])
    ensures SystemInv(DeliverStep(s, k, c))
  {
    MailboxInv(s);
    hide SystemInv, Inv, MessageId, Sent, Step, Enabled, Grows;
    var d := s.drains[k];
    var t := d.targets[d.tried];
    if MessageId(d.entry, t.recipient) in s.mem.mailbox.records {
      DuplicateInv(s, k);
    } else {
      DeliverIsSend(s.mem, c, d.entry, t);
      RecordsOnlyGrow(s.mem.mailbox, SendEvent(c, d.entry, t));
      StepInv(s.mem.mailbox, SendEvent(c, d.entry, t));
      NewDeliveryInv(s, k, c, Deliver(s.mem, c, d.entry, t).mailbox);
    }
  }

  lemma MailboxInv(s: System)
    requires SystemInv(s)
    ensures Inv(s.mem.mailbox)
  {
  }

  lemma {:induction false} SaveInv(s: System, k: nat, saveOk: bool, w: nat)
    requires SystemInv(s) && k in s.drains && Arrived(s, s.drains[k])
    ensures SystemInv(SaveStep(s, k, saveOk, w))
  {
    hide Inv, MessageId, Readable, ReadsEarlier, Written;
    var u := SaveStep(s, k, saveOk, w);
    WrittenReadable(s, w, s.mem);
    assert DrainRecorded(u.drains[k], u.mem.mailbox.records);
    hide DrainRecorded;
    DrainsKeepRecorded(s, u.drains, k, u.mem.mailbox.records);
    WritesInv(s, s.mem, w);
  }

  /** A snapshot of the present memory keeps the outbox, and has every record. */
  lemma {:induction false} WritesInv(s: System, mem: Memory, w: nat)
    requires SystemInv(s) && mem == s.mem
    ensures forall e :: e in s.acked ==> AllRecorded(e, s.acked[e], |s.acked[e]|, s.mem.mailbox.records)
    ensures SystemInv(s.(disk := Written(s, w, mem)))
  {
    hide Inv, MessageId, Readable, ReadsEarlier, Written, DrainRecorded;
    WrittenReadable(s, w, mem);
    forall e | e in s.acked
      ensures AllRecorded(e, s.acked[e], |s.acked[e]|, s.mem.mailbox.records)
    {
      assert AllRecorded(e, s.acked[e], |s.acked[e]|, s.disk.mailbox.records);
    }
  }

  lemma {:induction false} AckInv(s: System, k: nat, dropped: set<string>, saveOk: bool, w: nat)
    requires SystemInv(s) && k in s.drains
    ensures SystemInv(AckStep(s, k, dropped, saveOk, w))
  {
    hide Inv, MessageId, Readable, ReadsEarlier, Written;
    var d := s.drains[k];
    var u := AckStep(s, k, dropped, saveOk, w);
    if Finished(d) && saveOk {
      WrittenReadable(s, w, u.mem);
      forall e | e in u.committed
        ensures e in u.acked || (e in u.disk.outbox && u.disk.outbox[e] == Pending)
      {
      }
    }
  }

  lemma {:induction false} CommitEntryInv(s: System, entry: string, saveOk: bool, w: nat)
    requires SystemInv(s) && CanStep(s, CommitEntry(entry, saveOk, w))
    ensures SystemInv(SystemStep(s, CommitEntry(entry, saveOk, w)))
  {
    hide Inv, MessageId, Readable, ReadsEarlier, Written, DrainRecorded;
    WrittenReadable(s, w, s.mem.(outbox := s.mem.outbox[entry := Pending]));
    WritesInv(s, s.mem, w);
    hide AllRecorded;
  }

  lemma {:induction false} BeginReadInv(s: System, w: nat)
    requires SystemInv(s)
    ensures SystemInv(s.(begun := s.begun[w := Now(s.mem.mailbox)]))
  {
    hide Inv, MessageId, Readable, Earlier, DrainRecorded, AllRecorded;
    EarlierNow(s.mem.mailbox);
  }

  lemma {:induction false} TrafficInv(s: System, event: Event)
    requires SystemInv(s) && Enabled(s.mem.mailbox, event)
    ensures SystemInv(SystemStep(s, Traffic(event)))
  {
    hide Inv, Step, Enabled, MessageId, Grows, AllRecorded, Readable, ReadsEarlier;
    RecordsOnlyGrow(s.mem.mailbox, event);
    StepInv(s.mem.mailbox, event);
    ReadsStayEarlier(s.begun, s.mem.mailbox, Step(s.mem.mailbox, event));
    var after := Step(s.mem.mailbox, event).records;
    forall l | l in s.drains
      ensures DrainRecorded(s.drains[l], after)
    {
      KeepsRecorded(s.drains[l], s.mem.mailbox.records, after);
    }
    hide DrainRecorded;
  }

  lemma {:induction false} RestartMoves(s: State)
    ensures var t := Restarted(s);
            && t.records == s.records && t.nextSeq == s.nextSeq && t.unreachable == s.unreachable
            && (forall id :: !Underway(t, id))
            && (forall id :: InMailbox(t, id) <==> InMailbox(s, id))
            && (forall id :: id in t.stranded <==> id in s.stranded || Missing(s, id))
  {
  }

  lemma RestartSound(s: State)
    requires InjectedOnce(s)
    ensures ErrandsSound(Restarted(s)) && InjectedOnce(Restarted(s))
  {
    hide MissingIds;
  }

  lemma {:induction false} RestartInv(s: State)
    requires Readable(s)
    ensures Inv(Restarted(s)) && Restarted(s).records == s.records
  {
    RestartMoves(s);
    RestartSound(s);
    CountedAlike(s, Restarted(s));
    RestartPlaced(s);
    hide Counted, Placed, Restarted;
  }

  lemma {:induction false} RestartPlaced(s: State)
    requires Readable(s)
    ensures Placed(Restarted(s))
  {
    hide Underway, InMailbox, Restarted, ErrandsSound, Counted, LostSound, Apart, Accounted;
    RestartMoves(s);
    RestartSound(s);
    InjectedDelivered(s);
    hide InjectedOnce;
    RestartLost(s, Restarted(s));
    RestartApart(s, Restarted(s));
    RestartAccounted(s, Restarted(s));
  }

  lemma {:induction false} RestartLost(s: State, t: State)
    requires LostSound(s) && t.records == s.records && t.unreachable == s.unreachable
    requires forall id :: id in t.stranded ==> id in s.stranded || Missing(s, id)
    ensures LostSound(t)
  {
    hide InMailbox;
  }

  lemma {:induction false} RestartApart(s: State, t: State)
    requires t.unreachable == s.unreachable
    requires forall id :: InMailbox(s, id) ==> id !in s.unreachable && id !in s.stranded
    requires forall id :: id in t.stranded ==> id in s.stranded || Missing(s, id)
    requires forall id :: !Underway(t, id)
    requires forall id :: InMailbox(t, id) <==> InMailbox(s, id)
    ensures Apart(t)
  {
    hide InMailbox, Underway;
  }

  lemma {:induction false} RestartAccounted(s: State, t: State)
    requires t.records == s.records && t.unreachable == s.unreachable
    requires forall id :: id in s.stranded || Missing(s, id) ==> id in t.stranded
    requires forall id :: InMailbox(s, id) ==> InMailbox(t, id)
    ensures Accounted(t)
  {
    hide InMailbox, Underway;
  }

  lemma {:induction false} CrashInv(s: System)
    requires SystemInv(s)
    ensures SystemInv(s.(mem := s.disk.(mailbox := Restarted(s.disk.mailbox)), drains := map[], begun := map[]))
  {
    hide Inv, MessageId, Restarted, AllRecorded, Readable;
    RestartInv(s.disk.mailbox);
  }

  lemma {:induction false} SystemStepInv(s: System, e: SystemEvent)
    requires SystemInv(s) && CanStep(s, e)
    ensures SystemInv(SystemStep(s, e))
  {
    hide Inv, Step, MessageId, Enabled, DrainRecorded, Restarted, SystemInv, Written, Torn;
    match e
    case BeginRead(w) => BeginReadInv(s, w);
    case CommitEntry(entry, saveOk, w) => CommitEntryInv(s, entry, saveOk, w);
    case DeliverNext(k, c) =>
      if k in s.drains && Free(s.drains[k]) {
        DeliverInv(s, k, c);
      }
    case SaveDelivery(k, saveOk, w) =>
      if k in s.drains && Arrived(s, s.drains[k]) {
        SaveInv(s, k, saveOk, w);
      }
    case Ack(k, dropped, saveOk, w) =>
      if k in s.drains {
        AckInv(s, k, dropped, saveOk, w);
      }
    case Traffic(event) => TrafficInv(s, event);
    case Crash => CrashInv(s);
    case StartDrain(k, entry, targets) => StartInv(s, k, entry, targets);
    case Save(w) => WritesInv(s, s.mem, w);
  }

  lemma {:induction false} StartInv(s: System, k: nat, entry: string, targets: seq<Target>)
    requires SystemInv(s)
    ensures SystemInv(SystemStep(s, StartDrain(k, entry, targets)))
  {
    hide Inv, MessageId;
  }

  lemma EmptySystemInv()
    ensures SystemInv(START)
  {
    EmptyInv();
    EmptyReadable();
    hide Inv, Readable;
  }

  lemma EmptyReadable()
    ensures Readable(EMPTY)
  {
    EmptyInv();
    ArrivedIsNotLost(EMPTY);
    hide Inv, Counted, InjectedOnce, LostSound, InMailbox;
  }

  lemma {:induction false} ScheduleInv(states: seq<System>, events: seq<SystemEvent>, i: nat)
    requires IsSchedule(states, events) && i < |states|
    ensures SystemInv(states[i])
  {
    hide SystemInv, SystemStep, CanStep;
    if i == 0 {
      EmptySystemInv();
    } else {
      ScheduleInv(states, events, i - 1);
      SystemStepInv(states[i - 1], events[i - 1]);
    }
  }

  ghost predicate AtMostOnce(injected: seq<Injection>, id: string) {
    forall i, j :: 0 <= i < j < |injected| ==> !(injected[i].mail.id == id && injected[j].mail.id == id)
  }

  lemma InjectedAtMostOnce(s: State, id: string)
    requires InjectedOnce(s)
    ensures AtMostOnce(s.injected, id)
  {
  }

  /**
   At most once, and nothing acknowledged too early: in every state of every
   schedule a delivery has at most one injection, in memory and in what a crash
   would go back to; an entry acknowledged on disk has its record there for every
   recipient it resolved to; and an entry that was committed is pending on disk
   until then.
   */
  lemma {:induction false} AtMostOnceAndRecorded(states: seq<System>, events: seq<SystemEvent>, k: nat, entry: string, recipient: string)
    requires IsSchedule(states, events) && k < |states|
    ensures var s := states[k];
            && AtMostOnce(s.mem.mailbox.injected, MessageId(entry, recipient))
            && AtMostOnce(s.disk.mailbox.injected, MessageId(entry, recipient))
            && (entry in s.disk.outbox && s.disk.outbox[entry] == Acknowledged ==> entry in s.acked)
            && (entry in s.acked ==>
                  forall i :: 0 <= i < |s.acked[entry]| ==>
                    MessageId(entry, s.acked[entry][i].recipient) in s.disk.mailbox.records)
            && (entry in s.committed && entry !in s.acked ==>
                  entry in s.disk.outbox && s.disk.outbox[entry] == Pending
                  && entry in s.mem.outbox && s.mem.outbox[entry] == Pending)
  {
    ScheduleInv(states, events, k);
    hide MessageId, IsSchedule, AtMostOnce, InjectedOnce, Counted;
    InjectedAtMostOnce(states[k].mem.mailbox, MessageId(entry, recipient));
    InjectedAtMostOnce(states[k].disk.mailbox, MessageId(entry, recipient));
  }

  // ---- At least once ----

  /** A crash went back to a snapshot in which the message was recorded as delivered and not in its mailbox. */
  ghost predicate CaughtByCrash(states: seq<System>, events: seq<SystemEvent>, k: nat, id: string)
    requires |states| == |events| + 1 && k < |states|
  {
    exists i {:trigger events[i]} :: 0 <= i < k && events[i].Crash? && Missing(states[i].disk.mailbox, id)
  }

  lemma {:induction false} StrandedStep(s: System, e: SystemEvent, id: string)
    requires CanStep(s, e)
    ensures var t := SystemStep(s, e);
            if e.Crash? then
              && (id in t.mem.mailbox.stranded <==> id in s.disk.mailbox.stranded || Missing(s.disk.mailbox, id))
              && t.disk == s.disk
            else
              && t.mem.mailbox.stranded == s.mem.mailbox.stranded
              && (t.disk == s.disk || t.disk.mailbox.stranded == s.mem.mailbox.stranded)
  {
    RestartMoves(s.disk.mailbox);
    hide MessageId, ReleaseOrder, ThreadOf, Missing, MissingIds;
  }

  /** A message is stranded exactly when a crash caught it between its record and its mailbox. */
  lemma {:induction false} StrandedExactly(states: seq<System>, events: seq<SystemEvent>, k: nat, id: string)
    requires IsSchedule(states, events) && k < |states|
    ensures var s := states[k];
            && (id in s.mem.mailbox.stranded <==> CaughtByCrash(states, events, k, id))
            && (id in s.disk.mailbox.stranded ==> CaughtByCrash(states, events, k, id))
            && (CaughtByCrash(states, events, k, id) ==> id in s.disk.mailbox.stranded || Missing(s.disk.mailbox, id))
  {
    hide SystemStep, CanStep, Missing;
    if k > 0 {
      StrandedExactly(states, events, k - 1, id);
      StrandedStep(states[k - 1], events[k - 1], id);
      assert CaughtByCrash(states, events, k, id) <==>
               CaughtByCrash(states, events, k - 1, id) || (events[k - 1].Crash? && Missing(states[k - 1].disk.mailbox, id));
    }
  }

  /**
   What a snapshot misses: what a call carried when the records were read, and
   what arrived, or found no recipient, after the agents were read.
   */
  lemma {:induction false} MissingExactly(m: State, r: Read, id: string)
    requires Inv(m) && Earlier(r, m)
    ensures Missing(Torn(m, r), id) <==>
              || At(m, id, Carried)
              || (At(m, id, Place.Mailbox) && !InMailbox(Torn(m, r), id))
              || (At(m, id, Unreachable) && id !in r.unreachable)
  {
    TornSoundHere(m, r);
    PlaceOf(m, id);
    NotCarriedWaiting(m, id);
    hide Inv, Underway, InMailbox;
    if id in m.records {
      var p :| At(m, id, p);
      match p
      case Waiting => assert At(m, id, Waiting);
      case Carried => assert At(m, id, Carried);
      case Mailbox => assert At(m, id, Place.Mailbox);
      case Unreachable => assert At(m, id, Unreachable);
      case Stranded => assert At(m, id, Stranded);
    }
  }

  lemma TornSoundHere(m: State, r: Read)
    requires Inv(m) && Earlier(r, m)
    ensures forall id :: InMailbox(Torn(m, r), id) ==> InMailbox(m, id)
  {
    hide Counted, ErrandsSound, Apart, Accounted;
    TornSound(m, r);
  }

  lemma NotCarriedWaiting(m: State, id: string)
    requires Inv(m)
    ensures id in m.records && !At(m, id, Waiting) ==> m.records[id].state == Delivered
  {
  }

  /**
   At least once, exactly: a delivery of an acknowledged entry is in its
   recipient's mailbox if and only if no call still carries it, it did not find
   its recipient gone, no other message of its id waits, and no crash caught it
   between its record and the mailbox.
   */
  lemma {:induction false} ArrivedExactly(states: seq<System>, events: seq<SystemEvent>, k: nat, entry: string, i: nat)
    requires IsSchedule(states, events) && k < |states|
    requires entry in states[k].acked && i < |states[k].acked[entry]|
    ensures var m, id := states[k].mem.mailbox, MessageId(entry, states[k].acked[entry][i].recipient);
            InMailbox(m, id) <==>
              !At(m, id, Carried) && !At(m, id, Unreachable) && !At(m, id, Waiting) && !CaughtByCrash(states, events, k, id)
  {
    var m, id := states[k].mem.mailbox, MessageId(entry, states[k].acked[entry][i].recipient);
    ScheduleInv(states, events, k);
    hide Inv, IsSchedule, Underway, InMailbox, CaughtByCrash;
    StrandedExactly(states, events, k, id);
    PlaceOf(m, id);
    var p :| At(m, id, p);
    assert p == Stranded <==> At(m, id, Stranded);
    assert p == Place.Mailbox <==> At(m, id, Place.Mailbox);
  }

  lemma {:induction false} AckedOnce(s: System, e: SystemEvent, entry: string)
    requires SystemInv(s) && CanStep(s, e) && entry in s.acked
    ensures var t := SystemStep(s, e); entry in t.acked && t.acked[entry] == s.acked[entry]
  {
    hide Inv, Step, Enabled, MessageId, Sent, Acknowledge, Restarted, Written, Readable, DrainRecorded;
  }

  /** A crash loses no acknowledgement: what was acknowledged stays so in every later state. */
  lemma {:induction false} AcknowledgedForGood(states: seq<System>, events: seq<SystemEvent>, i: nat, j: nat, entry: string)
    requires IsSchedule(states, events) && i <= j < |states|
    requires entry in states[i].acked
    ensures entry in states[j].acked && states[j].acked[entry] == states[i].acked[entry]
  {
    hide SystemInv, SystemStep, CanStep;
    if i < j {
      AcknowledgedForGood(states, events, i, j - 1, entry);
      ScheduleInv(states, events, j - 1);
      AckedOnce(states[j - 1], events[j - 1], entry);
    }
  }

  // ---- A delivery that a crash loses ----

  const TARGET := Target("r", "s", "t", "")
  const ID := MessageId("e", "r")
  const MAIL := Mail(ID, "t", 1, None, "s", "")
  const OPEN := map["e" := Pending]

  function Session(recorded: bool, errands: map<nat, Errand>, stranded: set<string>): State {
    State(if recorded then map[ID := Record(MAIL, "r", Delivered)] else map[],
          if recorded then map["t" := 2] else map[],
          map["r" := Slot(true, None, [])], [], errands, {}, stranded)
  }

  const CALL: map<nat, Errand> := map[0 := Errand("r", [ID])]
  const QUIET := Memory(OPEN, Session(false, map[], {}))
  const CAUGHT := Memory(OPEN, Session(true, CALL, {}))
  const TORN := Memory(OPEN, Session(true, map[], {}))
  const AFTER := Memory(OPEN, Session(true, map[], {ID}))
  const CLOSED := Memory(map["e" := Acknowledged], Session(true, map[], {ID}))

  function Working(d: Drain): map<nat, Drain> {
    map[0 := d]
  }

  const BEGUN := Drain("e", [TARGET], 0, false, None)

  ghost predicate Leads(s: System, e: SystemEvent, t: System) {
    CanStep(s, e) && SystemStep(s, e) == t
  }

  lemma {:induction false} ExtendSchedule(states: seq<System>, events: seq<SystemEvent>, e: SystemEvent, t: System)
    returns (more: seq<System>, done: seq<SystemEvent>)
    requires IsSchedule(states, events) && Leads(states[|states| - 1], e, t)
    ensures IsSchedule(more, done) && more == states + [t] && done == events + [e]
  {
    hide CanStep, SystemStep;
    more, done := states + [t], events + [e];
  }

  const S1 := System(Memory(map[], Session(false, map[], {})), Memory(map[], EMPTY), map[], map[], {}, map[])
  const S2 := System(QUIET, QUIET, map[], map[], {"e"}, map[])
  const S3 := S2.(drains := Working(BEGUN))
  const S4 := System(CAUGHT, QUIET, map[], Working(BEGUN.(call := Some(0))), {"e"}, map[])
  const S5 := S4.(disk := TORN)
  const S6 := System(AFTER, TORN, map[], map[], {"e"}, map[])
  const S7 := S6.(drains := Working(BEGUN))
  const S8 := S6.(drains := Working(Tried(BEGUN, true)))
  const S9 := System(CLOSED, CLOSED, map[], map[], {"e"}, map["e" := [TARGET]])

  lemma Commits()
    ensures Leads(START, Traffic(Join("r", true)), S1)
    ensures Leads(S1, CommitEntry("e", true, 0), S2)
    ensures Leads(S2, StartDrain(0, "e", [TARGET]), S3)
  {
    hide MessageId;
  }

  lemma Delivers()
    ensures Leads(S3, DeliverNext(0, 0), S4)
    ensures Leads(S4, Save(0), S5)
  {
    hide MessageId;
  }

  lemma Crashes()
    ensures Leads(S5, Crash, S6)
    ensures Leads(S6, StartDrain(0, "e", [TARGET]), S7)
  {
    hide MessageId;
    assert Missing(TORN.mailbox, ID);
    assert MissingIds(TORN.mailbox) == {ID};
  }

  lemma Acknowledges()
    ensures Leads(S7, DeliverNext(0, 0), S8)
    ensures Leads(S8, Ack(0, {}, true, 0), S9)
  {
    hide MessageId;
  }

  lemma {:induction false} UpToTheCrash() returns (states: seq<System>, events: seq<SystemEvent>)
    ensures IsSchedule(states, events) && |states| == 7 && states[6] == S6
  {
    Commits();
    Delivers();
    Crashes();
    states, events := [START], [];
    assert IsSchedule(states, events);
    hide IsSchedule, Leads, MessageId;
    states, events := ExtendSchedule(states, events, Traffic(Join("r", true)), S1);
    states, events := ExtendSchedule(states, events, CommitEntry("e", true, 0), S2);
    states, events := ExtendSchedule(states, events, StartDrain(0, "e", [TARGET]), S3);
    states, events := ExtendSchedule(states, events, DeliverNext(0, 0), S4);
    states, events := ExtendSchedule(states, events, Save(0), S5);
    states, events := ExtendSchedule(states, events, Crash, S6);
  }

  /**
   A save by anyone else between a delivery's record and its mailbox, then a
   crash: the delivery is a duplicate from then on, its entry is acknowledged on
   disk, and no mailbox ever got the message.
   */
  lemma {:induction false} AcknowledgedAndLost() returns (states: seq<System>, events: seq<SystemEvent>)
    ensures IsSchedule(states, events)
    ensures var s := states[|states| - 1];
            && s.disk.outbox == map["e" := Acknowledged] && s.acked == map["e" := [TARGET]]
            && s.mem.mailbox.agents == map["r" := Slot(true, None, [])]
            && !InMailbox(s.mem.mailbox, ID) && !InMailbox(s.disk.mailbox, ID)
  {
    Crashes();
    Acknowledges();
    states, events := UpToTheCrash();
    hide IsSchedule, Leads, MessageId;
    states, events := ExtendSchedule(states, events, StartDrain(0, "e", [TARGET]), S7);
    states, events := ExtendSchedule(states, events, DeliverNext(0, 0), S8);
    states, events := ExtendSchedule(states, events, Ack(0, {}, true, 0), S9);
  }

  // ---- The drain itself ----

  /** A delivery is new, and then one call carries it and nothing else, or known, and then nothing changes. */
  lemma DeliveryCall(m: State, entry: string, t: Target)
    requires m.errands == map[]
    ensures var u, id := Sent(m, 0, t.sender, t.recipient, DraftFor(entry, t), ""), MessageId(entry, t.recipient);
            if id in m.records then u == m
            else u.errands == map[0 := Errand(t.recipient, [id])] && CanInject(u, 0)
  {
    hide MessageId;
  }

  lemma ArrivesAlone(m: State)
    requires Inv(m) && CanInject(m, 0) && |m.errands[0].left| == 1 && m.errands.Keys == {0}
    ensures var u := InjectNext(m, 0);
            u.errands == map[] && u.records == m.records && Inv(u)
  {
    hide Placed, Counted;
    StepInv(m, InjectOne(0));
  }

  /** The session as the drain sees it: live state, and the last snapshot on disk. */
  class OutboxSession {
    var outbox: map<string, EntryState>
    var mailbox: State
    var disk: Memory

    ghost predicate Valid()
      reads this
    {
      && Inv(mailbox)
      && mailbox.errands == map[]
      && disk.mailbox.records.Keys <= mailbox.records.Keys
    }

    constructor ()
      ensures Valid() && outbox == map[] && mailbox == EMPTY
    {
      hide Inv;
      outbox, mailbox, disk := map[], EMPTY, Memory(map[], EMPTY);
      EmptyInv();
    }

    /** A delivery that nothing interrupts. */
    method SendDelivery(entry: string, t: Target, saveOk: bool) returns (ok: bool)
      requires Valid()
      modifies this
      ensures Valid() && outbox == old(outbox)
      ensures mailbox == Finish(Deliver(Memory(old(outbox), old(mailbox)), 0, entry, t).mailbox, 0)
      ensures old(mailbox.records.Keys) <= mailbox.records.Keys
      ensures MessageId(entry, t.recipient) in mailbox.records
      ensures ok <==> MessageId(entry, t.recipient) in old(mailbox.records) || saveOk
    {
      hide Inv, Finish, Sent, Step, Enabled, InjectNext, MessageId;
      ghost var m := mailbox;
      DeliverIsSend(Memory(outbox, m), 0, entry, t);
      RecordsOnlyGrow(m, SendEvent(0, entry, t));
      StepInv(m, SendEvent(0, entry, t));
      DeliveryCall(m, entry, t);
      var duplicate := MessageId(entry, t.recipient) in mailbox.records;
      mailbox := Sent(mailbox, 0, t.sender, t.recipient, DraftFor(entry, t), "");
      FinishStep(mailbox, 0);
      if !duplicate {
        ArrivesAlone(mailbox);
        mailbox := InjectNext(mailbox, 0);
        FinishStep(mailbox, 0);
        if saveOk {
          disk := Memory(outbox, mailbox);
        }
      }
      ok := duplicate || saveOk;
    }

    /**
     Deliver every pending entry and acknowledge the fully delivered ones in a
     separate save. `resolve` gives an entry's recipients and `saves` says which
     of the saves succeed.
     */
    method DrainPending(pending: seq<string>, resolve: string -> seq<Target>, saves: nat -> bool, dropped: set<string>)
      returns (acknowledged: set<string>)
      requires Valid()
      requires forall i :: 0 <= i < |pending| ==> pending[i] in outbox && outbox[pending[i]] == Pending
      modifies this
      ensures Valid()
      ensures acknowledged == {} ==> outbox == old(outbox)
      ensures forall e :: e in acknowledged ==> e in pending && AllRecorded(e, resolve(e), |resolve(e)|, disk.mailbox.records)
      ensures acknowledged != {} ==> outbox == disk.outbox == Acknowledge(old(outbox), acknowledged, dropped)
      ensures forall e :: e in old(outbox) && e !in acknowledged && old(outbox)[e] == Pending ==>
                e in outbox && outbox[e] == Pending
      ensures old(mailbox.records.Keys) <= mailbox.records.Keys
    {
      hide Inv, MessageId, Deliver, Finish;
      var saved := 0;
      var delivered := {};
      for i := 0 to |pending|
        invariant Valid() && outbox == old(outbox)
        invariant old(mailbox.records.Keys) <= mailbox.records.Keys
        invariant forall e :: e in delivered ==>
                    e in pending && AllRecorded(e, resolve(e), |resolve(e)|, mailbox.records)
      {
        var entry := pending[i];
        var deliveries := resolve(entry);
        var allDelivered := true;
        for j := 0 to |deliveries|
          invariant Valid() && outbox == old(outbox)
          invariant old(mailbox.records.Keys) <= mailbox.records.Keys
          invariant AllRecorded(entry, deliveries, j, mailbox.records)
          invariant forall e :: e in delivered ==>
                      e in pending && AllRecorded(e, resolve(e), |resolve(e)|, mailbox.records)
        {
          var ok := SendDelivery(entry, deliveries[j], saves(saved));
          saved := saved + 1;
          if !ok {
            allDelivered := false;
          }
        }
        if allDelivered {
          delivered := delivered + {entry};
        }
      }
      acknowledged := {};
      if delivered != {} && saves(saved) {
        outbox := Acknowledge(outbox, delivered, dropped);
        disk := Memory(outbox, mailbox);
        acknowledged := delivered;
      }
    }
  }
}
