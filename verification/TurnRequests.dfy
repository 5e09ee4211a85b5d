/**
 What the provider is asked over all runs of turns: when exactly the check of
 the history passes, and when exactly a request is one the provider accepts.
 */
module TurnRequests {
  import opened Prelude
  import opened Transcript
  import opened Timeline
  import opened CompactionSafety
  import opened ToolRepair
  import opened Orphans
  import opened TurnRollback
  import opened TurnSafety
  import Compaction
  import CompactionRuns
  import Provenance

  // ---- One request ----

  lemma FrontHasNoTools(prompt: Option<string>, summary: Option<Summary>)
    ensures var f := Front(prompt, summary);
            && (f != [] <==> prompt.Some? || summary.Some?)
            && forall i :: 0 <= i < |f| ==> f[i].role != Tool && CallIds(f[i].parts) == []
  {
    assert forall t: string :: CallIds([Other(t)]) == [] by {
      forall t: string
        ensures CallIds([Other(t)]) == []
      {
        assert CallIds([Other(t)][1..]) == [];
      }
    }
  }

  /**
   A request is accepted if and only if a system prompt or a summary stands in
   front, or the conversation does not begin with a tool message.
   */
  lemma {:induction false} RequestAcceptedExactly(l: Log, prompt: Option<string>, derived: seq<Message>)
    requires Near(l.history) && AllUsers(derived)
    ensures var c := Conversation(l.history);
            ValidContext(Request(l, prompt, derived)) <==>
              prompt.Some? || l.summary.Some? || c == [] || c[0].role != Tool
  {
    hide Near, Conversation, ValidContext, Front;
    FrontHasNoTools(prompt, l.summary);
    NearConversation(l.history);
    NearInside(Front(prompt, l.summary), Conversation(l.history), derived);
  }

  lemma {:induction false} AnsweredInside(front: seq<Message>, c: seq<Message>, users: seq<Message>)
    requires forall i :: 0 <= i < |front| ==> CallIds(front[i].parts) == []
    requires forall i :: 0 <= i < |users| ==> CallIds(users[i].parts) == [] && users[i].role != Tool
    ensures Answered(front + c + users) <==> Answered(c)
  {
    hide CallIds, ResultIds;
    var all, n := front + c + users, |front|;
    assert forall i :: 0 <= i < |c| ==> all[n + i] == c[i];
    assert forall i :: n + |c| <= i < |all| ==> all[i] == users[i - n - |c|];
    if Answered(c) {
      forall i | 0 <= i < |all| && CallIds(all[i].parts) != []
        ensures i + 1 < |all| && AnsweredBy(all[i], all[i + 1])
      {
        assert n <= i < n + |c| && all[i] == c[i - n];
        assert all[i + 1] == c[i - n + 1];
      }
    } else {
      var i :| 0 <= i < |c| && CallIds(c[i].parts) != [] && !(i + 1 < |c| && AnsweredBy(c[i], c[i + 1]));
      assert all[n + i] == c[i];
      assert n + i + 1 < |all| ==> !AnsweredBy(all[n + i], all[n + i + 1]);
    }
  }

  /** In a request every call has its result if and only if every call in the history has. */
  lemma {:induction false} RequestAnsweredExactly(l: Log, prompt: Option<string>, derived: seq<Message>)
    requires ProperMessages(l.history) && AllUsers(derived)
    ensures Answered(Request(l, prompt, derived)) <==> Answered(l.history)
  {
    var n := LeadingSystems(l.history);
    FrontHasNoTools(prompt, l.summary);
    UsersHaveNoCalls(derived);
    ProperSystems(l.history);
    assert l.history == l.history[..n] + Conversation(l.history) + [];
    hide Answered, Front, LeadingSystems, ProperRoles;
    AnsweredInside(Front(prompt, l.summary), Conversation(l.history), derived);
    AnsweredInside(l.history[..n], Conversation(l.history), []);
  }

  // ---- What runs keep ----

  /** Of a history: nothing; no leading system message; one; or that it is clear. */
  datatype Claim = Any | Flat | Led | Tidy

  predicate Holds(c: Claim, h: seq<Message>) {
    && Near(h)
    && match c
       case Any => true
       case Flat => LeadingSystems(h) == 0
       case Led => LeadingSystems(h) > 0
       case Tidy => Clear(h)
  }

  lemma LedBy(h: seq<Message>)
    ensures LeadingSystems(h) > 0 <==> h != [] && h[0].role == System
  {
  }

  lemma {:induction false} HoldsAppend(c: Claim, h: seq<Message>, more: seq<Message>)
    requires Holds(c, h) && ProperMessages(more)
    requires forall i :: 0 <= i < |more| ==> more[i].role != Tool && more[i].role != System
    ensures Holds(c, h + more)
  {
    hide Near, ClearFrom, LeadingSystems;
    NearAppend(h, more);
    LedBy(h);
    LedBy(h + more);
    if c == Tidy {
      ClearAppend(h, more);
    }
  }

  lemma {:induction false} HoldsTools(c: Claim, h: seq<Message>, results: seq<Part>)
    requires Holds(c, h) && EndsInReply(h) && ResultsFor(h[|h| - 1], results)
    ensures Holds(c, h + [Message(Tool, results)])
  {
    hide Near, ClearFrom, LeadingSystems;
    var m := Message(Tool, results);
    NearTools(h, m);
    LedBy(h);
    LedBy(h + [m]);
    if c == Tidy {
      ClearTools(h, m);
    }
  }

  lemma {:induction false} HoldsRepair(c: Claim, h: seq<Message>)
    requires Holds(c, h)
    ensures Holds(c, Repair(h))
  {
    NearRepair(h);
    NearProper(h);
    hide Near, ClearFrom, LeadingSystems, Repair;
    RepairLonger(h);
    LedBy(h);
    LedBy(Repair(h));
    RepairClear(Spent, h);
    if h == [] {
      RepairNone();
    }
  }

  lemma NearProper(h: seq<Message>)
    requires Near(h)
    ensures ProperMessages(h)
  {
  }

  lemma {:induction false} HoldsCut(c: Claim, h: seq<Message>, start: nat)
    requires Holds(c, h) && LeadingSystems(h) < start && SegmentEnd(h, start)
    ensures Holds(c, h[..LeadingSystems(h)] + Conversation(h[start..]))
  {
    hide Near, ClearFrom, LeadingSystems, Conversation;
    NearCut(h, start);
    CutOf(h, start);
    var kept := h[..LeadingSystems(h)] + Conversation(h[start..]);
    LedBy(h);
    LedBy(kept);
    if c == Tidy {
      ClearCut(h, start);
    }
  }

  lemma {:induction false} HoldsRewound(c: Claim, h: seq<Message>, turns: nat)
    requires Holds(c, h)
    ensures Holds(c, Rewound(h, turns))
  {
    RewoundKeepsSystems(h, turns);
    var n := RewoundIsPrefix(h, turns);
    hide Near, ClearFrom, LeadingSystems, Rewound;
    NearPrefix(h, n);
    LedBy(h);
    LedBy(h[..n]);
    if c == Tidy {
      ClearPrefix(h, n);
    }
  }

  lemma RewoundKeepsSystems(h: seq<Message>, turns: nat)
    ensures LeadingSystems(h) <= |Rewound(h, turns)|
  {
  }

  lemma {:induction false} HoldsStripped(c: Claim, h: seq<Message>)
    requires Holds(c, h) && c != Led
    ensures Holds(c, Conversation(h))
  {
    hide Near, ClearFrom, LeadingSystems;
    NearConversation(h);
    LedBy(Conversation(h));
    ClearConversation(h);
  }

  predicate EndsInReply(h: seq<Message>) {
    h != [] && h[|h| - 1].role == Assistant
  }

  ghost predicate WorldHolds(c: Claim, s: World) {
    && Holds(c, s.agent.log.history)
    && Holds(c, s.disk.history)
    && (s.agent.turn.Running? && s.agent.turn.rollback.Some? ==> Holds(c, s.agent.turn.rollback.value.history))
    && (InPhase(s.agent, Replied) ==> EndsInReply(s.agent.log.history))
  }

  lemma {:induction false} HoldsCompacted(c: Claim, s: State, start: nat, text: string)
    requires Holds(c, s.log.history) && Compactable(s.log.history, start)
    ensures Holds(c, Compacted(s, start, text).log.history)
  {
    hide Holds, LeadingSystems, Conversation, ValidContext;
    CutOf(s.log.history, start);
    HoldsCut(c, s.log.history, start);
  }

  /** Leading system messages are kept as long as no persona is saved; all else is kept by every step. */
  lemma {:induction false} StepHolds(c: Claim, s: World, e: Event)
    requires WorldHolds(c, s) && Enabled(s, e) && AllUsers(s.agent.log.mailbox)
    requires c == Led && e.Save? ==> !e.persona
    ensures WorldHolds(c, Step(s, e))
  {
    hide Holds, Repair, LeadingSystems, ResultsFor, Compactable, ValidContext, KeptFrom, Rewound;
    var h := s.agent.log.history;
    match e
    case HealTurn => HoldsRepair(c, h);
    case Drain => HoldsAppend(c, h, s.agent.log.mailbox);
    case Stop(_) => HoldsAppend(c, h, s.agent.log.mailbox);
    case Compact(start, text) => HoldsCompacted(c, s.agent, start, text);
    case ReplyWith(m) => HoldsAppend(c, h, [m]);
    case Tools(results) => HoldsTools(c, h, results);
    case Rewind(turns) => HoldsRewound(c, h, turns);
    case Save(persona) => if persona { HoldsStripped(c, h); }
    case Crash => HoldsRepair(c, s.disk.history);
    case _ =>
  }

  /** Every save is made with a persona set, or none is. */
  predicate SavedWith(events: seq<Event>, persona: bool) {
    forall i :: 0 <= i < |events| && events[i].Save? ==> events[i].persona == persona
  }

  lemma {:induction false} RunHolds(c: Claim, states: seq<World>, events: seq<Event>, k: nat)
    requires IsRun(states, events) && k < |states| && Holds(c, states[0].agent.log.history)
    requires c == Led ==> SavedWith(events, false)
    ensures WorldHolds(c, states[k])
  {
    if k > 0 {
      RunHolds(c, states, events, k - 1);
      RunConserves(states, events, k - 1);
      hide WorldHolds, Step, Enabled, Holds;
      StepHolds(c, states[k - 1], events[k - 1]);
    }
  }

  // ---- The check of the history ----

  predicate Starts(s: World, h: seq<Message>, summary: Option<Summary>) {
    s.agent.log.history == h && s.agent.log.summary == summary
  }

  ghost predicate ChecksPass(states: seq<World>, events: seq<Event>)
    requires |states| == |events| + 1
  {
    forall k {:trigger events[k]} :: 0 <= k < |events| && events[k].Check? ==> ValidContext(states[k].agent.log.history)
  }

  lemma {:induction false} HoldsValid(c: Claim, h: seq<Message>)
    requires Holds(c, h) && (c == Led || c == Tidy)
    ensures ValidContext(h)
  {
    hide Near, ValidContext, ClearFrom;
    NearIsValidExactly(h);
    LedBy(h);
    if c == Tidy {
      ClearBegins(h);
    }
  }

  lemma {:induction false} RunChecksPass(c: Claim, states: seq<World>, events: seq<Event>)
    requires IsRun(states, events) && Holds(c, states[0].agent.log.history)
    requires c == Tidy || (c == Led && SavedWith(events, false))
    ensures ChecksPass(states, events)
  {
    forall k | 0 <= k < |events|
      ensures ValidContext(states[k].agent.log.history)
    {
      hide Step, Enabled, Holds, ValidContext;
      RunHolds(c, states, events, k);
      HoldsValid(c, states[k].agent.log.history);
    }
  }

  // ---- The request ----

  /** What makes a request acceptable whatever its prompt. */
  predicate Fronted(l: Log) {
    l.summary.Some? || Conversation(l.history) == [] || Conversation(l.history)[0].role != Tool
  }

  lemma {:induction false} CheckedIsFronted(c: Claim, l: Log)
    requires Holds(c, l.history) && (c == Flat || c == Tidy) && ValidContext(l.history)
    ensures Fronted(l)
  {
    hide Near, ValidContext, ClearFrom;
    NearIsValidExactly(l.history);
    if c == Tidy {
      ClearBegins(l.history);
    } else {
      assert Conversation(l.history) == l.history;
    }
  }

  /** From its check on a history stays fronted until its request is sent. */
  lemma {:induction false} StepFronted(c: Claim, s: World, e: Event)
    requires WorldHolds(c, s) && Enabled(s, e) && (c == Flat || c == Tidy)
    requires InPhase(s.agent, Ready) ==> Fronted(s.agent.log)
    ensures InPhase(Step(s, e).agent, Ready) ==> Fronted(Step(s, e).agent.log)
  {
    hide Holds, Repair, Conversation, Compactable, ValidContext, KeptFrom, Rewound;
    match e
    case Check => if ValidContext(s.agent.log.history) { CheckedIsFronted(c, s.agent.log); }
    case _ =>
  }

  lemma {:induction false} RunFronted(c: Claim, states: seq<World>, events: seq<Event>, k: nat)
    requires IsRun(states, events) && k < |states| && Holds(c, states[0].agent.log.history)
    requires c == Flat || c == Tidy
    ensures InPhase(states[k].agent, Ready) ==> Fronted(states[k].agent.log)
  {
    if k > 0 {
      RunFronted(c, states, events, k - 1);
      RunHolds(c, states, events, k - 1);
      hide WorldHolds, Step, Enabled, Holds, Fronted;
      StepFronted(c, states[k - 1], events[k - 1]);
    }
  }

  ghost predicate RequestsAccepted(states: seq<World>, prompt: Option<string>) {
    forall k, derived {:trigger Request(states[k].agent.log, prompt, derived)} ::
      0 <= k < |states| && InPhase(states[k].agent, Ready) && AllUsers(derived) ==>
        ValidContext(Request(states[k].agent.log, prompt, derived))
  }

  lemma {:induction false} RunRequestsAccepted(c: Claim, states: seq<World>, events: seq<Event>, prompt: Option<string>)
    requires IsRun(states, events) && Holds(c, states[0].agent.log.history) && c != Led
    requires c == Any ==> prompt.Some?
    ensures RequestsAccepted(states, prompt)
  {
    forall k, derived | 0 <= k < |states| && InPhase(states[k].agent, Ready) && AllUsers(derived)
      ensures ValidContext(Request(states[k].agent.log, prompt, derived))
    {
      RunHolds(c, states, events, k);
      if c != Any {
        RunFronted(c, states, events, k);
      }
      hide Near, Step, Enabled, IsRun, ValidContext;
      RequestAcceptedExactly(states[k].agent.log, prompt, derived);
    }
  }

  // ---- Runs that orphan a tool message ----

  const U := Message(User, [Other("go")])
  const REPLY := Message(Assistant, [Other("done")])

  predicate BeginsWithTool(h: seq<Message>) {
    Conversation(h) != [] && Conversation(h)[0].role == Tool
  }

  lemma {:induction false} NearBeginsValid(h: seq<Message>)
    requires Near(h) && !BeginsWithTool(h)
    ensures ValidContext(h) && ValidContext(Conversation(h))
  {
    hide Near, ValidContext;
    NearIsValidExactly(h);
    NearConversation(h);
    NearIsValidExactly(Conversation(h));
    LedBy(h);
  }

  lemma SliceOfSuffix(h: seq<Message>, l: nat, start: nat)
    requires l <= start <= |h|
    ensures h[l..][..start - l] == h[l..start]
  {
  }

  lemma {:induction false} CompactableExactly(h: seq<Message>, start: nat)
    requires Near(h) && LeadingSystems(h) < start && SegmentEnd(h, start)
    ensures Compactable(h, start) <==> !BeginsWithTool(h)
  {
    hide Near, ValidContext, LeadingSystems;
    var l := LeadingSystems(h);
    SliceOfSuffix(h, l, start);
    if BeginsWithTool(h) {
      assert h[l..start][0].role == Tool;
      FirstToolInvalid(h[l..start]);
    } else {
      NearBeginsValid(h);
      ValidPrefix(Conversation(h), start - l);
    }
  }

  lemma FirstToolInvalid(h: seq<Message>)
    requires h != [] && h[0].role == Tool
    ensures !ValidContext(h)
  {
    assert !ValidAt(h, 0);
  }

  lemma {:induction false} ProperSystems(h: seq<Message>)
    requires ProperMessages(h)
    ensures CompactionRuns.PlainSystems(h)
  {
    hide CallIds, ProperRoles;
    forall i | 0 <= i < LeadingSystems(h)
      ensures CallIds(h[i].parts) == []
    {
      ProperById(h[i]);
    }
  }

  lemma BeginsBehind(g: seq<Message>, l: nat)
    requires l < |g| && g[l].role != System && forall i :: 0 <= i < l ==> g[i].role == System
    ensures LeadingSystems(g) == l && Conversation(g) == g[l..]
    ensures BeginsWithTool(g) <==> g[l].role == Tool
  {
    LeadingSystemsUnique(g, l);
  }

  /** A history healed, and an input behind it: leading system messages and first message stay. */
  lemma {:induction false} HealedAndAsked(h: seq<Message>)
    requires Near(h)
    ensures var g := Repair(h) + [U];
            && Near(g) && Near(Repair(h)) && Answered(Repair(h))
            && LeadingSystems(g) == LeadingSystems(h) == LeadingSystems(Repair(h))
            && (BeginsWithTool(g) <==> BeginsWithTool(h))
            && (BeginsWithTool(Repair(h)) <==> BeginsWithTool(h))
            && (Clear(Repair(h)) <==> Clear(h))
  {
    NearProper(h);
    ProperSystems(h);
    NearRepair(h);
    RepairClear(Spent, h);
    hide Near, Repair, ClearFrom, Answered, CompactionRuns.PlainSystems;
    CompactionRuns.RepairConversation(h);
    RepairLonger(Conversation(h));
    RepairNothingLeft(h);
    NearAppend(Repair(h), [U]);
    var l, t := LeadingSystems(h), Repair(h);
    var g := t + [U];
    assert forall i :: 0 <= i < l ==> t[i] == t[..l][i];
    assert g[l] == if l < |t| then t[l] else U;
    BeginsBehind(g, l);
  }

  lemma RepairNothingLeft(h: seq<Message>)
    ensures Conversation(h) == [] ==> Repair(Conversation(h)) == []
  {
  }

  /** A turn in front of its request, with nothing to go back to; the conversation begins with a tool message. */
  ghost predicate AtOrphan(s: World, l: nat) {
    && s.agent.turn == Running(Ready, None, None) && s.agent.log.mailbox == []
    && Near(s.agent.log.history) && BeginsWithTool(s.agent.log.history)
    && LeadingSystems(s.agent.log.history) == l
    && s.agent.log.history[|s.agent.log.history| - 1] == U
  }

  function FreshWorld(h: seq<Message>, summary: Option<Summary>): World {
    World(State(Log(h, [], [], summary), Idle), Log(h, [], [], summary))
  }

  lemma CompactsInTurn(s: World, g: seq<Message>, start: nat)
    requires Compactable(g, start)
    ensures var t := InTurn(s, g, [], Ready, None);
            var u := t.(agent := Compacted(t.agent, start, "s"));
            && StepsTo(t, Compact(start, "s"), u)
            && u.agent.turn == Running(Ready, None, None) && u.agent.log.mailbox == []
            && u.agent.log.history == g[..LeadingSystems(g)] + Conversation(g[start..])
  {
    hide ValidContext, LeadingSystems, Conversation;
    CutOf(g, start);
  }

  lemma {:induction false} OrphanedCut(h: seq<Message>, start: nat)
    requires Near(h) && LeadingSystems(h) < start <= |h| && SegmentEnd(h + [U], start)
    requires LeadingSystems(h + [U]) == LeadingSystems(h) && Near(h + [U])
    requires Conversation((h + [U])[start..]) == Conversation(h[start..]) + [U]
    requires Conversation(h[start..]) != [] && Conversation(h[start..])[0].role == Tool
    ensures var g := (h + [U])[..LeadingSystems(h)] + Conversation((h + [U])[start..]);
            Near(g) && BeginsWithTool(g) && LeadingSystems(g) == LeadingSystems(h) && g[|g| - 1] == U
  {
    hide Near, SegmentEnd, Conversation, LeadingSystems;
    var l := LeadingSystems(h);
    NearCut(h + [U], start);
    var g := (h + [U])[..l] + Conversation((h + [U])[start..]);
    assert g[l] == Conversation(h[start..])[0];
    BeginsBehind(g, l);
  }

  /** A healed valid history passes its check. */
  lemma {:induction false} AskedIsValid(h: seq<Message>)
    requires Sound(h)
    ensures ValidContext(Repair(h) + [U])
  {
    ValidIsNear(h);
    HealedAndAsked(h);
    hide Near, Repair, ClearFrom, Answered, ValidContext;
    NearIsValidExactly(h);
    var g := Repair(h) + [U];
    if BeginsWithTool(h) {
      LedBy(h);
      LedBy(g);
      NearIsValidExactly(g);
    } else {
      NearBeginsValid(g);
    }
  }

  /** A turn from an idle state, up to its first request. */
  lemma {:induction false} TurnUpToRequest(states: seq<World>, events: seq<Event>)
    returns (more: seq<World>, done: seq<Event>)
    requires IsRun(states, events)
    requires var s := states[|states| - 1].agent; s.turn.Idle? && s.log.mailbox == [] && Sound(s.log.history)
    ensures var s := states[|states| - 1];
            IsRun(more, done) && states <= more && more[|more| - 1] == InTurn(s, Repair(s.agent.log.history) + [U], [], Ready, None)
    ensures events <= done && forall i :: |events| <= i < |done| ==> !done[i].Save?
  {
    var s := states[|states| - 1];
    var g := Repair(s.agent.log.history) + [U];
    AskedIsValid(s.agent.log.history);
    CheckPasses(s, g);
    hide IsRun, StepsTo, Repair, Sound, ValidContext;
    more, done := TurnUpToCheck(states, events, U);
    more, done := Extend(more, done, Check, InTurn(s, g, [], Ready, None));
  }

  lemma {:induction false} FreshRun(h: seq<Message>, summary: Option<Summary>)
    requires Sound(h)
    ensures IsRun([FreshWorld(h, summary)], [])
  {
  }

  lemma {:induction false} OrphanStep(s: World, h: seq<Message>) returns (e: Event, u: World)
    requires Near(h) && !Clear(h) && !BeginsWithTool(h)
    ensures e.Compact? && StepsTo(InTurn(s, Repair(h) + [U], [], Ready, None), e, u)
    ensures AtOrphan(u, LeadingSystems(h))
  {
    var t := Repair(h);
    HealedAndAsked(h);
    hide StepsTo, Repair, Near, ClearFrom, Answered, ValidContext, SegmentEnd;
    var start := CutThatOrphans(t, [U]);
    CompactableExactly(t + [U], start);
    CompactsInTurn(s, t + [U], start);
    OrphanedCut(t, start);
    var last := InTurn(s, t + [U], [], Ready, None);
    e, u := Compact(start, "s"), last.(agent := Compacted(last.agent, start, "s"));
  }

  /** From a valid history that is not clear, a turn reaches its request with a tool message first. */
  lemma {:induction false} OrphanRun(h: seq<Message>, summary: Option<Summary>) returns (states: seq<World>, events: seq<Event>)
    requires Sound(h) && !Clear(h)
    ensures IsRun(states, events) && states != [] && Starts(states[0], h, summary)
    ensures forall i :: 0 <= i < |events| ==> !events[i].Save?
    ensures AtOrphan(states[|states| - 1], LeadingSystems(h))
  {
    var s := FreshWorld(h, summary);
    FreshRun(h, summary);
    ValidIsNear(h);
    HealedAndAsked(h);
    hide IsRun, StepsTo, Repair, Near, ClearFrom, Answered, Sound, LeadingSystems, Conversation;
    states, events := TurnUpToRequest([s], []);
    assert states[0] == s;
    if !BeginsWithTool(h) {
      var e, u := OrphanStep(s, h);
      states, events := Extend(states, events, e, u);
    }
  }

  // ---- The next check refuses ----

  lemma NextGeneration(s: World)
    requires s.agent.turn == Running(Ready, None, None) && s.agent.log.mailbox == []
    ensures var h := s.agent.log.history;
            && StepsTo(s, ReplyWith(REPLY), InTurn(s, h + [REPLY], [], Replied, None))
            && StepsTo(InTurn(s, h + [REPLY], [], Replied, None), Submit(U), InTurn(s, h + [REPLY], [U], Replied, None))
            && StepsTo(InTurn(s, h + [REPLY], [U], Replied, None), Stop(false), InTurn(s, h + [REPLY] + [U], [], LoopTop, None))
            && StepsTo(InTurn(s, h + [REPLY] + [U], [], LoopTop, None), Drain, InTurn(s, h + [REPLY] + [U], [], Drawn, None))
  {
    var h := s.agent.log.history + [REPLY] + [U];
    assert h + [] == h;
  }

  lemma RefusingCheck(s: World, h: seq<Message>)
    requires !ValidContext(h)
    ensures StepsTo(InTurn(s, h, [], Drawn, None), Check, InTurn(s, h, [], Drawn, None).(agent := State(s.agent.log.(history := h, mailbox := []), Idle)))
  {
    hide ValidContext;
  }

  /** The check refuses the history of the last state. */
  lemma {:induction false} Refused(states: seq<World>, events: seq<Event>, s: World, h: seq<Message>)
    returns (more: seq<World>, done: seq<Event>)
    requires IsRun(states, events) && states[|states| - 1] == InTurn(s, h, [], Drawn, None) && !ValidContext(h)
    ensures IsRun(more, done) && more[0] == states[0] && !ChecksPass(more, done)
    ensures |done| > 0 && done[..|done| - 1] == events && done[|done| - 1] == Check
  {
    RefusingCheck(s, h);
    var t := InTurn(s, h, [], Drawn, None).(agent := State(s.agent.log.(history := h, mailbox := []), Idle));
    hide IsRun, StepsTo, ValidContext;
    more, done := Extend(states, events, Check, t);
    assert done[|events|].Check? && more[|events|] == states[|events|];
  }

  lemma {:induction false} SameConversation(h: seq<Message>)
    requires LeadingSystems(h) == 0
    ensures Conversation(h) == h
  {
  }

  /**
   With no leading system message, the request goes out behind its summary and is
   accepted; its reply and the input that waits lead to the next check, which
   refuses.
   */
  lemma {:induction false} RunThatIsRefused(h: seq<Message>, summary: Option<Summary>) returns (states: seq<World>, events: seq<Event>)
    requires Sound(h) && !Clear(h) && LeadingSystems(h) == 0
    ensures IsRun(states, events) && Starts(states[0], h, summary) && !ChecksPass(states, events)
    ensures forall i :: 0 <= i < |events| ==> !events[i].Save?
  {
    hide Sound, ClearFrom, LeadingSystems, IsRun, StepsTo, ValidContext, Near;
    states, events := OrphanRun(h, summary);
    var s := states[|states| - 1];
    var g := s.agent.log.history;
    SameConversation(g);
    NextGeneration(s);
    FirstToolInvalid(g + [REPLY] + [U]);
    states, events := Extend(states, events, ReplyWith(REPLY), InTurn(s, g + [REPLY], [], Replied, None));
    states, events := Extend(states, events, Submit(U), InTurn(s, g + [REPLY], [U], Replied, None));
    states, events := Extend(states, events, Stop(false), InTurn(s, g + [REPLY] + [U], [], LoopTop, None));
    states, events := Extend(states, events, Drain, InTurn(s, g + [REPLY] + [U], [], Drawn, None));
    var before := events;
    states, events := Refused(states, events, s, g + [REPLY] + [U]);
    assert forall i :: 0 <= i < |before| ==> events[i] == events[..|before|][i];
  }

  /** A session saved with a persona, and restored. */
  lemma SavedAndRestored(s: World)
    ensures var saved := s.(disk := Persisted(s.agent.log, true));
            && StepsTo(s, Save(true), saved)
            && StepsTo(saved, Crash, saved.(agent := Restored(saved.disk)))
            && Restored(saved.disk).turn.Idle?
            && Restored(saved.disk).log.mailbox == s.agent.log.mailbox
            && Restored(saved.disk).log.history == Repair(Conversation(s.agent.log.history))
  {
    hide Repair;
  }

  /** With a persona, a restored session has no leading system message to stand before the tool message. */
  lemma {:induction false} RestoredRunIsRefused(h: seq<Message>, summary: Option<Summary>) returns (states: seq<World>, events: seq<Event>)
    requires Sound(h) && !Clear(h)
    ensures IsRun(states, events) && Starts(states[0], h, summary) && !ChecksPass(states, events)
    ensures SavedWith(events, true)
  {
    hide Sound, ClearFrom, IsRun, StepsTo, ValidContext, Near, LeadingSystems, Conversation, Repair;
    states, events := OrphanRun(h, summary);
    var s := states[|states| - 1];
    var first := states[0];
    var c := Conversation(s.agent.log.history);
    SavedAndRestored(s);
    var saved := s.(disk := Persisted(s.agent.log, true));
    var back := saved.(agent := Restored(saved.disk));
    states, events := Extend(states, events, Save(true), saved);
    states, events := Extend(states, events, Crash, back);
    RepairLonger(c);
    RepairLonger(Repair(c));
    var g := Repair(Repair(c)) + [U];
    FirstToolInvalid(g);
    var before := events;
    states, events := TurnUpToCheck(states, events, U);
    var after := events;
    states, events := Refused(states, events, back, g);
    assert forall i :: 0 <= i < |after| ==> events[i] == events[..|after|][i];
    assert forall i :: 0 <= i < |before| ==> after[i] == before[i];
  }

  ghost predicate AlwaysPasses(h: seq<Message>, summary: Option<Summary>, persona: bool) {
    forall states: seq<World>, events: seq<Event> |
      IsRun(states, events) && Starts(states[0], h, summary) && SavedWith(events, persona) :: ChecksPass(states, events)
  }

  /**
   The check in front of every request of every run from the valid history `h`
   passes, whatever is compacted at whatever segment end and whatever fails, if
   and only if `h` is clear, or has a leading system message and no persona is
   set when it is saved.
   */
  lemma {:induction false} ChecksPassExactly(h: seq<Message>, summary: Option<Summary>, persona: bool)
    requires Sound(h)
    ensures AlwaysPasses(h, summary, persona) <==> Clear(h) || (LeadingSystems(h) > 0 && !persona)
  {
    hide Sound, ClearFrom, LeadingSystems, Near, ChecksPass, Step, Enabled;
    ValidIsNearHere(h);
    if Clear(h) || (LeadingSystems(h) > 0 && !persona) {
      var c := if Clear(h) then Tidy else Led;
      forall states: seq<World>, events: seq<Event> |
        IsRun(states, events) && Starts(states[0], h, summary) && SavedWith(events, persona)
        ensures ChecksPass(states, events)
      {
        RunChecksPass(c, states, events);
      }
    } else if persona {
      var states, events := RestoredRunIsRefused(h, summary);
      assert SavedWith(events, persona);
    } else {
      var states, events := RunThatIsRefused(h, summary);
      assert SavedWith(events, persona);
    }
  }

  lemma ValidIsNearHere(h: seq<Message>)
    requires Sound(h)
    ensures Near(h)
  {
    ValidIsNear(h);
  }

  // ---- A request that is not accepted ----

  lemma LastUserCut(h: seq<Message>)
    requires h != [] && h[|h| - 1].role == User
    ensures Rewound(h, 1) == h[..|h| - 1]
  {
  }

  /** The turn fails, and its input is rewound. */
  lemma FailsAndRewinds(s: World, l: nat)
    requires AtOrphan(s, l)
    ensures var h := s.agent.log.history;
            var failed := s.(agent := s.agent.(turn := Idle));
            var back := failed.(agent := WoundBack(failed.agent, 1));
            && StepsTo(s, Fail, failed) && StepsTo(failed, Rewind(1), back)
            && back.agent.turn.Idle? && back.agent.log.mailbox == [] && back.agent.log.summary.None?
            && back.agent.log.history == h[..|h| - 1]
  {
    hide Near, LeadingSystems;
    LastUserCut(s.agent.log.history);
  }

  lemma {:induction false} WithoutLast(h: seq<Message>)
    requires Near(h) && BeginsWithTool(h) && h[|h| - 1] == U
    ensures var t := h[..|h| - 1]; Near(t) && BeginsWithTool(t) && LeadingSystems(t) == LeadingSystems(h)
  {
    hide Near, LeadingSystems;
    var n, l := |h| - 1, LeadingSystems(h);
    NearPrefix(h, n);
    assert h[l] == Conversation(h)[0] && h[n] == Conversation(h)[n - l];
    assert l < n;
    BeginsBehind(h[..n], l);
  }

  /**
   With a leading system message, and no system prompt: when the summary is
   rewound, the history passes its check behind the leading system message that
   its request then leaves out.
   */
  lemma {:induction false} RunThatSendsOrphan(h: seq<Message>, summary: Option<Summary>) returns (states: seq<World>, events: seq<Event>)
    requires Sound(h) && !Clear(h) && LeadingSystems(h) > 0
    ensures IsRun(states, events) && Starts(states[0], h, summary) && !RequestsAccepted(states, None)
  {
    hide Sound, ClearFrom, IsRun, StepsTo, ValidContext, Near, LeadingSystems, Repair, BeginsWithTool, Answered;
    states, events := OrphanRun(h, summary);
    var s := states[|states| - 1];
    FailsAndRewinds(s, LeadingSystems(h));
    WithoutLast(s.agent.log.history);
    var failed := s.(agent := s.agent.(turn := Idle));
    var back := failed.(agent := WoundBack(failed.agent, 1));
    states, events := Extend(states, events, Fail, failed);
    states, events := Extend(states, events, Rewind(1), back);
    var t := back.agent.log.history;
    LedIsSound(t);
    states, events := TurnUpToRequest(states, events);
    HealedAndAsked(t);
    var g := Repair(t) + [U];
    NotAccepted(states, g);
  }

  lemma LedIsSound(h: seq<Message>)
    requires Near(h) && LeadingSystems(h) > 0
    ensures Sound(h)
  {
    hide Near, ValidContext;
    NearProper(h);
    NearIsValidExactly(h);
  }

  lemma {:induction false} NotAccepted(states: seq<World>, g: seq<Message>)
    requires states != [] && var s := states[|states| - 1].agent;
             InPhase(s, Ready) && s.log.history == g && s.log.summary.None?
    requires Near(g) && BeginsWithTool(g)
    ensures !RequestsAccepted(states, None)
  {
    hide Near, ValidContext, Request;
    var k := |states| - 1;
    RequestAcceptedExactly(states[k].agent.log, None, []);
    assert AllUsers([]);
    assert !ValidContext(Request(states[k].agent.log, None, []));
  }

  ghost predicate AlwaysAccepted(h: seq<Message>, summary: Option<Summary>, prompt: Option<string>) {
    forall states: seq<World>, events: seq<Event> |
      IsRun(states, events) && Starts(states[0], h, summary) :: RequestsAccepted(states, prompt)
  }

  /**
   Every request of every run from the valid history `h`, whatever derived
   context stands at its end, is one the provider accepts if and only if there is
   a system prompt, or `h` has no leading system message, or `h` is clear.
   */
  lemma {:induction false} RequestsAcceptedExactly(h: seq<Message>, summary: Option<Summary>, prompt: Option<string>)
    requires Sound(h)
    ensures AlwaysAccepted(h, summary, prompt) <==> prompt.Some? || LeadingSystems(h) == 0 || Clear(h)
  {
    hide Sound, ClearFrom, LeadingSystems, Near, RequestsAccepted, Step, Enabled;
    ValidIsNearHere(h);
    if prompt.Some? || LeadingSystems(h) == 0 || Clear(h) {
      var c := if prompt.Some? then Any else if LeadingSystems(h) == 0 then Flat else Tidy;
      forall states: seq<World>, events: seq<Event> | IsRun(states, events) && Starts(states[0], h, summary)
        ensures RequestsAccepted(states, prompt)
      {
        RunRequestsAccepted(c, states, events, prompt);
      }
    } else {
      var states, events := RunThatSendsOrphan(h, summary);
    }
  }

  // ---- Once orphaned ----

  predicate Orphaned(h: seq<Message>) {
    h != [] && h[0].role == Tool
  }

  /** The tool message stands first, and a failure of the turn would not take that back. */
  predicate Stuck(s: State) {
    && Orphaned(s.log.history)
    && (s.turn.Running? && s.turn.rollback.Some? ==> Orphaned(s.turn.rollback.value.history))
  }

  /** A restored snapshot, or a rewind past all input. */
  predicate Mends(s: State, e: Event) {
    e.Crash? || (e.Rewind? && e.turns > Count(s.log.history, User))
  }

  lemma {:induction false} UsersFromEnd(h: seq<Message>, k: nat)
    requires k > 0
    ensures NthUserFromEnd(h, k).None? <==> k > Count(h, User)
    decreases |h|
  {
    if h == [] {
      assert Of(h, User) == [];
    } else {
      var n := |h| - 1;
      OfPrefix(h, n, User);
      assert h[n..] == [h[n]];
      assert Of([h[n]], User) == if h[n].role == User then [h[n]] else [] by {
        assert [h[n]][1..] == [];
      }
      if h[n].role == User && k > 1 {
        UsersFromEnd(h[..n], k - 1);
      } else if h[n].role != User {
        UsersFromEnd(h[..n], k);
      }
    }
  }

  /** Only a rewind past all input mends an orphaned history, and then nothing of it is left. */
  lemma {:induction false} RewindMendsExactly(h: seq<Message>, turns: nat)
    requires Orphaned(h)
    ensures ValidContext(Rewound(h, turns)) <==> turns > Count(h, User)
    ensures if turns > Count(h, User) then Rewound(h, turns) == [] else Orphaned(Rewound(h, turns))
  {
    hide Of, ValidContext;
    if turns > 0 {
      UsersFromEnd(h, turns);
    }
    var r := Rewound(h, turns);
    if turns > Count(h, User) {
      assert LeadingSystems(h) == 0;
      assert r == [];
      EmptyIsValid();
    } else {
      FirstToolInvalid(r);
    }
  }

  lemma EmptyIsValid()
    ensures ValidContext([])
  {
  }

  lemma NotCompactable(h: seq<Message>, start: nat)
    requires Orphaned(h)
    ensures !Compactable(h, start)
  {
    if LeadingSystems(h) < start <= |h| {
      assert LeadingSystems(h) == 0;
      assert h[0..start][0] == h[0];
      FirstToolInvalid(h[0..start]);
    }
  }

  /** From a stuck state no step but a rewind past all input or a restored snapshot leads out; checks refuse and nothing is compacted. */
  lemma {:induction false} StepStuck(s: World, e: Event)
    requires Stuck(s.agent) && Enabled(s, e) && !Mends(s.agent, e)
    ensures Stuck(Step(s, e).agent)
    ensures e.Check? ==> Step(s, e).agent.turn.Idle?
    ensures !e.Compact?
  {
    hide Repair, ValidContext, ResultsFor, Rewound, Of, Compactable;
    var h := s.agent.log.history;
    FirstToolInvalid(h);
    match e
    case HealTurn => RepairLonger(h);
    case Compact(start, _) => NotCompactable(h, start);
    case Rewind(turns) => RewindMendsExactly(h, turns);
    case _ =>
  }

  /**
   Once a tool message stands first in the history, every later generation is
   refused before it could compact, and no compaction comes between turns, until
   a rewind past all input or a restored snapshot.
   */
  lemma {:induction false} StuckForGood(states: seq<World>, events: seq<Event>, i: nat, j: nat)
    requires IsRun(states, events) && i <= j < |states| && Stuck(states[i].agent)
    requires forall t :: i <= t < j ==> !Mends(states[t].agent, events[t])
    ensures Stuck(states[j].agent)
    ensures forall t :: i <= t < j ==> !events[t].Compact? && (events[t].Check? ==> states[t + 1].agent.turn.Idle?)
  {
    hide Step, Enabled, Stuck, Mends;
    if i < j {
      StuckForGood(states, events, i, j - 1);
      StepStuck(states[j - 1], events[j - 1]);
    }
  }

  /** No plan can be made on such a history, and no older plan still opens it. */
  lemma {:induction false} OrphanedHasNoPlan(h: seq<Message>, h0: seq<Message>)
    requires Orphaned(h)
    ensures !Plannable(h)
    ensures Plannable(h0) ==> !CompactionRuns.Opens(h0, h)
  {
    hide Plannable, TimelineOf, CompactionRuns.Opens, ValidContext, SourceOf;
    assert Conversation(h) == h;
    if Plannable(h) {
      CompactionRuns.OpensItself(h);
      OpensValid(h, h);
    }
    if Plannable(h0) && CompactionRuns.Opens(h0, h) {
      OpensValid(h0, h);
    }
  }

  lemma {:induction false} OpensValid(h0: seq<Message>, h: seq<Message>)
    requires Plannable(h0) && CompactionRuns.Opens(h0, h)
    ensures Conversation(h) != [] && Conversation(h)[0].role != Tool
  {
    hide Plannable, TimelineOf, CompactionRuns.Opens, SourceOf, ValidContext, Conversation;
    CompactionRuns.OpensContents(h0, h);
    SourceIsWhole(h0);
    assert SourceOf(h0)[0] == Conversation(h)[0];
    if Conversation(h)[0].role == Tool {
      FirstToolInvalid(SourceOf(h0));
    }
  }

  lemma ConversationSlice(h: seq<Message>, n: nat)
    requires n <= |Conversation(h)|
    ensures Conversation(h)[..n] == h[LeadingSystems(h)..LeadingSystems(h) + n]
  {
    SliceOfSuffix(h, LeadingSystems(h), LeadingSystems(h) + n);
  }

  lemma {:induction false} CommitIsCompactable(h: seq<Message>, h0: seq<Message>)
    requires Plannable(h0) && CompactionRuns.Opens(h0, h)
    ensures Compactable(h, LeadingSystems(h) + |SourceOf(h0)|)
  {
    hide Plannable, CompactionRuns.Opens, SourceOf, LeadingSystems, SegmentEnd, ValidContext, CompactionRuns.Kept,
         EndsSegment, Flatten, TimelineOf, Group, Conversation;
    CompactionRuns.KeptIsCut(h0, h);
    CompactionRuns.OpensContents(h0, h);
    SourceIsWhole(h0);
    ConversationSlice(h, |SourceOf(h0)|);
  }

  /** The compactions of these runs are the commits of background compaction. */
  lemma {:induction false} CommitIsCompaction(s: State, h0: seq<Message>, text: string)
    requires Plannable(h0) && CompactionRuns.Opens(h0, s.log.history)
    ensures |SourceOf(h0)| <= |Conversation(s.log.history)|
    ensures var start := LeadingSystems(s.log.history) + |SourceOf(h0)|;
            && Compactable(s.log.history, start)
            && Compacted(s, start, text).log.history == CompactionRuns.Kept(h0, s.log.history)
  {
    hide Plannable, CompactionRuns.Opens, SourceOf, LeadingSystems, SegmentEnd, Compactable, Conversation;
    var h := s.log.history;
    CommitIsCompactable(h, h0);
    CompactionRuns.KeptIsCut(h0, h);
    CutOf(h, LeadingSystems(h) + |SourceOf(h0)|);
  }

  /** What these runs remember of a projection. */
  function SummaryOf(p: Compaction.Projection): Option<Summary> {
    match p.snapshot
    case None => None
    case Some(x) => Some(Summary(x.summary, Provenance.AllCanonical(p)))
  }

  /** Their summaries are those of the projection, in a compaction, a rewind and a restore. */
  lemma {:induction false} SummaryFollows(p: Compaction.Projection, text: string, segments: seq<Segment>)
    requires Provenance.Shaped(p)
    ensures var q := Provenance.Compact(p, text);
            q != p ==> SummaryOf(q) == Some(Summed(SummaryOf(p), text))
    ensures SummaryOf(Compaction.Invalidated(p, segments)) == None
    ensures SummaryOf(Provenance.Restored(p, segments))
         == if SummaryOf(p).Some? && !SummaryOf(p).value.canonical then None else SummaryOf(p)
  {
    Provenance.ShapedValid(p);
    hide Compaction.ParseSummary, Compaction.Unwrap, Compaction.MakePlan, Compaction.FormatSummary;
    if Provenance.Compact(p, text) != p {
      Provenance.CompactShaped(p, text);
    }
  }
}
