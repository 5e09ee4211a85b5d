/**
 What every run of turns keeps, wherever a turn fails and whatever arrives
 meanwhile: input is conserved in order, the provider's output survives, and
 calls are answered before the next request.
 */
module TurnSafety {
  import opened Prelude
  import opened Transcript
  import opened Timeline
  import opened CompactionSafety
  import opened ToolRepair
  import opened Orphans
  import opened TurnRollback

  datatype World = World(agent: State, disk: Log)

  datatype Event =
    | Submit(m: Message)
    | Prompt(m: Message)
    | Wake
    | HealTurn
    | EnterTurn
    | Drain
    | Check
    | Compact(start: nat, text: string)   // between turns or in front of a request
    | ReplyWith(m: Message)
    | Stop(continueTodos: bool)
    | Tools(results: seq<Part>)
    | Fail
    | Rewind(turns: nat)
    | Save(persona: bool)
    | Crash

  predicate UserInput(m: Message) {
    m.role == User && ProperRoles(m)
  }

  predicate InPhase(s: State, phase: Phase) {
    s.turn.Running? && s.turn.phase == phase
  }

  /** One result per call, in the order of the calls. */
  predicate ResultsFor(m: Message, results: seq<Part>) {
    && (forall i :: 0 <= i < |results| ==> results[i].ToolResult?)
    && ResultIds(results) == CallIds(m.parts)
  }

  /** Messages up to a segment end can be summarized when they are a valid context of their own. */
  predicate Compactable(h: seq<Message>, start: nat) {
    LeadingSystems(h) < start && SegmentEnd(h, start) && ValidContext(h[LeadingSystems(h)..start])
  }

  ghost predicate Enabled(s: World, e: Event) {
    match e
    case Submit(m) => UserInput(m)
    case Prompt(m) => UserInput(m) && s.agent.turn.Idle?
    case Wake => s.agent.turn.Idle? && s.agent.log.mailbox != []
    case HealTurn => InPhase(s.agent, Starting)
    case EnterTurn => InPhase(s.agent, Healed)
    case Drain => InPhase(s.agent, LoopTop)
    case Check => InPhase(s.agent, Drawn)
    case Compact(start, _) =>
      && (InPhase(s.agent, Ready) || s.agent.turn.Idle?)
      && Compactable(s.agent.log.history, start)
    case ReplyWith(m) => InPhase(s.agent, Ready) && m.role == Assistant && ProperRoles(m)
    case Stop(continueTodos) => InPhase(s.agent, Replied) && (continueTodos ==> s.agent.turn.rollback.None?)
    case Tools(results) =>
      var h := s.agent.log.history;
      InPhase(s.agent, Replied) && h != [] && ResultsFor(h[|h| - 1], results)
    case Fail => s.agent.turn.Running?
    case Rewind(_) => s.agent.turn.Idle?
    case Save(_) => true
    case Crash => true
  }

  function Step(s: World, e: Event): World
    requires Enabled(s, e)
  {
    match e
    case Submit(m) => s.(agent := Submitted(s.agent, m))
    case Prompt(m) => s.(agent := Prompted(s.agent, m))
    case Wake => s.(agent := Woken(s.agent))
    case HealTurn => s.(agent := Heal(s.agent))
    case EnterTurn => s.(agent := Entered(s.agent))
    case Drain => s.(agent := Drained(s.agent))
    case Check => s.(agent := Checked(s.agent))
    case Compact(start, text) => s.(agent := Compacted(s.agent, start, text))
    case ReplyWith(m) => s.(agent := Reply(s.agent, m))
    case Stop(continueTodos) => s.(agent := Stopped(s.agent, continueTodos))
    case Tools(results) => s.(agent := ToolsDone(s.agent, results))
    case Fail => s.(agent := Failed(s.agent))
    case Rewind(turns) => s.(agent := WoundBack(s.agent, turns))
    case Save(persona) => s.(disk := Persisted(s.agent.log, persona))
    case Crash => s.(agent := Restored(s.disk))
  }

  /** A history the provider accepts. */
  predicate Sound(h: seq<Message>) {
    ValidContext(h) && ProperMessages(h)
  }

  /** A run starts idle from a history the provider accepts. */
  ghost predicate IsRun(states: seq<World>, events: seq<Event>) {
    && |states| == |events| + 1
    && Sound(states[0].agent.log.history)
    && states[0].agent == State(Log(states[0].agent.log.history, [], [], states[0].agent.log.summary), Idle)
    && states[0].disk == states[0].agent.log
    && forall i {:trigger events[i]} :: 0 <= i < |events| ==>
         Enabled(states[i], events[i]) && states[i + 1] == Step(states[i], events[i])
  }

  // ---- What was taken in and given out, from the events alone ----

  /** All input and all output, as of now and as of the last save. */
  datatype Ledger = Ledger(users: seq<Message>, replies: seq<Message>, savedUsers: seq<Message>, savedReplies: seq<Message>)

  /** The `n` messages behind the first `a`, and the last `m`. */
  function Without(ms: seq<Message>, a: nat, n: nat, m: nat): seq<Message> {
    if a + n + m <= |ms| then ms[a..a + n] + ms[|ms| - m..] else []
  }

  function Count(ms: seq<Message>, role: Role): nat {
    |Of(ms, role)|
  }

  /** What is left of `users` and `replies` when the summary is given up and the history becomes `h`. */
  function Forgotten(l: Ledger, users: seq<Message>, replies: seq<Message>, from: Log, h: seq<Message>): Ledger {
    l.(users := Without(users, Count(from.absorbed, User), Count(h, User), |from.mailbox|),
       replies := Without(replies, Count(from.absorbed, Assistant), Count(h, Assistant), 0))
  }

  /**
   A prompt's own message counts from the moment it enters the mailbox. Given up
   are what a rewind cuts off, and what a summary stands for that a rewind drops
   or that is not canonical when a session is restored.
   */
  function Noted(l: Ledger, e: Event, s: World): Ledger {
    match e
    case Submit(m) => l.(users := l.users + [m])
    case EnterTurn => if OwnOf(s.agent).Some? then l.(users := l.users + [OwnOf(s.agent).value]) else l
    case ReplyWith(m) => l.(replies := l.replies + [m])
    case Rewind(turns) =>
      if turns == 0 then l else Forgotten(l, l.users, l.replies, s.agent.log, Rewound(s.agent.log.history, turns))
    case Save(_) => l.(savedUsers := l.users, savedReplies := l.replies)
    case Crash =>
      if s.disk.summary.Some? && !s.disk.summary.value.canonical
      then Forgotten(l, l.savedUsers, l.savedReplies, s.disk, s.disk.history)
      else l.(users := l.savedUsers, replies := l.savedReplies)
    case _ => l
  }

  function OwnOf(s: State): Option<Message> {
    match s.turn
    case Running(_, own, _) => own
    case Idle => None
  }

  function LedgerAt(states: seq<World>, events: seq<Event>, k: nat): Ledger
    requires |states| == |events| + 1 && k < |states|
  {
    if k == 0 then
      var h := states[0].agent.log.history;
      Ledger(Of(h, User), Of(h, Assistant), Of(h, User), Of(h, Assistant))
    else Noted(LedgerAt(states, events, k - 1), events[k - 1], states[k - 1])
  }

  // ---- Conservation ----

  function UsersIn(l: Log): seq<Message> {
    Of(l.absorbed, User) + Of(l.history, User) + l.mailbox
  }

  function RepliesIn(l: Log): seq<Message> {
    Of(l.absorbed, Assistant) + Of(l.history, Assistant)
  }

  predicate AllUsers(ms: seq<Message>) {
    forall i :: 0 <= i < |ms| ==> UserInput(ms[i])
  }

  /** Going back to the last boundary would lose nothing either. */
  ghost predicate RollbackWhole(s: State, l: Ledger) {
    match s.turn
    case Running(_, _, Some(r)) =>
      && AllUsers(r.batch)
      && UsersIn(Log(r.history, r.absorbed, r.batch + s.log.mailbox, None)) == l.users
      && RepliesIn(Log(r.history, r.absorbed, [], None)) == l.replies
    case _ => true
  }

  ghost predicate Conserved(s: World, l: Ledger) {
    && AllUsers(s.agent.log.mailbox)
    && AllUsers(s.disk.mailbox)
    && (OwnOf(s.agent).Some? ==> UserInput(OwnOf(s.agent).value))
    && UsersIn(s.agent.log) == l.users
    && RepliesIn(s.agent.log) == l.replies
    && UsersIn(s.disk) == l.savedUsers
    && RepliesIn(s.disk) == l.savedReplies
    && RollbackWhole(s.agent, l)
  }

  lemma {:induction false} TakeConserves(s: State)
    requires AllUsers(s.log.mailbox)
    ensures UsersIn(TakeMailbox(s).log) == UsersIn(s.log)
    ensures RepliesIn(TakeMailbox(s).log) == RepliesIn(s.log)
  {
    hide Of;
    var h, m := s.log.history, s.log.mailbox;
    OfConcat(h, m, User);
    OfConcat(h, m, Assistant);
    OfAll(m, User, User);
    OfAll(m, User, Assistant);
    var a, b := Of(s.log.absorbed, User), Of(h, User);
    assert a + (b + m) + [] == a + b + m;
    assert Of(h, Assistant) + [] == Of(h, Assistant);
  }

  lemma {:induction false} TakeKeepsRollback(s: State, l: Ledger)
    requires RollbackWhole(s, l) && AllUsers(s.log.mailbox)
    ensures RollbackWhole(TakeMailbox(s), l)
  {
  }

  lemma {:induction false} CompactConserves(s: State, start: nat, text: string)
    requires LeadingSystems(s.log.history) <= start <= |s.log.history|
    ensures UsersIn(Compacted(s, start, text).log) == UsersIn(s.log)
    ensures RepliesIn(Compacted(s, start, text).log) == RepliesIn(s.log)
  {
    forall role | role == User || role == Assistant
      ensures Of(s.log.absorbed, role) + Of(s.log.history, role)
           == Of(Compacted(s, start, text).log.absorbed, role) + Of(Compacted(s, start, text).log.history, role)
    {
      CompactConservesRole(s, start, text, role);
    }
  }

  lemma Regroup(a: seq<Message>, b: seq<Message>, c: seq<Message>)
    ensures a + ([] + (b + c)) == (a + b) + ([] + c)
  {
  }

  lemma CutTwice(h: seq<Message>, n: nat, cut: nat)
    requires n <= cut <= |h|
    ensures h == h[..n] + (h[n..cut] + h[cut..])
  {
    assert h[n..] == h[n..cut] + h[cut..];
    assert h == h[..n] + h[n..];
  }

  lemma {:induction false} CompactConservesRole(s: State, start: nat, text: string, role: Role)
    requires LeadingSystems(s.log.history) <= start <= |s.log.history|
    requires role != System
    ensures Of(s.log.absorbed, role) + Of(s.log.history, role)
         == Of(Compacted(s, start, text).log.absorbed, role) + Of(Compacted(s, start, text).log.history, role)
  {
    hide Of, KeptFrom;
    var h, n := s.log.history, LeadingSystems(s.log.history);
    var cut := KeptFrom(h, start);
    var systems, middle, tail := h[..n], h[n..cut], h[cut..];
    CutTwice(h, n, cut);
    OfConcat(systems, middle + tail, role);
    OfConcat(middle, tail, role);
    OfConcat(systems, tail, role);
    OfConcat(s.log.absorbed, middle, role);
    OfAll(systems, System, role);
    Regroup(Of(s.log.absorbed, role), Of(middle, role), Of(tail, role));
  }

  lemma {:induction false} AppendConserves(l: Log, m: Message, role: Role)
    ensures Of(l.history + [m], role) == Of(l.history, role) + (if m.role == role then [m] else [])
  {
    OfConcat(l.history, [m], role);
    assert Of([m], role) == if m.role == role then [m] else [] by {
      assert Of([m][1..], role) == [];
    }
  }

  lemma {:induction false} InputConserves(s: World, e: Event, l: Ledger)
    requires Conserved(s, l) && Enabled(s, e) && (e.Submit? || e.EnterTurn? || e.Prompt? || e.Wake?)
    ensures Conserved(Step(s, e), Noted(l, e, s))
  {
    hide Of;
    var own := if e.Submit? then Some(e.m) else if e.EnterTurn? then OwnOf(s.agent) else None;
    if own.Some? {
      var mailbox := s.agent.log.mailbox;
      var before := Of(s.agent.log.absorbed, User) + Of(s.agent.log.history, User);
      assert before + (mailbox + [own.value]) == (before + mailbox) + [own.value];
      match s.agent.turn
      case Running(_, _, Some(r)) =>
        var past := Of(r.absorbed, User) + Of(r.history, User);
        assert past + (r.batch + (mailbox + [own.value])) == (past + (r.batch + mailbox)) + [own.value];
      case _ =>
    } else if e.Wake? {
      assert [] + s.agent.log.mailbox == s.agent.log.mailbox;
    }
  }

  lemma {:induction false} MoveConserves(s: World, e: Event, l: Ledger)
    requires Conserved(s, l) && Enabled(s, e) && (e.Drain? || e.Stop?)
    ensures Conserved(Step(s, e), Noted(l, e, s))
  {
    hide UsersIn, RepliesIn;
    TakeConserves(s.agent);
    TakeKeepsRollback(s.agent, l);
  }

  lemma {:induction false} OutputConserves(s: World, e: Event, l: Ledger)
    requires Conserved(s, l) && Enabled(s, e) && (e.ReplyWith? || e.Tools?)
    ensures Conserved(Step(s, e), Noted(l, e, s))
  {
    hide Of;
    var m := if e.ReplyWith? then e.m else Message(Tool, e.results);
    AppendConserves(s.agent.log, m, User);
    AppendConserves(s.agent.log, m, Assistant);
    var t := State(s.agent.log.(history := s.agent.log.history + [m]), s.agent.turn);
    var l' := Noted(l, e, s);
    var absorbed, history := Of(s.agent.log.absorbed, Assistant), Of(s.agent.log.history, Assistant);
    assert e.ReplyWith? ==> absorbed + (history + [m]) == (absorbed + history) + [m];
    assert Of(s.agent.log.history, User) + [] == Of(s.agent.log.history, User);
    assert [] + s.agent.log.mailbox == s.agent.log.mailbox;
  }

  // ---- Rewinds, saves and restores ----

  lemma WithoutIs(a: seq<Message>, b: seq<Message>, c: seq<Message>, d: seq<Message>)
    ensures Without(a + (b + c) + d, |a|, |b|, |d|) == b + d
  {
    var all := a + (b + c) + d;
    assert all[|a|..|a| + |b|] == b;
    assert all[|all| - |d|..] == d;
  }

  /** The messages of a role in a beginning of a history are a beginning of those in the history. */
  lemma {:induction false} OfPrefix(h: seq<Message>, n: nat, role: Role)
    requires n <= |h|
    ensures Of(h, role) == Of(h[..n], role) + Of(h[n..], role)
  {
    assert h == h[..n] + h[n..];
    OfConcat(h[..n], h[n..], role);
  }

  lemma ForgottenRole(absorbed: seq<Message>, h: seq<Message>, n: nat, mailbox: seq<Message>, role: Role)
    requires n <= |h|
    ensures Without(Of(absorbed, role) + Of(h, role) + mailbox, Count(absorbed, role), Count(h[..n], role), |mailbox|)
         == Of(h[..n], role) + mailbox
  {
    hide Of, Without;
    OfPrefix(h, n, role);
    WithoutIs(Of(absorbed, role), Of(h[..n], role), Of(h[n..], role), mailbox);
  }

  /** Giving up the summary and the end of the history leaves the account of what is kept. */
  lemma {:induction false} ForgottenIs(l: Ledger, from: Log, n: nat)
    requires n <= |from.history|
    ensures var t := Log(from.history[..n], [], from.mailbox, None);
            var k := Forgotten(l, UsersIn(from), RepliesIn(from), from, from.history[..n]);
            && k.users == UsersIn(t) && k.replies == RepliesIn(t)
            && k.savedUsers == l.savedUsers && k.savedReplies == l.savedReplies
  {
    NothingOf();
    hide Of, Without;
    var h := from.history[..n];
    ForgottenRole(from.absorbed, from.history, n, from.mailbox, User);
    ForgottenRole(from.absorbed, from.history, n, [], Assistant);
    assert Of(from.absorbed, Assistant) + Of(from.history, Assistant) + [] == RepliesIn(from);
    assert [] + Of(h, User) + from.mailbox == Of(h, User) + from.mailbox;
    assert [] + Of(h, Assistant) == Of(h, Assistant) + [];
  }

  lemma NothingOf()
    ensures Of([], User) == [] && Of([], Assistant) == []
  {
  }

  lemma RewoundIsPrefix(h: seq<Message>, turns: nat) returns (n: nat)
    ensures n <= |h| && Rewound(h, turns) == h[..n]
  {
    n := |Rewound(h, turns)|;
    assert h[..|h|] == h;
  }

  lemma {:induction false} RewindConserves(s: World, turns: nat, l: Ledger)
    requires Conserved(s, l) && Enabled(s, Rewind(turns))
    ensures Conserved(Step(s, Rewind(turns)), Noted(l, Rewind(turns), s))
  {
    hide UsersIn, RepliesIn, Forgotten, Rewound;
    var n := RewoundIsPrefix(s.agent.log.history, turns);
    ForgottenIs(l, s.agent.log, n);
    var t := WoundBack(s.agent, turns);
    assert turns > 0 ==> t.log == Log(s.agent.log.history[..n], [], s.agent.log.mailbox, None);
  }

  lemma {:induction false} SaveConserves(s: World, persona: bool, l: Ledger)
    requires Conserved(s, l)
    ensures Conserved(Step(s, Save(persona)), Noted(l, Save(persona), s))
  {
    hide Of, LeadingSystems;
    var h := s.agent.log.history;
    var n := LeadingSystems(h);
    OfPrefix(h, n, User);
    OfPrefix(h, n, Assistant);
    OfAll(h[..n], System, User);
    OfAll(h[..n], System, Assistant);
    assert [] + Of(h[n..], User) == Of(h[n..], User) && [] + Of(h[n..], Assistant) == Of(h[n..], Assistant);
  }

  lemma {:induction false} HealedAccount(l: Log)
    ensures UsersIn(l.(history := Repair(l.history))) == UsersIn(l)
    ensures RepliesIn(l.(history := Repair(l.history))) == RepliesIn(l)
  {
    hide Of, Repair;
    RepairKeepsOthers(l.history, User);
    RepairKeepsOthers(l.history, Assistant);
  }

  lemma AccountIgnores(l: Log, summary: Option<Summary>)
    ensures UsersIn(l.(summary := summary)) == UsersIn(l)
    ensures RepliesIn(l.(summary := summary)) == RepliesIn(l)
  {
  }

  lemma {:induction false} CrashConserves(s: World, l: Ledger)
    requires Conserved(s, l)
    ensures Conserved(Step(s, Crash), Noted(l, Crash, s))
  {
    var d := s.disk;
    if d.summary.Some? && !d.summary.value.canonical {
      assert d.history[..|d.history|] == d.history;
      ForgottenIs(l, d, |d.history|);
      HealedAccount(Log(d.history, [], d.mailbox, None));
    } else {
      HealedAccount(d);
    }
    hide UsersIn, RepliesIn, Forgotten, Repair;
  }

  lemma {:induction false} FailConserves(s: World, e: Event, l: Ledger)
    requires Conserved(s, l) && Enabled(s, e) && (e.Fail? || e.Check?)
    ensures Conserved(Step(s, e), Noted(l, e, s))
  {
    hide Of, ValidContext;
  }

  lemma {:induction false} RestConserves(s: World, e: Event, l: Ledger)
    requires Conserved(s, l) && Enabled(s, e) && (e.HealTurn? || e.Compact?)
    ensures Conserved(Step(s, e), Noted(l, e, s))
  {
    hide UsersIn, RepliesIn, Repair, Compactable;
    match e
    case HealTurn => HealedAccount(s.agent.log);
    case Compact(start, text) => CompactStep(s, start, text);
  }

  lemma {:induction false} CompactStep(s: World, start: nat, text: string)
    requires Enabled(s, Compact(start, text))
    ensures UsersIn(Compacted(s.agent, start, text).log) == UsersIn(s.agent.log)
    ensures RepliesIn(Compacted(s.agent, start, text).log) == RepliesIn(s.agent.log)
  {
    hide UsersIn, RepliesIn, Compacted;
    CompactConserves(s.agent, start, text);
  }

  lemma {:induction false} StepConserves(s: World, e: Event, l: Ledger)
    requires Conserved(s, l) && Enabled(s, e)
    ensures Conserved(Step(s, e), Noted(l, e, s))
  {
    hide Conserved, Step, Noted, Enabled;
    match e
    case Submit(_) => InputConserves(s, e, l);
    case EnterTurn => InputConserves(s, e, l);
    case Prompt(_) => InputConserves(s, e, l);
    case Wake => InputConserves(s, e, l);
    case Drain => MoveConserves(s, e, l);
    case Stop(_) => MoveConserves(s, e, l);
    case ReplyWith(_) => OutputConserves(s, e, l);
    case Tools(_) => OutputConserves(s, e, l);
    case Fail => FailConserves(s, e, l);
    case Check => FailConserves(s, e, l);
    case Rewind(turns) => RewindConserves(s, turns, l);
    case Save(persona) => SaveConserves(s, persona, l);
    case Crash => CrashConserves(s, l);
    case _ => RestConserves(s, e, l);
  }

  lemma {:induction false} RunConserves(states: seq<World>, events: seq<Event>, k: nat)
    requires IsRun(states, events) && k < |states|
    ensures Conserved(states[k], LedgerAt(states, events, k))
  {
    if k > 0 {
      hide Conserved, Step, Enabled, Noted;
      RunConserves(states, events, k - 1);
      StepConserves(states[k - 1], events[k - 1], LedgerAt(states, events, k - 1));
    } else {
      assert UsersIn(states[0].disk) == Of(states[0].disk.history, User);
    }
  }

  /**
   Input is conserved: at every moment of every run, what summaries stand for,
   then the history, then the mailbox hold all input so far, each message once
   and in the order it came, both in memory and in the snapshot on disk.
   */
  lemma InputConserved(states: seq<World>, events: seq<Event>, k: nat)
    requires IsRun(states, events) && k < |states|
    ensures UsersIn(states[k].agent.log) == LedgerAt(states, events, k).users
    ensures UsersIn(states[k].disk) == LedgerAt(states, events, k).savedUsers
  {
    RunConserves(states, events, k);
  }

  // ---- Calls and results stay in the messages they belong in ----

  ghost predicate ProperWorld(s: World) {
    && ProperMessages(s.agent.log.history)
    && ProperMessages(s.disk.history)
    && (s.agent.turn.Running? && s.agent.turn.rollback.Some? ==> ProperMessages(s.agent.turn.rollback.value.history))
  }

  lemma {:induction false} StepProper(s: World, e: Event)
    requires ProperWorld(s) && Enabled(s, e) && AllUsers(s.agent.log.mailbox)
    ensures ProperWorld(Step(s, e))
  {
    hide Repair, LeadingSystems, CallIds, ResultIds, SegmentEnd;
    match e
    case HealTurn => RepairAnswers(s.agent.log.history);
    case Crash => RepairAnswers(s.disk.history);
    case _ =>
  }

  lemma {:induction false} RunProper(states: seq<World>, events: seq<Event>, k: nat)
    requires IsRun(states, events) && k < |states|
    ensures ProperWorld(states[k])
  {
    if k > 0 {
      RunProper(states, events, k - 1);
      RunConserves(states, events, k - 1);
      hide ProperWorld, Step, Enabled;
      StepProper(states[k - 1], events[k - 1]);
    }
  }

  /** What the provider said survives every later failure of its turn, in order. */
  lemma RepliesSurvive(states: seq<World>, events: seq<Event>, k: nat)
    requires IsRun(states, events) && k < |states|
    ensures RepliesIn(states[k].agent.log) == LedgerAt(states, events, k).replies
    ensures RepliesIn(states[k].disk) == LedgerAt(states, events, k).savedReplies
  {
    RunConserves(states, events, k);
  }

  // ---- Steps put together ----

  ghost predicate StepsTo(s: World, e: Event, t: World) {
    Enabled(s, e) && Step(s, e) == t
  }

  lemma {:induction false} Extend(states: seq<World>, events: seq<Event>, e: Event, t: World)
    returns (more: seq<World>, done: seq<Event>)
    requires IsRun(states, events) && StepsTo(states[|states| - 1], e, t)
    ensures IsRun(more, done) && more == states + [t] && done == events + [e]
  {
    hide Step, Enabled, Sound;
    more, done := states + [t], events + [e];
  }

  /** In a turn of its own prompt, with nothing to go back to. */
  function InTurn(s: World, history: seq<Message>, mailbox: seq<Message>, phase: Phase, own: Option<Message>): World {
    s.(agent := State(s.agent.log.(history := history, mailbox := mailbox), Running(phase, own, None)))
  }

  lemma TurnBegins(s: World, u: Message)
    requires UserInput(u) && s.agent.turn.Idle? && s.agent.log.mailbox == []
    ensures var h := s.agent.log.history;
            && StepsTo(s, Prompt(u), InTurn(s, h, [], Starting, Some(u)))
            && StepsTo(InTurn(s, h, [], Starting, Some(u)), HealTurn, InTurn(s, Repair(h), [], Healed, Some(u)))
            && StepsTo(InTurn(s, Repair(h), [], Healed, Some(u)), EnterTurn, InTurn(s, Repair(h), [u], LoopTop, None))
            && StepsTo(InTurn(s, Repair(h), [u], LoopTop, None), Drain, InTurn(s, Repair(h) + [u], [], Drawn, None))
  {
    hide Repair;
  }

  /** A turn of the prompt `u`, up to the check of its history. */
  lemma {:induction false} TurnUpToCheck(states: seq<World>, events: seq<Event>, u: Message)
    returns (more: seq<World>, done: seq<Event>)
    requires IsRun(states, events) && UserInput(u)
    requires var s := states[|states| - 1].agent; s.turn.Idle? && s.log.mailbox == []
    ensures var s := states[|states| - 1];
            IsRun(more, done) && states <= more && more[|more| - 1] == InTurn(s, Repair(s.agent.log.history) + [u], [], Drawn, None)
    ensures events <= done && forall i :: |events| <= i < |done| ==> !done[i].Save?
  {
    var s := states[|states| - 1];
    var h := s.agent.log.history;
    TurnBegins(s, u);
    hide IsRun, StepsTo, Repair;
    more, done := Extend(states, events, Prompt(u), InTurn(s, h, [], Starting, Some(u)));
    more, done := Extend(more, done, HealTurn, InTurn(s, Repair(h), [], Healed, Some(u)));
    more, done := Extend(more, done, EnterTurn, InTurn(s, Repair(h), [u], LoopTop, None));
    more, done := Extend(more, done, Drain, InTurn(s, Repair(h) + [u], [], Drawn, None));
  }

  /** The check of a valid history passes. */
  lemma CheckPasses(s: World, h: seq<Message>)
    requires ValidContext(h)
    ensures StepsTo(InTurn(s, h, [], Drawn, None), Check, InTurn(s, h, [], Ready, None))
  {
    hide ValidContext;
  }

  // ---- Calls left open ----

  /** Between healing and the next request every call has its result; while tools run, all but the last message's. */
  predicate AnsweredSoFar(s: State) {
    var h := s.log.history;
    s.turn.Running? ==>
      match s.turn.phase
      case Starting => true
      case Replied => h != [] && Answered(h[..|h| - 1])
      case _ => Answered(h)
  }

  /** The stop policy ends a message that has calls only when the generation was cut short. */
  predicate CleanStop(s: State, e: Event) {
    var h := s.log.history;
    e.Stop? && h != [] ==> CallIds(h[|h| - 1].parts) == []
  }

  lemma {:induction false} AnsweredAppend(h: seq<Message>, more: seq<Message>)
    requires Answered(h)
    requires forall i :: 0 <= i < |more| ==> CallIds(more[i].parts) == []
    ensures Answered(h + more)
  {
    hide AnsweredBy, CallIds;
    var all := h + more;
    assert forall i :: |h| <= i < |all| ==> all[i] == more[i - |h|];
    forall i | 0 <= i < |all| && CallIds(all[i].parts) != []
      ensures i + 1 < |all| && AnsweredBy(all[i], all[i + 1])
    {
      if i < |h| {
        assert all[i] == h[i] && all[i + 1] == h[i + 1];
      }
    }
  }

  lemma {:induction false} AnsweredTools(h: seq<Message>, results: seq<Part>)
    requires h != [] && Answered(h[..|h| - 1]) && ResultsFor(h[|h| - 1], results)
    ensures Answered(h + [Message(Tool, results)])
  {
    hide CallIds, ResultIds;
    var m := Message(Tool, results);
    CallIdsAre(results);
    assert AnsweredBy(h[|h| - 1], m);
    var all, before := h + [m], h[..|h| - 1];
    forall i | 0 <= i < |all| && CallIds(all[i].parts) != []
      ensures i + 1 < |all| && AnsweredBy(all[i], all[i + 1])
    {
      if i < |before| {
        assert all[i] == before[i] && all[i + 1] == before[i + 1];
      }
    }
  }

  lemma {:induction false} AnsweredCompacted(h: seq<Message>, start: nat)
    requires Answered(h) && ProperMessages(h) && LeadingSystems(h) <= start <= |h|
    ensures Answered(h[..LeadingSystems(h)] + h[KeptFrom(h, start)..])
  {
    AnsweredCut(h, KeptFrom(h, start));
  }

  lemma {:induction false} AnsweredCut(h: seq<Message>, cut: nat)
    requires Answered(h) && ProperMessages(h) && LeadingSystems(h) <= cut <= |h|
    ensures Answered(h[..LeadingSystems(h)] + h[cut..])
  {
    hide AnsweredBy, ProperRoles;
    var n := LeadingSystems(h);
    var all := h[..n] + h[cut..];
    forall i | 0 <= i < |all| && CallIds(all[i].parts) != []
      ensures i + 1 < |all| && AnsweredBy(all[i], all[i + 1])
    {
      if i < n {
        ProperById(h[i]);
      } else {
        assert all[i] == h[cut + (i - n)] && all[i + 1] == h[cut + (i - n) + 1];
      }
    }
  }

  lemma {:induction false} UsersHaveNoCalls(ms: seq<Message>)
    requires AllUsers(ms)
    ensures forall i :: 0 <= i < |ms| ==> CallIds(ms[i].parts) == []
  {
    forall i | 0 <= i < |ms|
      ensures CallIds(ms[i].parts) == []
    {
      assert UserInput(ms[i]);
      ProperById(ms[i]);
    }
  }

  lemma {:induction false} WholeAnswered(h: seq<Message>)
    requires h != [] && Answered(h[..|h| - 1]) && CallIds(h[|h| - 1].parts) == []
    ensures Answered(h)
  {
  }

  lemma {:induction false} StepAnswered(s: World, e: Event)
    requires AnsweredSoFar(s.agent) && Enabled(s, e) && CleanStop(s.agent, e)
    requires ProperMessages(s.agent.log.history) && AllUsers(s.agent.log.mailbox)
    ensures AnsweredSoFar(Step(s, e).agent)
  {
    hide Answered, ProperMessages, Repair, LeadingSystems, CallIds, ResultsFor, UserInput;
    var h := s.agent.log.history;
    match e
    case HealTurn => RepairAnswers(h);
    case Drain =>
      UsersHaveNoCalls(s.agent.log.mailbox);
      AnsweredAppend(h, s.agent.log.mailbox);
    case Stop(_) =>
      UsersHaveNoCalls(s.agent.log.mailbox);
      WholeAnswered(h);
      AnsweredAppend(h, s.agent.log.mailbox);
    case Compact(start, _) => if s.agent.turn.Running? { AnsweredCompacted(h, start); }
    case ReplyWith(m) => assert (h + [m])[..|h|] == h;
    case Tools(results) => AnsweredTools(h, results);
    case _ =>
  }

  /**
   Every call in a request has its result: from the moment a turn healed its
   history, as long as no message with calls was taken for the last one.
   */
  lemma {:induction false} RequestsAreAnswered(states: seq<World>, events: seq<Event>, j: nat, k: nat)
    requires IsRun(states, events) && j < k < |states| && events[j].HealTurn?
    requires forall i {:trigger events[i]} :: j < i < k ==> CleanStop(states[i].agent, events[i])
    ensures AnsweredSoFar(states[k].agent)
    ensures InPhase(states[k].agent, Ready) ==> Answered(states[k].agent.log.history)
  {
    hide Step, Enabled, Conserved, ProperWorld, CleanStop, Answered;
    RunProper(states, events, k - 1);
    RunConserves(states, events, k - 1);
    InvariantParts(states[k - 1], LedgerAt(states, events, k - 1));
    if k > j + 1 {
      RequestsAreAnswered(states, events, j, k - 1);
      StepAnswered(states[k - 1], events[k - 1]);
    } else {
      HealAnswered(states[j]);
    }
  }

  lemma InvariantParts(s: World, l: Ledger)
    requires Conserved(s, l) && ProperWorld(s)
    ensures ProperMessages(s.agent.log.history) && AllUsers(s.agent.log.mailbox)
  {
  }

  lemma HealAnswered(s: World)
    requires Enabled(s, HealTurn) && ProperMessages(s.agent.log.history)
    ensures AnsweredSoFar(Step(s, HealTurn).agent)
  {
    RepairAnswers(s.agent.log.history);
  }

  /** A turn kept alive by waiting input offers answered calls exactly when its last message had none. */
  lemma {:induction false} ContinuationAnswered(s: World)
    requires Enabled(s, Stop(false)) && AnsweredSoFar(s.agent)
    requires AllUsers(s.agent.log.mailbox) && s.agent.log.mailbox != []
    ensures var t := Step(s, Stop(false)).agent;
            t.turn.Running? && (Answered(t.log.history) <==> CleanStop(s.agent, Stop(false)))
  {
    var h, more := s.agent.log.history, s.agent.log.mailbox;
    if CallIds(h[|h| - 1].parts) == [] {
      UsersHaveNoCalls(more);
      WholeAnswered(h);
      AnsweredAppend(h, more);
    } else {
      assert UserInput(more[0]);
      assert !AnsweredBy((h + more)[|h| - 1], (h + more)[|h|]);
    }
  }

  const NOWHERE := World(State(Log([], [], [], None), Idle), Log([], [], [], None))

  lemma CutShortReplies(u: Message, call: Message)
    requires UserInput(u) && call.role == Assistant && ProperRoles(call)
    ensures StepsTo(InTurn(NOWHERE, [u], [], Ready, None), ReplyWith(call), InTurn(NOWHERE, [u, call], [], Replied, None))
    ensures StepsTo(InTurn(NOWHERE, [u, call], [], Replied, None), Submit(u), InTurn(NOWHERE, [u, call], [u], Replied, None))
  {
  }

  lemma CutShortGoesOn(u: Message, call: Message)
    ensures StepsTo(InTurn(NOWHERE, [u, call], [u], Replied, None), Stop(false), InTurn(NOWHERE, [u, call, u], [], LoopTop, None))
    ensures StepsTo(InTurn(NOWHERE, [u, call, u], [], LoopTop, None), Drain, InTurn(NOWHERE, [u, call, u], [], Drawn, None))
  {
  }

  lemma WithoutToolsValid(h: seq<Message>)
    requires forall i :: 0 <= i < |h| ==> h[i].role != Tool
    ensures ValidContext(h)
  {
  }

  /** A generation cut short behind a call, with input waiting: the next request leaves the call open. */
  lemma {:induction false} CutShortLeavesCallOpen() returns (states: seq<World>, events: seq<Event>)
    ensures IsRun(states, events)
    ensures var s := states[|states| - 1].agent; InPhase(s, Ready) && !Answered(s.log.history)
  {
    var u := Message(User, [Other("go")]);
    var call := Message(Assistant, [ToolCall("c", "run", "")]);
    CutShortReplies(u, call);
    CutShortGoesOn(u, call);
    OpenCall(u, call);
    assert Repair([]) + [u] == [u];
    WithoutToolsValid([u]);
    CheckPasses(NOWHERE, [u]);
    WithoutToolsValid([u, call, u]);
    CheckPasses(NOWHERE, [u, call, u]);
    assert IsRun([NOWHERE], []);
    hide IsRun, Answered, StepsTo, Repair, ValidContext;
    states, events := TurnUpToCheck([NOWHERE], [], u);
    states, events := Extend(states, events, Check, InTurn(NOWHERE, [u], [], Ready, None));
    states, events := Extend(states, events, ReplyWith(call), InTurn(NOWHERE, [u, call], [], Replied, None));
    states, events := Extend(states, events, Submit(u), InTurn(NOWHERE, [u, call], [u], Replied, None));
    states, events := Extend(states, events, Stop(false), InTurn(NOWHERE, [u, call, u], [], LoopTop, None));
    states, events := Extend(states, events, Drain, InTurn(NOWHERE, [u, call, u], [], Drawn, None));
    states, events := Extend(states, events, Check, InTurn(NOWHERE, [u, call, u], [], Ready, None));
  }

  lemma OpenCall(u: Message, call: Message)
    requires u.role == User && call.parts == [ToolCall("c", "run", "")]
    ensures !Answered([u, call, u])
  {
    var h := [u, call, u];
    assert CallIds(call.parts) == ["c"];
    assert h[1] == call && h[2] == u && !AnsweredBy(call, u);
  }
}
