/**
 What may happen between planning a compaction and its summary
 (crates/core/src/agent.rs), when exactly the summary is still committed, and
 what a commit leaves.
 */
module CompactionRuns {
  import opened Prelude
  import opened Transcript
  import opened Timeline
  import opened Compaction
  import opened CompactionSafety
  import opened CompactionAgent
  import opened ToolRepair
  import opened Orphans

  // ---- Planned segments that still open the timeline ----

  /** The segments planned on `h0` are the first segments of `h`. */
  predicate Opens(h0: seq<Message>, h: seq<Message>) {
    var n := |Inactive(TimelineOf(h0))|;
    n <= |TimelineOf(h)| && TimelineOf(h)[..n] == Inactive(TimelineOf(h0))
  }

  /** ... and something comes after them. */
  predicate OpensShort(h0: seq<Message>, h: seq<Message>) {
    Opens(h0, h) && |SourceOf(h0)| < |Conversation(h)|
  }

  lemma {:induction false} OpensContents(h0: seq<Message>, h: seq<Message>)
    requires Plannable(h0) && Opens(h0, h)
    ensures var b, ms, n := |SourceOf(h0)|, Conversation(h), |Inactive(TimelineOf(h0))|;
            && 0 < b <= |ms|
            && ms[..b] == SourceOf(h0)
            && Flatten(TimelineOf(h)[n..]) == ms[b..]
            && (b < |ms| ==> EndsSegment(ms, b - 1) && Group(ms, b) == Grouping(Inactive(TimelineOf(h0)), []))
  {
    hide TimelineOf, Flatten, Group, Plannable, Inactive, EndsSegment, Conversation, LeadingSystems;
    var n := |Inactive(TimelineOf(h0))|;
    SomeSource(h0);
    SomeSegments(h0);
    var b := TimelineBoundary(h, n);
    assert b == |SourceOf(h0)|;
  }

  lemma SomeSource(h0: seq<Message>)
    requires Plannable(h0)
    ensures |SourceOf(h0)| > 0
  {
    hide TimelineOf, Plannable, SourceOf;
    var start := PlannableMeaning(h0);
  }

  lemma SomeSegments(h0: seq<Message>)
    requires Plannable(h0)
    ensures |Inactive(TimelineOf(h0))| > 0
  {
    hide TimelineOf;
    var start := PlannableMeaning(h0);
    NothingFlat();
    assert |Inactive(TimelineOf(h0))| == 0 ==> Inactive(TimelineOf(h0)) == [];
  }

  lemma {:induction false} OpensItself(h0: seq<Message>)
    requires Plannable(h0)
    ensures OpensShort(h0, h0)
  {
    hide TimelineOf, Plannable, Flatten;
    var start := PlannableMeaning(h0);
  }

  /** The planned segments stay first as long as the planned messages do, and what follows them starts alike. */
  lemma {:induction false} KeepsOpen(h0: seq<Message>, h: seq<Message>, h': seq<Message>)
    requires Plannable(h0) && OpensShort(h0, h)
    requires var b := |SourceOf(h0)|;
             && b < |Conversation(h')| && Conversation(h')[..b] == Conversation(h)[..b]
             && b < |Conversation(h)| && Conversation(h')[b].role == Conversation(h)[b].role
    ensures OpensShort(h0, h')
  {
    hide Plannable, SourceOf, Flatten, Group, Inactive;
    OpensContents(h0, h);
    SameSegments(Conversation(h), Conversation(h'), |SourceOf(h0)|);
  }

  lemma {:induction false} AppendKeepsOpen(h0: seq<Message>, h: seq<Message>, more: seq<Message>)
    requires Plannable(h0) && OpensShort(h0, h)
    ensures OpensShort(h0, h + more)
  {
    hide Plannable, SourceOf, Opens;
    ConversationAppend(h, more);
    KeepsOpen(h0, h, h + more);
  }

  // ---- Healing ----

  /** A call that is open is answered by the very next message, when results come right behind their calls. */
  lemma {:induction false} PairedIsAnswered(ms: seq<Message>)
    requires ValidProviderRoles(ms) && Paired(ms, |ms|)
    ensures Answered(ms)
  {
    forall i | 0 <= i < |ms| && CallIds(ms[i].parts) != []
      ensures i + 1 < |ms| && AnsweredBy(ms[i], ms[i + 1])
    {
      hide CallIds;
      ProperById(ms[i]);
      CallIdsAre(ms[i].parts);
      var first := CallIds(ms[i].parts)[0];
      assert first in CallIds(ms[i].parts);
      assert HasCall(ms[i], first);
      NextAnswers(ms, i, first);
      forall x | x in CallIds(ms[i].parts)
        ensures x in ResultIds(ms[i + 1].parts)
      {
        NextAnswers(ms, i, x);
      }
    }
  }

  lemma {:induction false} NextAnswers(ms: seq<Message>, i: nat, x: string)
    requires ValidProviderRoles(ms) && Paired(ms, |ms|)
    requires i < |ms| && HasCall(ms[i], x)
    ensures i + 1 < |ms| && ms[i + 1].role == Tool && x in ResultIds(ms[i + 1].parts)
  {
    OpenedCall(ms, i, x);
    var j := ClosingMessage(ms, i + 1, |ms|, x);
    assert ValidAt(ms, j);
    ResultIdsAre(ms[j].parts);
    assert HasCall(ms[j - 1], x);
    if j > i + 1 {
      ProperById(ms[j - 1]);
      CallIdsAre(ms[j - 1].parts);
      var c :| 0 <= c < |ms[j - 1].parts| && ms[j - 1].parts[c].ToolCall? && ms[j - 1].parts[c].id == x;
      assert ProperRoles(ms[j - 1]);
      NoRepeatedCall(ms[j - 1], |ms[j - 1].parts|, OpenCalls(ms, j - 1).value);
    }
  }

  /** After an assistant message its calls are open. */
  lemma {:induction false} OpenedCall(ms: seq<Message>, i: nat, x: string)
    requires ValidProviderRoles(ms) && Paired(ms, |ms|)
    requires i < |ms| && HasCall(ms[i], x)
    ensures OpenCalls(ms, i + 1).Some? && x in OpenCalls(ms, i + 1).value
  {
    if OpenCalls(ms, i + 1).None? {
      OpenCallsStuck(ms, i + 1, |ms|);
    }
    assert ProperRoles(ms[i]);
    var c :| 0 <= c < |ms[i].parts| && ms[i].parts[c].ToolCall? && ms[i].parts[c].id == x;
    CallStaysOpen(ms[i], c, |ms[i].parts|, OpenCalls(ms, i).value);
  }

  lemma {:induction false} CallStaysOpen(m: Message, c: nat, n: nat, open: set<string>)
    requires c < n <= |m.parts| && m.role == Assistant && m.parts[c].ToolCall?
    requires ConsumeParts(m, n, open).Some?
    ensures m.parts[c].id in ConsumeParts(m, n, open).value
  {
    if c < n - 1 {
      CallStaysOpen(m, c, n - 1, open);
    }
  }

  /** Nothing planned dangles. */
  lemma {:induction false} SourceIsAnswered(h0: seq<Message>)
    requires Plannable(h0)
    ensures Answered(SourceOf(h0))
  {
    hide Plannable, TimelineOf, Answered, Paired;
    var start := PlannableMeaning(h0);
    SourceIsWhole(h0);
    var ms := Conversation(h0);
    assert ValidProviderRoles(SourceOf(h0)) by {
      ValidPrefix(ms, start);
    }
    PairedIsAnswered(SourceOf(h0));
  }

  /** Leading system messages hold no calls. */
  predicate PlainSystems(h: seq<Message>) {
    forall i :: 0 <= i < LeadingSystems(h) ==> CallIds(h[i].parts) == []
  }

  lemma {:induction false} RepairConversation(h: seq<Message>)
    requires PlainSystems(h)
    ensures var l := LeadingSystems(h);
            && LeadingSystems(Repair(h)) == l && l <= |Repair(h)| && Repair(h)[..l] == h[..l]
            && Conversation(Repair(h)) == Repair(Conversation(h))
            && PlainSystems(Repair(h))
  {
    var l := LeadingSystems(h);
    assert h == h[..l] + h[l..];
    assert Answered(h[..l]);
    RepairSplit(h[..l], h[l..]);
    RepairLonger(h[l..]);
    var t := Repair(h);
    assert t == h[..l] + Repair(h[l..]);
    hide Repair;
    LeadingSystemsUnique(t, l);
  }

  /** Healing leaves the planned segments first, whatever it adds behind them. */
  lemma {:induction false} HealingKeepsOpen(h0: seq<Message>, h: seq<Message>)
    requires Plannable(h0) && OpensShort(h0, h) && PlainSystems(h)
    ensures OpensShort(h0, Repair(h))
  {
    hide Plannable, TimelineOf, Repair, Answered, PlainSystems, Group;
    OpensContents(h0, h);
    SourceIsAnswered(h0);
    RepairConversation(h);
    var ms, b := Conversation(h), |SourceOf(h0)|;
    assert ms == ms[..b] + ms[b..];
    RepairSplit(ms[..b], ms[b..]);
    RepairLonger(ms[b..]);
    KeepsOpen(h0, h, Repair(h));
  }

  // ---- The commit ----

  /** The history a commit leaves: the leading system messages, and what follows the planned messages. */
  function Kept(h0: seq<Message>, h: seq<Message>): seq<Message>
    requires |SourceOf(h0)| <= |Conversation(h)|
  {
    h[..LeadingSystems(h)] + Conversation(Conversation(h)[|SourceOf(h0)|..])
  }

  lemma {:induction false} AppliesExactly(h0: seq<Message>, p: Projection, q: Projection, summary: string)
    requires Plannable(h0) && p.segments == TimelineOf(h0) && MakePlan(p, p.generation).Ok?
    ensures var plan, n := MakePlan(p, p.generation).value, |Inactive(p.segments)|;
            var r := Apply(q, plan, summary);
            && (r.Ok? <==>
                  q.generation == p.generation < U64_MAX
                  && n <= |q.segments| && q.segments[..n] == Inactive(p.segments))
            && (r.Ok? ==> r.value.segments == q.segments[n..] && r.value.generation == q.generation + 1)
  {
    hide TimelineOf, Plannable, MakePlan, FormatSummary, Unwrap;
    TimelineContents(h0);
    PlanCoversAllButLast(p, p.generation);
    var plan, n := MakePlan(p, p.generation).value, |Inactive(p.segments)|;
    if n <= |q.segments| {
      assert q.segments[0..n] == q.segments[..n];
      assert q.segments[..0] + q.segments[n..] == q.segments[n..];
    }
  }

  /**
   When the summary of a plan made on `h0` arrives, it is committed if and only
   if no rewind moved the epoch, the generation is the planned one, and the
   planned segments still open the timeline. A commit leaves exactly `Kept`;
   otherwise only the job is gone.
   */
  lemma {:induction false} CommitExactly(h0: seq<Message>, p: Projection, s: AgentState, epoch: nat, summary: string)
    requires Plannable(h0) && p.segments == TimelineOf(h0) && MakePlan(p, p.generation).Ok?
    requires s.job == Some(Job(epoch, MakePlan(p, p.generation).value))
    ensures Opens(h0, s.history) ==> |SourceOf(h0)| <= |Conversation(s.history)|
    ensures var after := Polled(s, Finished(JobResult(MakePlan(p, p.generation).value, summary)));
            if epoch == s.epoch && s.projection.generation == p.generation < U64_MAX && Opens(h0, s.history) then
              && after.history == Kept(h0, s.history)
              && after.projection.generation == s.projection.generation + 1
              && after.projection.segments == TimelineOf(after.history)
              && after.job.None? && after.epoch == s.epoch
            else after == Synced(s).(job := None)
  {
    hide Plannable, TimelineOf, MakePlan, Apply, Flatten, LeadingSystems, SourceOf, Conversation;
    AppliesExactly(h0, p, Synced(s).projection, summary);
    if Opens(h0, s.history) {
      OpensContents(h0, s.history);
    }
  }

  lemma EndsInside(h: seq<Message>, l: nat, b: nat)
    requires l <= |h| && 0 < b <= |h[l..]|
    requires b < |h[l..]| ==> EndsSegment(h[l..], b - 1)
    ensures h[l..][b..] == h[l + b..]
    ensures SegmentEnd(h, l + b)
  {
  }

  /** A commit drops the messages from the leading system messages to a segment end, and system messages behind it. */
  lemma {:induction false} KeptIsCut(h0: seq<Message>, h: seq<Message>)
    requires Plannable(h0) && Opens(h0, h)
    ensures var l := LeadingSystems(h);
            var start := l + |SourceOf(h0)|;
            && l < start <= |h|
            && |SourceOf(h0)| <= |Conversation(h)|
            && Conversation(h)[|SourceOf(h0)|..] == h[start..]
            && Kept(h0, h) == h[..l] + Conversation(h[start..])
            && SegmentEnd(h, start)
  {
    hide Plannable, TimelineOf, Group, Flatten, SourceOf, Opens, EndsSegment, SegmentEnd, LeadingSystems;
    OpensContents(h0, h);
    EndsInside(h, LeadingSystems(h), |SourceOf(h0)|);
  }

  /** The first message a commit keeps behind the leading system messages, if any. */
  function FirstKept(h0: seq<Message>, h: seq<Message>): Option<Message>
    requires |SourceOf(h0)| <= |Conversation(h)|
  {
    var kept := Conversation(Conversation(h)[|SourceOf(h0)|..]);
    if kept == [] then None else Some(kept[0])
  }

  /**
   What a commit leaves of a valid history is valid if and only if the first
   message it keeps is no tool message, or there is a leading system message to
   stand before it. (A tool message kept first has no results, for no call
   stands before it.)
   */
  lemma {:induction false} CommitIsValidExactly(h0: seq<Message>, h: seq<Message>)
    requires Plannable(h0) && Opens(h0, h)
    requires ValidContext(h) && ProperMessages(h)
    ensures |SourceOf(h0)| <= |Conversation(h)|
    ensures ValidContext(Kept(h0, h)) <==>
              FirstKept(h0, h).None? || FirstKept(h0, h).value.role != Tool || LeadingSystems(h) > 0
  {
    hide Plannable, TimelineOf, SourceOf, ValidContext, Opens, ProperMessages, Conversation, LeadingSystems, SegmentEnd;
    KeptIsCut(h0, h);
    CutIsValidExactly(h, LeadingSystems(h) + |SourceOf(h0)|);
  }

  lemma {:induction false} TailOpensWithTool(h: seq<Message>)
    requires Plannable(h)
    ensures TimelineOf(h) != [] && TailOf(h) != []
    ensures TailOf(h)[0].role == Tool <==> |h| >= 2 && h[|h| - 2].role == Tool && h[|h| - 1].role == Tool
  {
    hide Plannable, TimelineOf, TailOf, SourceOf, ValidContext, SafeBoundary;
    var start := PlannableMeaning(h);
    TailIsWhole(h);
    ValidRolesGiveContext(Conversation(h));
    ValidSuffix(Conversation(h), start);
  }

  /** With nothing but appending, what a commit keeps is the last planned segment and all that came after it. */
  lemma {:induction false} KeptAfterAppend(h: seq<Message>, more: seq<Message>)
    requires Plannable(h)
    ensures TimelineOf(h) != [] && |SourceOf(h)| <= |Conversation(h + more)|
    ensures Conversation(h + more)[|SourceOf(h)|..] == TailOf(h) + more
    ensures Kept(h, h + more) == h[..LeadingSystems(h)] + Conversation(TailOf(h) + more)
  {
    hide Plannable, TimelineOf, TailOf, SourceOf, LeadingSystems;
    var start := PlannableMeaning(h);
    ConversationAppend(h, more);
    SuffixAppend(Conversation(h), more, start);
    PrefixAppend(h, more, LeadingSystems(h));
  }

  lemma SuffixAppend(a: seq<Message>, b: seq<Message>, n: nat)
    requires n <= |a|
    ensures (a + b)[n..] == a[n..] + b
  {
  }

  lemma PrefixAppend(a: seq<Message>, b: seq<Message>, n: nat)
    requires n <= |a|
    ensures (a + b)[..n] == a[..n]
  {
  }

  /**
   In terms of the planned history: when its last segment does not open with a
   system message, the commit of any valid extension is valid if and only if the
   planned history does not end in two tool messages with no system message at
   its beginning.
   */
  lemma {:induction false} CommittedHistoryIsWhole(h: seq<Message>, more: seq<Message>)
    requires Plannable(h) && ValidContext(h + more) && ProperMessages(h + more)
    requires TimelineOf(h) != [] && TailOf(h) != [] && TailOf(h)[0].role != System
    ensures Opens(h, h + more) && |SourceOf(h)| <= |Conversation(h + more)|
    ensures Kept(h, h + more) == h[..LeadingSystems(h)] + TailOf(h) + more
    ensures ValidContext(Kept(h, h + more)) <==>
              !(LeadingSystems(h) == 0 && |h| >= 2 && h[|h| - 2].role == Tool && h[|h| - 1].role == Tool)
  {
    hide Plannable, TimelineOf, TailOf, SourceOf, ValidContext, ProperMessages, Opens;
    var start := PlannableMeaning(h);
    OpensItself(h);
    AppendKeepsOpen(h, h, more);
    ConversationAppend(h, more);
    KeptAfterAppend(h, more);
    LeadingSystemsUnique(TailOf(h) + more, 0);
    AssociativeMessages(h[..LeadingSystems(h)], TailOf(h), more);
    TailOpensWithTool(h);
    CommitIsValidExactly(h, h + more);
  }

  // ---- Runs between planning and the summary ----

  /** What a failed automatic turn puts back; the job and the epoch are not part of it. */
  datatype Saved = Saved(history: seq<Message>, projection: Projection)

  datatype RunState = RunState(agent: AgentState, saved: Option<Saved>)

  datatype Event =
    | Appended(messages: seq<Message>)
    | Ticked
    | Healed
    | Checkpoint
    | RolledBack
    | Rewinds(turns: nat)            // only between turns: nothing is left to roll back to
    | CompactsNow(summary: string)   // only between turns: planned, summarized and committed at once

  /** A compaction on demand leaves the job in the background alone. */
  function CompactedNow(s: AgentState, summary: string): AgentState {
    var t := Synced(s);
    match MakePlan(t.projection, t.projection.generation)
    case Err(_) => t
    case Ok(plan) =>
      match Committed(t, plan, JobResult(plan, summary))
      case None => t
      case Some(u) => u
  }

  function Step(s: RunState, e: Event): RunState {
    match e
    case Appended(ms) => s.(agent := s.agent.(history := s.agent.history + ms))
    case Ticked => s.(agent := Polled(s.agent, Running))
    case Healed => s.(agent := s.agent.(history := Repair(s.agent.history)))
    case Checkpoint => s.(saved := Some(Saved(s.agent.history, s.agent.projection)))
    case RolledBack =>
      (match s.saved
       case Some(c) => RunState(s.agent.(history := c.history, projection := c.projection), None)
       case None => s)
    case Rewinds(turns) => if turns == 0 then s else RunState(AfterRewind(s.agent, turns), None)
    case CompactsNow(summary) => RunState(CompactedNow(s.agent, summary), None)
  }

  function Run(s: RunState, events: seq<Event>): RunState {
    if events == [] then s
    else Step(Run(s, events[..|events| - 1]), events[|events| - 1])
  }

  predicate IsRewind(e: Event) {
    e.Rewinds? && e.turns > 0
  }

  predicate RewindFree(events: seq<Event>) {
    forall i :: 0 <= i < |events| ==> !IsRewind(events[i])
  }

  lemma CompactedNowKeepsJob(s: AgentState, e: Event)
    ensures e.CompactsNow? ==> CompactedNow(s, e.summary).job == s.job && CompactedNow(s, e.summary).epoch == s.epoch
  {
    hide TimelineOf, MakePlan, Apply;
  }

  /** No event but a rewind touches the job or the epoch; a rewind takes the job away for good. */
  lemma {:induction false} JobOverRun(s: RunState, events: seq<Event>)
    ensures var t := Run(s, events);
            if RewindFree(events) then t.agent.job == s.agent.job && t.agent.epoch == s.agent.epoch
            else t.agent.job.None?
    decreases |events|
  {
    hide Repair, TimelineOf, Rewound, CompactedNow;
    if events != [] {
      var n := |events| - 1;
      CompactedNowKeepsJob(Run(s, events[..n]).agent, events[n]);
      JobOverRun(s, events[..n]);
      assert forall i :: 0 <= i < n ==> events[..n][i] == events[i];
      assert RewindFree(events) <==> RewindFree(events[..n]) && !IsRewind(events[n]);
    }
  }

  lemma {:induction false} ScheduledPlan(s: AgentState)
    requires s.job.None? && Plannable(s.history)
    ensures var p := Synced(s).projection;
            && MakePlan(p, p.generation).Ok?
            && Scheduled(s) == Synced(s).(job := Some(Job(s.epoch, MakePlan(p, p.generation).value)))
  {
    TimelineContents(s.history);
    PlanCoversAllButLast(NewProjection(TimelineOf(s.history)), 0);
    PlanCoversAllButLast(Synced(s).projection, s.projection.generation);
  }

  /** A compaction on demand that takes effect makes every plan of that moment stale. */
  lemma {:induction false} CompactedNowExactly(s: AgentState, summary: string)
    ensures var t := CompactedNow(s, summary);
            if Plannable(s.history) && s.projection.generation < U64_MAX then
              && t.projection.generation == s.projection.generation + 1
              && |SourceOf(s.history)| <= |Conversation(s.history)|
              && t.history == Kept(s.history, s.history)
              && t.projection.segments == TimelineOf(t.history)
            else t == Synced(s)
  {
    hide TimelineOf, Flatten, LeadingSystems, SourceOf, Conversation, MakePlan;
    PlansAgree(s);
    var p := Synced(s).projection;
    if MakePlan(p, p.generation).Ok? {
      OpensItself(s.history);
      AppliesExactly(s.history, p, p, summary);
      OpensContents(s.history, s.history);
    }
  }

  /** Whether a plan can be made depends on the history alone. */
  lemma PlansAgree(s: AgentState)
    ensures var p := Synced(s).projection; MakePlan(p, p.generation).Ok? <==> Plannable(s.history)
  {
    TimelineContents(s.history);
    PlanCoversAllButLast(NewProjection(TimelineOf(s.history)), 0);
    PlanCoversAllButLast(Synced(s).projection, s.projection.generation);
  }

  /** The agent after the summary arrives. */
  function Summarized(s: AgentState, t: AgentState, summary: string): AgentState
    requires Scheduled(s).job.Some?
  {
    Polled(t, Finished(JobResult(Scheduled(s).job.value.plan, summary)))
  }

  /**
   Whatever happens between planning on `s` and the summary: it is committed if
   and only if nothing was rewound, the generation is still the planned one and
   the planned segments still open the timeline. A commit leaves the leading
   system messages and what follows the planned messages; otherwise history,
   generation and snapshots stay as they were.
   */
  lemma {:induction false} CommitsExactlyWhenUnchanged(s: AgentState, saved: Option<Saved>, events: seq<Event>, summary: string)
    requires s.job.None? && Plannable(s.history)
    ensures Scheduled(s).job.Some?
    ensures var t := Run(RunState(Scheduled(s), saved), events).agent;
            var after := Summarized(s, t, summary);
            && (Opens(s.history, t.history) ==> |SourceOf(s.history)| <= |Conversation(t.history)|)
            && after.job.None?
            && if RewindFree(events) && t.projection.generation == s.projection.generation < U64_MAX
                  && Opens(s.history, t.history) then
                 && after.history == Kept(s.history, t.history)
                 && after.projection.generation == t.projection.generation + 1
                 && after.projection.segments == TimelineOf(after.history)
               else
                 && after.history == t.history
                 && after.projection.generation == t.projection.generation
                 && after.projection.snapshots == t.projection.snapshots
  {
    hide Plannable, MakePlan, Run, Apply, TimelineOf, Opens, SourceOf, Kept, Conversation, Committed;
    ScheduledPlan(s);
    JobOverRun(RunState(Scheduled(s), saved), events);
    var t := Run(RunState(Scheduled(s), saved), events).agent;
    if RewindFree(events) {
      CommitExactly(s.history, Synced(s).projection, t, s.epoch, summary);
    } else {
      OpensBound(s.history, t.history);
    }
  }

  lemma OpensBound(h0: seq<Message>, h: seq<Message>)
    requires Plannable(h0)
    ensures Opens(h0, h) ==> |SourceOf(h0)| <= |Conversation(h)|
  {
    hide Plannable, Opens, SourceOf, Conversation;
    if Opens(h0, h) {
      OpensContents(h0, h);
    }
  }

  // ---- Appending and healing ----

  predicate Forward(e: Event) {
    e.Appended? || e.Ticked? || e.Healed? || e.Checkpoint?
  }

  /** The history after appending and healing in turn. */
  function Grown(h: seq<Message>, events: seq<Event>): seq<Message> {
    if events == [] then h
    else
      var n := |events| - 1;
      match events[n]
      case Appended(ms) => Grown(h, events[..n]) + ms
      case Healed => Repair(Grown(h, events[..n]))
      case _ => Grown(h, events[..n])
  }

  lemma {:induction false} GrownRun(s: RunState, events: seq<Event>)
    requires forall i :: 0 <= i < |events| ==> Forward(events[i])
    ensures var t := Run(s, events).agent;
            && t.history == Grown(s.agent.history, events)
            && t.projection.generation == s.agent.projection.generation
    decreases |events|
  {
    hide Repair, TimelineOf;
    if events != [] {
      GrownRun(s, events[..|events| - 1]);
    }
  }

  lemma {:induction false} AppendKeepsSystems(h: seq<Message>, more: seq<Message>)
    requires PlainSystems(h) && Conversation(h) != []
    ensures PlainSystems(h + more)
  {
    ConversationAppend(h, more);
  }

  lemma {:induction false} GrownOpens(h0: seq<Message>, events: seq<Event>)
    requires Plannable(h0) && PlainSystems(h0)
    ensures OpensShort(h0, Grown(h0, events)) && PlainSystems(Grown(h0, events))
    decreases |events|
  {
    hide Plannable, Repair, PlainSystems, Opens, SourceOf, Conversation;
    if events == [] {
      OpensItself(h0);
    } else {
      var n := |events| - 1;
      GrownOpens(h0, events[..n]);
      var h := Grown(h0, events[..n]);
      match events[n]
      case Appended(ms) =>
        AppendKeepsOpen(h0, h, ms);
        NotAllSystems(h0, h);
        AppendKeepsSystems(h, ms);
      case Healed =>
        HealingKeepsOpen(h0, h);
        RepairConversation(h);
      case _ =>
    }
  }

  lemma NotAllSystems(h0: seq<Message>, h: seq<Message>)
    requires OpensShort(h0, h)
    ensures Conversation(h) != []
  {
  }

  /**
   Background compaction commutes with appending and healing: neither ever
   invalidates a plan. The commit leaves the leading system messages and all of
   the grown history behind the planned messages (less system messages that open
   it).
   */
  lemma {:induction false} CommitCommutesWithGrowth(s: AgentState, saved: Option<Saved>, events: seq<Event>, summary: string)
    requires s.job.None? && s.projection.generation < U64_MAX
    requires Plannable(s.history) && PlainSystems(s.history)
    requires forall i :: 0 <= i < |events| ==> Forward(events[i])
    ensures Scheduled(s).job.Some?
    ensures var h := Grown(s.history, events);
            var after := Summarized(s, Run(RunState(Scheduled(s), saved), events).agent, summary);
            && |SourceOf(s.history)| <= |Conversation(h)|
            && Conversation(h)[..|SourceOf(s.history)|] == SourceOf(s.history)
            && after.history == Kept(s.history, h)
            && after.projection.generation == s.projection.generation + 1
            && after.projection.segments == TimelineOf(after.history)
            && after.job.None?
  {
    hide Plannable, MakePlan, Run, TimelineOf, SourceOf, Kept, Conversation, PlainSystems, Grown, Opens, Polled;
    ScheduledPlan(s);
    GrownRun(RunState(Scheduled(s), saved), events);
    GrownOpens(s.history, events);
    OpensContents(s.history, Grown(s.history, events));
    CommitsExactlyWhenUnchanged(s, saved, events, summary);
  }

  /** All messages appended by a run. */
  function AppendedBy(events: seq<Event>): seq<Message> {
    if events == [] then []
    else
      var e := events[|events| - 1];
      AppendedBy(events[..|events| - 1]) + (if e.Appended? then e.messages else [])
  }

  lemma {:induction false} GrownByAppending(h: seq<Message>, events: seq<Event>)
    requires forall i :: 0 <= i < |events| ==> Forward(events[i]) && !events[i].Healed?
    ensures Grown(h, events) == h + AppendedBy(events)
    decreases |events|
  {
    if events == [] {
      assert h + [] == h;
    } else {
      var n := |events| - 1;
      GrownByAppending(h, events[..n]);
      var more := if events[n].Appended? then events[n].messages else [];
      assert h + (AppendedBy(events[..n]) + more) == h + AppendedBy(events[..n]) + more;
    }
  }

  /** With appending alone: the leading system messages, the planned history's last segment, and all that was appended. */
  lemma {:induction false} CommitCommutesWithAppends(s: AgentState, saved: Option<Saved>, events: seq<Event>, summary: string)
    requires s.job.None? && s.projection.generation < U64_MAX
    requires Plannable(s.history) && PlainSystems(s.history)
    requires forall i :: 0 <= i < |events| ==> Forward(events[i]) && !events[i].Healed?
    ensures Scheduled(s).job.Some? && TimelineOf(s.history) != []
    ensures var after := Summarized(s, Run(RunState(Scheduled(s), saved), events).agent, summary);
            after.history == s.history[..LeadingSystems(s.history)] + Conversation(TailOf(s.history) + AppendedBy(events))
  {
    hide Plannable, MakePlan, Run, TimelineOf, SourceOf, TailOf, PlainSystems, Grown, Opens, Polled, LeadingSystems, Kept,
         Conversation, AppendedBy;
    GrownByAppending(s.history, events);
    CommitCommutesWithGrowth(s, saved, events, summary);
    KeptAfterAppend(s.history, AppendedBy(events));
  }

  /** Nothing at all of the tail is lost exactly when the last segment does not open with a system message. */
  lemma TailKeptExactly(h: seq<Message>, more: seq<Message>)
    requires Plannable(h)
    ensures TimelineOf(h) != [] && TailOf(h) != []
    ensures Conversation(TailOf(h) + more) == TailOf(h) + more <==> TailOf(h)[0].role != System
  {
    hide Plannable, TimelineOf, TailOf, SourceOf;
    var start := PlannableMeaning(h);
    var kept := TailOf(h) + more;
    assert kept[0] == TailOf(h)[0];
    if TailOf(h)[0].role == System {
      assert LeadingSystems(kept) > 0;
      assert |Conversation(kept)| < |kept|;
    } else {
      LeadingSystemsUnique(kept, 0);
    }
  }

  // ---- Histories whose commit is orphaned ----

  const ASK := Message(User, [Other("go")])
  const CALL := Message(Assistant, [ToolCall("x", "bash", "{}")])
  const RESULT := Message(Tool, [ToolResult("x", "done", true)])
  const NOTE := Message(System, [Other("note")])
  const EMPTY_TOOL := Message(Tool, [Other("")])

  lemma ExchangePaired(h: seq<Message>)
    requires |h| >= 3 && h[..3] == [ASK, CALL, RESULT]
    ensures SafeBoundary(h) >= 3
  {
    assert h[0] == h[..3][0] && h[1] == h[..3][1] && h[2] == h[..3][2];
    var none: set<string> := {};
    assert none + {"x"} == {"x"} && {"x"} - {"x"} == none;
    assert ConsumeParts(ASK, 0, {}) == Some({});
    assert OpenCalls(h, 1) == Some({});
    assert ConsumeParts(CALL, 0, {}) == Some({});
    assert OpenCalls(h, 2) == Some({"x"});
    assert ConsumeParts(RESULT, 0, {"x"}) == Some({"x"});
    assert OpenCalls(h, 3) == Some({});
    assert Paired(h, 3);
  }

  lemma ExchangeGroup(h: seq<Message>)
    requires |h| >= 4 && h[..3] == [ASK, CALL, RESULT] && h[3].role != User
    ensures LeadingSystems(h) == 0 && Conversation(h) == h
    ensures var g := Group(h, 3); |g.segments| == 1 && g.open == [] && |g.segments[0].entries| == 3
  {
    assert h[0] == h[..3][0] && h[1] == h[..3][1] && h[2] == h[..3][2];
    assert Group(h, 1) == Grouping([], [Entry(0, ASK)]);
    assert Group(h, 2) == Grouping([], [Entry(0, ASK), Entry(1, CALL)]);
  }

  lemma ExchangePlannable(h: seq<Message>, last: Segment)
    requires |h| >= 4 && h[..3] == [ASK, CALL, RESULT] && h[3].role != User
    requires ValidProviderRoles(h)
    requires TimelineOf(h) == Group(h, 3).segments + [last]
    ensures Plannable(h) && |SourceOf(h)| == 3
  {
    hide SafeBoundary, ValidProviderRoles;
    ExchangePaired(h);
    ExchangeGroup(h);
    TimelineContents(h);
    var source := Group(h, 3).segments;
    assert Inactive(TimelineOf(h)) == source;
    assert source[1..] == [];
    assert TotalEntries(source) == 3;
    PlanCoversAllButLast(NewProjection(TimelineOf(h)), 0);
    TotalIsFlat(source);
  }

  /** Two tool messages at the end: the commit keeps the second with nothing before it. */
  lemma SecondToolOrphaned()
    ensures var h := [ASK, CALL, RESULT, EMPTY_TOOL];
            && Plannable(h) && ValidContext(h) && ProperMessages(h)
            && Opens(h, h) && |SourceOf(h)| <= |Conversation(h)|
            && Kept(h, h) == [EMPTY_TOOL] && !ValidContext(Kept(h, h))
  {
    var h := [ASK, CALL, RESULT, EMPTY_TOOL];
    ExchangeValid(h);
    ExchangeGroup(h);
    var last := Segment(1, [Entry(3, EMPTY_TOOL)]);
    TimelineShape(h);
    assert Group(h, 3).open + [Entry(3, h[3])] == [Entry(3, EMPTY_TOOL)];
    assert TimelineOf(h) == Group(h, 3).segments + [last];
    ExchangePlannable(h, last);
    OpensItself(h);
    assert h[3..] == [EMPTY_TOOL];
    LeadingSystemsUnique([EMPTY_TOOL], 0);
    assert Conversation([EMPTY_TOOL]) == [EMPTY_TOOL];
    assert Conversation(h)[|SourceOf(h)|..] == [EMPTY_TOOL];
    assert Kept(h, h) == [EMPTY_TOOL];
    assert !ValidAt([EMPTY_TOOL], 0);
  }

  /** A system message behind a finished exchange is dropped, and orphans the tool message behind it. */
  lemma NoteDroppedToolOrphaned()
    ensures var h := [ASK, CALL, RESULT, NOTE, EMPTY_TOOL];
            && Plannable(h) && ValidContext(h) && ProperMessages(h)
            && Opens(h, h) && |SourceOf(h)| <= |Conversation(h)|
            && Kept(h, h) == [EMPTY_TOOL] && !ValidContext(Kept(h, h))
  {
    var h := [ASK, CALL, RESULT, NOTE, EMPTY_TOOL];
    ExchangeValid(h);
    ExchangeGroup(h);
    var last := Segment(1, [Entry(3, NOTE), Entry(4, EMPTY_TOOL)]);
    assert Group(h, 4) == Grouping(Group(h, 3).segments, [Entry(3, NOTE)]);
    TimelineShape(h);
    assert Group(h, 4).open + [Entry(4, h[4])] == [Entry(3, NOTE), Entry(4, EMPTY_TOOL)];
    assert TimelineOf(h) == Group(h, 3).segments + [last];
    ExchangePlannable(h, last);
    OpensItself(h);
    assert h[3..] == [NOTE, EMPTY_TOOL];
    LeadingSystemsUnique([NOTE, EMPTY_TOOL], 1);
    assert Conversation([NOTE, EMPTY_TOOL]) == [EMPTY_TOOL];
    assert Conversation(h)[|SourceOf(h)|..] == [NOTE, EMPTY_TOOL];
    assert Kept(h, h) == [EMPTY_TOOL];
    assert !ValidAt([EMPTY_TOOL], 0);
  }

  lemma ExchangeValid(h: seq<Message>)
    requires h == [ASK, CALL, RESULT, EMPTY_TOOL] || h == [ASK, CALL, RESULT, NOTE, EMPTY_TOOL]
    ensures ValidProviderRoles(h) && ValidContext(h) && ProperMessages(h)
  {
    assert CALL.parts[0].id == "x";
    assert HasCall(CALL, "x");
    assert Answers(CALL, RESULT);
    assert Answers(RESULT, EMPTY_TOOL) && Answers(NOTE, EMPTY_TOOL);
    forall i | 0 <= i < |h|
      ensures ValidAt(h, i)
    {
    }
  }
}
