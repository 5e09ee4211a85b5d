/**
 The durable part of a projection agrees with itself
 (`valid_projection` in crates/core/src/persistence.rs) along every run of
 compactions.
 */
module Provenance {
  import opened Prelude
  import opened Timeline
  import opened Compaction

  predicate CanonicalSummary(text: string) {
    ParseSummary(text).Some? && ParseSummary(text).value != ""
  }

  predicate ValidSnapshot(s: Snapshot, generation: nat) {
    && s.generation == generation
    && s.start <= s.end
    && |s.ids| == s.end - s.start
    && s.sourceEntries != 0
    && CanonicalSummary(s.summary)
  }

  predicate ValidProjection(p: Projection) {
    if p.generation == 0 then p.snapshots == [] && p.snapshot == None
    else
      && (forall i :: 0 <= i < |p.snapshots| - 1 ==> p.snapshots[i].generation < p.snapshots[i + 1].generation)
      && (forall i :: 0 <= i < |p.snapshots| ==> p.snapshots[i].generation <= p.generation)
      && (forall i :: 0 <= i < |p.snapshots| ==> CanonicalSummary(p.snapshots[i].summary))
      && p.snapshot.Some?
      && ValidSnapshot(p.snapshot.value, p.generation)
      && (p.snapshots == [] || p.snapshots[|p.snapshots| - 1] == p.snapshot.value)
  }

  /** Plan and apply at once; a refused compaction changes nothing. */
  function Compact(p: Projection, summary: string): Projection {
    match MakePlan(p, p.generation)
    case Err(_) => p
    case Ok(plan) =>
      match Apply(p, plan, summary)
      case Err(_) => p
      case Ok(next) => next
  }

  datatype Event =
    | Resync(segments: seq<Segment>)
    | Compacts(summary: string)
    | Rewinds(segments: seq<Segment>)
    | Resumes(segments: seq<Segment>)   // the agent is restored from its record

  function Step(p: Projection, e: Event): Projection {
    match e
    case Resync(segments) => p.(segments := segments)
    case Compacts(summary) => Compact(p, summary)
    case Rewinds(segments) => Invalidated(p, segments)
    case Resumes(segments) => Restored(p, segments)
  }

  /** What restoring does with a recorded projection: an invalid one is replaced by a fresh one. */
  function Restored(p: Projection, segments: seq<Segment>): Projection {
    if ValidProjection(p) then p.(segments := segments) else NewProjection(segments)
  }

  function Run(p: Projection, events: seq<Event>): Projection {
    if events == [] then p else Step(Run(p, events[..|events| - 1]), events[|events| - 1])
  }

  /** The shape of the only snapshot a compaction can add. */
  lemma CompactShape(p: Projection, summary: string)
    ensures var q := Compact(p, summary);
            q == p ||
            (&& q.generation == p.generation + 1
             && q.snapshot.Some?
             && q.snapshots == p.snapshots + [q.snapshot.value]
             && var s := q.snapshot.value;
                && s.generation == q.generation
                && s.start <= s.end && |s.ids| == s.end - s.start && s.sourceEntries != 0
                && ParseSummary(s.summary) == Some(Unwrap(summary)))
  {
    hide FormatSummary, ParseSummary;
    SummaryRoundTrip(Unwrap(summary));
  }

  /**
   A compaction of a valid projection stays valid exactly when the summary
   says something. An envelope it echoes is taken off first, so an envelope
   around nothing says nothing.
   */
  lemma {:induction false} CompactKeepsValid(p: Projection, summary: string)
    requires ValidProjection(p)
    ensures ValidProjection(Compact(p, summary)) <==> Compact(p, summary) == p || Unwrap(summary) != ""
    ensures Unwrap(FormatSummary(summary)) == summary
  {
    hide Compact, FormatSummary;
    SummaryRoundTrip(summary);
    assert Unwrap(FormatSummary(summary)) == summary;
    hide ParseSummary, Unwrap;
    CompactShape(p, summary);
    var q := Compact(p, summary);
    if q != p && Unwrap(summary) != "" {
      forall i | 0 <= i < |q.snapshots|
        ensures q.snapshots[i].generation <= q.generation
        ensures CanonicalSummary(q.snapshots[i].summary)
        ensures i < |q.snapshots| - 1 ==> q.snapshots[i].generation < q.snapshots[i + 1].generation
      {
        if i < |p.snapshots| {
          assert q.snapshots[i] == p.snapshots[i];
        }
      }
    }
  }

  // ---- Runs ----

  /** What every run from a fresh projection keeps, whatever its summaries say. */
  ghost predicate Shaped(p: Projection) {
    && (forall i :: 0 <= i < |p.snapshots| - 1 ==> p.snapshots[i].generation < p.snapshots[i + 1].generation)
    && (forall i :: 0 <= i < |p.snapshots| ==> p.snapshots[i].generation <= p.generation)
    && (p.generation == 0 ==> p.snapshot.None?)
    && match p.snapshot
       case None => p.snapshots == []
       case Some(s) =>
         && p.snapshots != [] && p.snapshots[|p.snapshots| - 1] == s
         && s.generation == p.generation
         && s.start <= s.end && |s.ids| == s.end - s.start && s.sourceEntries != 0
  }

  predicate AllCanonical(p: Projection) {
    forall i :: 0 <= i < |p.snapshots| ==> CanonicalSummary(p.snapshots[i].summary)
  }

  lemma ShapedValid(p: Projection)
    requires Shaped(p)
    ensures ValidProjection(p) <==> AllCanonical(p) && (p.generation == 0 || p.snapshot.Some?)
  {
    hide ParseSummary;
  }

  lemma {:induction false} CompactShaped(p: Projection, summary: string)
    requires Shaped(p) && Compact(p, summary) != p
    ensures var q := Compact(p, summary);
            && Shaped(q) && q.snapshot.Some?
            && (AllCanonical(q) <==> AllCanonical(p) && Unwrap(summary) != "")
  {
    hide Compact, ParseSummary, Unwrap;
    CompactShape(p, summary);
    var q := Compact(p, summary);
    var n := |p.snapshots|;
    assert forall i :: 0 <= i < n ==> q.snapshots[i] == p.snapshots[i];
    assert q.snapshots[n].summary == q.snapshot.value.summary;
  }

  /** The compaction at `i` took effect. */
  predicate Effective(p: Projection, events: seq<Event>, i: nat)
    requires i < |events|
  {
    events[i].Compacts? && Run(p, events[..i + 1]) != Run(p, events[..i])
  }

  /** A rewind that no effective compaction and no restore has followed. */
  ghost predicate BareSince(p: Projection, events: seq<Event>, r: nat) {
    && r < |events| && events[r].Rewinds?
    && forall i :: r < i < |events| ==> !events[i].Resumes? && !Effective(p, events, i)
  }

  /** An effective compaction whose summary says nothing, with no rewind and no restore after it. */
  ghost predicate EmptySince(p: Projection, events: seq<Event>, r: nat) {
    && r < |events| && Effective(p, events, r) && Unwrap(events[r].summary) == ""
    && forall i :: r < i < |events| ==> !events[i].Resumes? && !events[i].Rewinds?
  }

  lemma {:induction false} EffectivePrefix(p: Projection, events: seq<Event>, n: nat, i: nat)
    requires i < n <= |events|
    ensures Effective(p, events[..n], i) <==> Effective(p, events, i)
  {
    assert events[..n][..i] == events[..i] && events[..n][..i + 1] == events[..i + 1];
  }

  /** Both marks move on with an event, as that event says. */
  lemma {:induction false} MarksStep(p: Projection, events: seq<Event>)
    requires events != []
    ensures var n, e := |events| - 1, events[|events| - 1];
            var took := Effective(p, events, n);
            && ((exists r :: BareSince(p, events, r)) <==>
                  e.Rewinds? || ((exists r :: BareSince(p, events[..n], r)) && !e.Resumes? && !took))
            && ((exists r :: EmptySince(p, events, r)) <==>
                  (took && Unwrap(e.summary) == "")
                  || ((exists r :: EmptySince(p, events[..n], r)) && !e.Resumes? && !e.Rewinds?))
  {
    hide Run, Unwrap, Effective;
    var n, e := |events| - 1, events[|events| - 1];
    EffectiveAll(p, events, n);
    assert forall i :: 0 <= i < n ==> events[..n][i] == events[i];
    forall r: nat | r < n
      ensures BareSince(p, events, r) <==> BareSince(p, events[..n], r) && !e.Resumes? && !Effective(p, events, n)
      ensures EmptySince(p, events, r) <==> EmptySince(p, events[..n], r) && !e.Resumes? && !e.Rewinds?
    {
    }
    assert BareSince(p, events, n) <==> e.Rewinds?;
    assert EmptySince(p, events, n) <==> Effective(p, events, n) && Unwrap(e.summary) == "" by {
      EffectiveCompacts(p, events, n);
    }
  }

  lemma EffectiveAll(p: Projection, events: seq<Event>, n: nat)
    requires n <= |events|
    ensures forall i: nat :: i < n ==> (Effective(p, events[..n], i) <==> Effective(p, events, i))
  {
    forall i: nat | i < n
      ensures Effective(p, events[..n], i) <==> Effective(p, events, i)
    {
      EffectivePrefix(p, events, n, i);
    }
  }

  lemma EffectiveCompacts(p: Projection, events: seq<Event>, i: nat)
    requires i < |events|
    ensures Effective(p, events, i) ==> events[i].Compacts?
  {
  }

  /** Rewound and not compacted since. */
  predicate Bare(p: Projection) {
    p.generation > 0 && p.snapshot.None?
  }

  /** What one event makes of the two marks. */
  lemma {:induction false} StepShaped(p: Projection, e: Event)
    requires Shaped(p)
    ensures var q := Step(p, e);
            var took := e.Compacts? && Compact(p, e.summary) != p;
            && Shaped(q)
            && (Bare(q) <==> e.Rewinds? || (Bare(p) && !e.Resumes? && !took))
            && (AllCanonical(q) <==>
                  e.Rewinds? || e.Resumes? || (AllCanonical(p) && !(took && Unwrap(e.summary) == "")))
  {
    hide Compact, Unwrap, ParseSummary;
    match e
    case Compacts(summary) =>
      if Compact(p, summary) != p {
        CompactShaped(p, summary);
      }
    case Resumes(_) => ShapedValid(p);
    case _ =>
  }

  lemma {:induction false} RunShaped(segments: seq<Segment>, events: seq<Event>)
    ensures var p, q := NewProjection(segments), Run(NewProjection(segments), events);
            && Shaped(q)
            && (AllCanonical(q) <==> !exists r :: EmptySince(p, events, r))
            && (Bare(q) <==> exists r :: BareSince(p, events, r))
    decreases |events|
  {
    hide Compact, BareSince, EmptySince, Unwrap, Step, Bare, AllCanonical, Shaped, Effective;
    var p := NewProjection(segments);
    if events == [] {
      NoMarks(p);
      FreshShaped(segments);
    } else {
      var n := |events| - 1;
      RunShaped(segments, events[..n]);
      MarksStep(p, events);
      EffectiveLast(p, events);
      StepShaped(Run(p, events[..n]), events[n]);
    }
  }

  lemma FreshShaped(segments: seq<Segment>)
    ensures var p := NewProjection(segments); Shaped(p) && AllCanonical(p) && !Bare(p)
  {
  }

  lemma NoMarks(p: Projection)
    ensures forall r :: !BareSince(p, [], r) && !EmptySince(p, [], r)
  {
  }

  lemma EffectiveLast(p: Projection, events: seq<Event>)
    requires events != []
    ensures var n := |events| - 1;
            Effective(p, events, n) <==>
              events[n].Compacts? && Compact(Run(p, events[..n]), events[n].summary) != Run(p, events[..n])
  {
    hide Compact;
    assert events[..|events|] == events;
  }

  /**
   Provenance after any run of resyncs, compactions, rewinds and restores from a
   fresh projection is valid if and only if no rewind is left without an
   effective compaction or a restore after it, and no effective compaction that
   said nothing is left without a rewind or a restore after it.
   */
  lemma {:induction false} ValidExactly(segments: seq<Segment>, events: seq<Event>)
    ensures var p := NewProjection(segments);
            ValidProjection(Run(p, events)) <==>
              !(exists r :: BareSince(p, events, r)) && !(exists r :: EmptySince(p, events, r))
  {
    hide Run, BareSince, EmptySince, ValidProjection, AllCanonical;
    RunShaped(segments, events);
    ShapedValid(Run(NewProjection(segments), events));
  }

  predicate AllSay(events: seq<Event>) {
    forall i :: 0 <= i < |events| && events[i].Compacts? ==> Unwrap(events[i].summary) != ""
  }

  predicate NoRewind(events: seq<Event>) {
    forall i :: 0 <= i < |events| ==> !events[i].Rewinds?
  }

  /** In particular, without rewinds and with summaries that say something it is always valid. */
  lemma {:induction false} RunsStayValid(segments: seq<Segment>, events: seq<Event>)
    requires AllSay(events) && NoRewind(events)
    ensures ValidProjection(Run(NewProjection(segments), events))
  {
    hide Run, ValidProjection, Unwrap;
    ValidExactly(segments, events);
  }

  /**
   A rewind breaks it: the run of one rewind is invalid, the next compaction
   that takes effect and says something mends it, and so does a restore, which
   forgets the generation and every snapshot before.
   */
  lemma RewindInvalidates(segments: seq<Segment>, cut: seq<Segment>, summary: string)
    ensures var p := NewProjection(segments);
            && !ValidProjection(Run(p, [Rewinds(cut)]))
            && (MakePlan(Invalidated(p, cut), 1).Ok? && Unwrap(summary) != "" ==>
                  ValidProjection(Run(p, [Rewinds(cut), Compacts(summary)])))
            && Run(p, [Rewinds(cut), Resumes(cut)]) == NewProjection(cut)
  {
    hide ParseSummary, Unwrap;
    var p := NewProjection(segments);
    var q := Invalidated(p, cut);
    assert [Rewinds(cut)][..0] == [];
    assert Run(p, [Rewinds(cut)]) == q;
    assert [Rewinds(cut), Compacts(summary)][..1] == [Rewinds(cut)];
    assert [Rewinds(cut), Resumes(cut)][..1] == [Rewinds(cut)];
    if MakePlan(q, 1).Ok? && Unwrap(summary) != "" {
      PlanApplies(q, summary);
      CompactShaped(q, summary);
      ShapedValid(Compact(q, summary));
    }
  }

  /** A plan made now applies now. */
  lemma PlanApplies(p: Projection, summary: string)
    requires MakePlan(p, p.generation).Ok? && p.generation < U64_MAX
    ensures Compact(p, summary) != p
  {
    hide FormatSummary, Unwrap;
  }

  // ---- Runs with automatic turns ----

  /** An automatic turn keeps the projection to go back to; a failure of the turn puts it back. */
  datatype TurnEvent =
    | Plain(e: Event)
    | Wakes
    | Commits   // the provider's output, or the results of its tools
    | Ends
    | Fails

  datatype TurnState = TurnState(projection: Projection, saved: Option<Projection>)

  /** Rewinds and restores come only between turns. */
  predicate BetweenTurns(e: Event) {
    e.Rewinds? || e.Resumes?
  }

  function TurnStep(s: TurnState, e: TurnEvent): TurnState {
    match e
    case Plain(x) => TurnState(Step(s.projection, x), if BetweenTurns(x) then None else s.saved)
    case Wakes => s.(saved := Some(s.projection))
    case Commits => if s.saved.Some? then s.(saved := Some(s.projection)) else s
    case Ends => s.(saved := None)
    case Fails => if s.saved.Some? then TurnState(s.saved.value, None) else s
  }

  function TurnRun(p: Projection, events: seq<TurnEvent>): TurnState {
    if events == [] then TurnState(p, None)
    else TurnStep(TurnRun(p, events[..|events| - 1]), events[|events| - 1])
  }

  /** What is left of a run: its events but those that failures took back, and how many a failure now would leave. */
  datatype Remains = Remains(events: seq<Event>, mark: Option<nat>)

  function RemainsAfter(r: Remains, e: TurnEvent): Remains {
    match e
    case Plain(x) => Remains(r.events + [x], if BetweenTurns(x) then None else r.mark)
    case Wakes => r.(mark := Some(|r.events|))
    case Commits => if r.mark.Some? then r.(mark := Some(|r.events|)) else r
    case Ends => r.(mark := None)
    case Fails => if r.mark.Some? && r.mark.value <= |r.events| then Remains(r.events[..r.mark.value], None) else r
  }

  function Remaining(events: seq<TurnEvent>): Remains {
    if events == [] then Remains([], None)
    else RemainsAfter(Remaining(events[..|events| - 1]), events[|events| - 1])
  }

  /** The state is what the remaining events make of `p`, and so is the one to go back to. */
  predicate RunOf(p: Projection, s: TurnState, r: Remains) {
    && s.projection == Run(p, r.events)
    && match r.mark
       case Some(n) => n <= |r.events| && s.saved == Some(Run(p, r.events[..n]))
       case None => s.saved == None
  }

  lemma {:induction false} StepIsRun(p: Projection, s: TurnState, r: Remains, e: TurnEvent)
    requires RunOf(p, s, r)
    ensures RunOf(p, TurnStep(s, e), RemainsAfter(r, e))
  {
    assert r.events[..|r.events|] == r.events;
    if e.Plain? {
      assert (r.events + [e.e])[..|r.events|] == r.events;
      if r.mark.Some? {
        assert (r.events + [e.e])[..r.mark.value] == r.events[..r.mark.value];
      }
      hide Step;
    } else {
      hide Run;
    }
  }

  lemma {:induction false} RemainingIsRun(p: Projection, events: seq<TurnEvent>)
    ensures RunOf(p, TurnRun(p, events), Remaining(events))
    decreases |events|
  {
    if events != [] {
      hide TurnStep, RemainsAfter, RunOf;
      RemainingIsRun(p, events[..|events| - 1]);
      StepIsRun(p, TurnRun(p, events[..|events| - 1]), Remaining(events[..|events| - 1]), events[|events| - 1]);
    }
  }

  /**
   Provenance after any run with automatic turns is valid if and only if, of the
   events that no failed turn took back, no rewind is left without an effective
   compaction or a restore after it and no empty effective compaction without a
   rewind or a restore.
   */
  lemma {:induction false} ValidWithTurnsExactly(segments: seq<Segment>, events: seq<TurnEvent>)
    ensures var p, left := NewProjection(segments), Remaining(events).events;
            ValidProjection(TurnRun(p, events).projection) <==>
              !(exists r :: BareSince(p, left, r)) && !(exists r :: EmptySince(p, left, r))
  {
    hide Run, TurnRun, BareSince, EmptySince, ValidProjection;
    RemainingIsRun(NewProjection(segments), events);
    ValidExactly(segments, Remaining(events).events);
  }

  function Mended(cut: seq<Segment>, summary: string): seq<TurnEvent> {
    [Plain(Rewinds(cut)), Wakes, Plain(Compacts(summary))]
  }

  lemma {:induction false} MendedRemains(cut: seq<Segment>, summary: string)
    ensures Remaining(Mended(cut, summary)).events == [Rewinds(cut), Compacts(summary)]
    ensures Remaining(Mended(cut, summary) + [Fails]).events == [Rewinds(cut)]
  {
    hide Run, TurnRun;
    var rewound: seq<TurnEvent> := [Plain(Rewinds(cut))];
    var woken := rewound + [Wakes];
    assert Mended(cut, summary) == woken + [Plain(Compacts(summary))];
    assert rewound == [] + rewound;
    RemainingSnoc([], Plain(Rewinds(cut)));
    RemainingSnoc(rewound, Wakes);
    RemainingSnoc(woken, Plain(Compacts(summary)));
    RemainingSnoc(Mended(cut, summary), Fails);
  }

  /** A failed turn takes back the compaction that had mended a rewind. */
  lemma {:induction false} FailureBaresAgain(segments: seq<Segment>, cut: seq<Segment>, summary: string)
    requires MakePlan(Invalidated(NewProjection(segments), cut), 1).Ok? && Unwrap(summary) != ""
    ensures var p := NewProjection(segments);
            && ValidProjection(TurnRun(p, Mended(cut, summary)).projection)
            && !ValidProjection(TurnRun(p, Mended(cut, summary) + [Fails]).projection)
  {
    var p := NewProjection(segments);
    RewindInvalidates(segments, cut, summary);
    MendedRemains(cut, summary);
    hide TurnRun, Run, ValidProjection, Remaining, MakePlan, Mended, Unwrap;
    RemainingIsRun(p, Mended(cut, summary));
    RemainingIsRun(p, Mended(cut, summary) + [Fails]);
  }

  lemma RemainingSnoc(events: seq<TurnEvent>, e: TurnEvent)
    ensures Remaining(events + [e]) == RemainsAfter(Remaining(events), e)
  {
    assert (events + [e])[..|events|] == events;
  }
}
