/**
 Planning and applying a compaction of whole segments
 (crates/core/src/compaction.rs). A digest is modelled as the segments it was
 taken of, that is, as free of collisions.
 */
module Compaction {
  import opened Prelude
  import opened Transcript
  import opened Timeline

  datatype Digest = DigestOf(segments: seq<Segment>)

  datatype Snapshot = Snapshot(
    generation: nat, sourceEntries: nat, digest: Digest, ids: seq<nat>, start: nat, end: nat, summary: string)

  datatype Projection = Projection(
    generation: nat, segments: seq<Segment>, snapshots: seq<Snapshot>, snapshot: Option<Snapshot>)

  function NewProjection(segments: seq<Segment>): Projection {
    Projection(0, segments, [], None)
  }

  /** The projection after a rewind: no snapshots, and the next generation. */
  function Invalidated(p: Projection, segments: seq<Segment>): Projection {
    NewProjection(segments).(generation := SaturatingInc(p.generation))
  }

  datatype Plan = Plan(generation: nat, ids: seq<nat>, start: nat, end: nat, sourceEntries: nat, digest: Digest)

  datatype CompactionError =
    | StaleGeneration(expected: nat, actual: nat)
    | NoSafeBoundary
    | MalformedToolPair
    | StalePlan
    | GenerationOverflow

  // ---- The summary envelope ----

  const OPEN_TAG := "<compaction_summary>\n"
  const CLOSE_TAG := "\n</compaction_summary>"

  function FormatSummary(summary: string): string {
    OPEN_TAG + summary + CLOSE_TAG
  }

  function ParseSummary(text: string): Option<string> {
    if !(OPEN_TAG <= text) then None
    else
      var rest := text[|OPEN_TAG|..];
      if |CLOSE_TAG| <= |rest| && rest[|rest| - |CLOSE_TAG|..] == CLOSE_TAG
      then Some(rest[..|rest| - |CLOSE_TAG|])
      else None
  }

  /** What a returned summary says, without an envelope it may echo. */
  function Unwrap(summary: string): string {
    match ParseSummary(summary)
    case Some(s) => s
    case None => summary
  }

  lemma SummaryRoundTrip(s: string)
    ensures ParseSummary(FormatSummary(s)) == Some(s)
  {
    var text := FormatSummary(s);
    var rest := text[|OPEN_TAG|..];
    assert text[..|OPEN_TAG|] == OPEN_TAG;
    assert rest == s + CLOSE_TAG;
  }

  /** The envelope is the only text that parses: parsing is exactly undoing the format. */
  lemma ParsedIsFormatted(text: string)
    ensures ParseSummary(text).Some? ==> text == FormatSummary(ParseSummary(text).value)
  {
  }

  // ---- Planning ----

  function IdsOf(segments: seq<Segment>): (ids: seq<nat>)
    ensures |ids| == |segments|
  {
    seq(|segments|, i requires 0 <= i < |segments| => segments[i].id)
  }

  /** Entries of the longest run of whole segments that fits in `room`. */
  function FittingEntries(segments: seq<Segment>, room: nat): (n: nat)
    ensures n <= room
  {
    if segments == [] || |segments[0].entries| > room then 0
    else |segments[0].entries| + FittingEntries(segments[1..], room - |segments[0].entries|)
  }

  /** The number of segments that the first `entries` entries fill. */
  function SegmentsFilling(segments: seq<Segment>, entries: nat): (k: nat)
    ensures k <= |segments|
  {
    if segments == [] || |segments[0].entries| > entries then 0
    else if |segments[0].entries| == entries then 1
    else 1 + SegmentsFilling(segments[1..], entries - |segments[0].entries|)
  }

  function TotalEntries(segments: seq<Segment>): nat {
    if segments == [] then 0 else |segments[0].entries| + TotalEntries(segments[1..])
  }

  /** All segments but the active one. */
  function Inactive(segments: seq<Segment>): seq<Segment> {
    if segments == [] then [] else segments[..|segments| - 1]
  }

  predicate HasResult(ms: seq<Message>) {
    exists i, j :: 0 <= i < |ms| && 0 <= j < |ms[i].parts| && ms[i].parts[j].ToolResult?
  }

  function MakePlan(p: Projection, expected: nat): Result<Plan, CompactionError> {
    var ms := Flatten(p.segments);
    if p.generation != expected then Err(StaleGeneration(expected, p.generation))
    else if !ValidProviderRoles(ms) then Err(MalformedToolPair)
    else
      var safe := SafeBoundary(ms);
      var end := FittingEntries(Inactive(p.segments), safe);
      if end == 0 then
        if HasResult(ms) && OpenCalls(ms, |ms|).None? then Err(MalformedToolPair) else Err(NoSafeBoundary)
      else if safe < TotalEntries(Inactive(p.segments)) then Err(MalformedToolPair)
      else
        var k := SegmentsFilling(p.segments, end);
        Ok(Plan(p.generation, IdsOf(p.segments[..k]), 0, k, end, DigestOf(p.segments[..k])))
  }

  function Apply(p: Projection, plan: Plan, summary: string): Result<Projection, CompactionError> {
    if p.generation != plan.generation then Err(StalePlan)
    else if plan.start > plan.end || plan.end > |p.segments| then Err(StalePlan)
    else if IdsOf(p.segments[plan.start..plan.end]) != plan.ids then Err(StalePlan)
    else if DigestOf(p.segments[plan.start..plan.end]) != plan.digest then Err(StalePlan)
    else if p.generation >= U64_MAX then Err(GenerationOverflow)
    else
      var snapshot := Snapshot(p.generation + 1, plan.sourceEntries, plan.digest, plan.ids, plan.start, plan.end,
                               FormatSummary(Unwrap(summary)));
      Ok(Projection(p.generation + 1,
                    p.segments[..plan.start] + p.segments[plan.end..],
                    p.snapshots + [snapshot],
                    Some(snapshot)))
  }

  // ---- The planner's loops ----

  method CountFitting(segments: seq<Segment>, room: nat) returns (end: nat)
    ensures end == FittingEntries(Inactive(segments), room)
  {
    end := 0;
    var n := if |segments| > 0 then |segments| - 1 else 0;
    ghost var all := Inactive(segments);
    for i := 0 to n
      invariant end <= room
      invariant FittingEntries(all, room) == end + FittingEntries(all[i..], room - end)
    {
      assert all[i..][1..] == all[i + 1..];
      if end + |segments[i].entries| > room {
        break;
      }
      end := end + |segments[i].entries|;
    }
  }

  method CountFilling(segments: seq<Segment>, entries: nat) returns (k: nat)
    requires entries > 0
    ensures k == SegmentsFilling(segments, entries)
  {
    k := 0;
    var sourceEnd := 0;
    for i := 0 to |segments|
      invariant k == i && sourceEnd < entries
      invariant SegmentsFilling(segments, entries) == k + SegmentsFilling(segments[i..], entries - sourceEnd)
    {
      assert segments[i..][1..] == segments[i + 1..];
      if sourceEnd + |segments[i].entries| > entries {
        break;
      }
      sourceEnd := sourceEnd + |segments[i].entries|;
      k := k + 1;
      if sourceEnd == entries {
        break;
      }
    }
  }

  method SumEntries(segments: seq<Segment>) returns (n: nat)
    ensures n == TotalEntries(segments)
  {
    n := 0;
    for i := 0 to |segments|
      invariant TotalEntries(segments) == n + TotalEntries(segments[i..])
    {
      assert segments[i..][1..] == segments[i + 1..];
      n := n + |segments[i].entries|;
    }
  }

  method PlanCompaction(p: Projection, expected: nat) returns (r: Result<Plan, CompactionError>)
    ensures r == MakePlan(p, expected)
  {
    if p.generation != expected {
      return Err(StaleGeneration(expected, p.generation));
    }
    var ms := Flatten(p.segments);
    if !ValidProviderRoles(ms) {
      return Err(MalformedToolPair);
    }
    var safe := FindSafeBoundary(ms);
    var end := CountFitting(p.segments, safe);
    if end == 0 {
      return Err(if HasResult(ms) && OpenCalls(ms, |ms|).None? then MalformedToolPair else NoSafeBoundary);
    }
    var whole := SumEntries(Inactive(p.segments));
    if safe < whole {
      return Err(MalformedToolPair);
    }
    var k := CountFilling(p.segments, end);
    r := Ok(Plan(p.generation, IdsOf(p.segments[..k]), 0, k, end, DigestOf(p.segments[..k])));
  }

  // ---- What a plan covers ----

  lemma {:induction false} TotalIsFlat(segments: seq<Segment>)
    ensures TotalEntries(segments) == |Flatten(segments)|
    decreases |segments|
  {
    if segments != [] {
      TotalIsFlat(segments[1..]);
      assert segments == [segments[0]] + segments[1..];
      FlattenConcat([segments[0]], segments[1..]);
      assert [segments[0]] == [] + [segments[0]];
      FlattenSnoc([], segments[0]);
    }
  }

  lemma {:induction false} FittingAll(segments: seq<Segment>, room: nat)
    ensures TotalEntries(segments) <= room ==> FittingEntries(segments, room) == TotalEntries(segments)
    decreases |segments|
  {
    if segments != [] && |segments[0].entries| <= room {
      FittingAll(segments[1..], room - |segments[0].entries|);
    }
  }

  lemma {:induction false} FillingPrefix(segments: seq<Segment>, k: nat)
    requires 0 < k <= |segments| && NonEmptySegments(segments)
    ensures SegmentsFilling(segments, TotalEntries(segments[..k])) == k
    decreases |segments|
  {
    assert segments[..k][0] == segments[0];
    assert segments[..k][1..] == segments[1..][..k - 1];
    if k > 1 {
      assert segments[1..][0].entries != [];
      FillingPrefix(segments[1..], k - 1);
    } else {
      assert segments[..1][1..] == [];
    }
  }

  /**
   On a timeline of non-empty segments a plan exists exactly when there is a
   history before the active segment and tool pairing is sound up to it; the
   source is then every segment but the active one.
   */
  lemma PlanCoversAllButLast(p: Projection, expected: nat)
    requires NonEmptySegments(p.segments)
    ensures MakePlan(p, expected).Ok? <==>
      && p.generation == expected
      && |p.segments| >= 2
      && ValidProviderRoles(Flatten(p.segments))
      && TotalEntries(Inactive(p.segments)) <= SafeBoundary(Flatten(p.segments))
    ensures MakePlan(p, expected).Ok? ==>
      var plan := MakePlan(p, expected).value;
      && plan.start == 0
      && plan.end == |p.segments| - 1
      && plan.generation == p.generation
      && plan.ids == IdsOf(Inactive(p.segments))
      && plan.digest == DigestOf(Inactive(p.segments))
      && plan.sourceEntries == |Flatten(Inactive(p.segments))| > 0
  {
    var ms := Flatten(p.segments);
    var source := Inactive(p.segments);
    var safe := SafeBoundary(ms);
    FittingAll(source, safe);
    TotalIsFlat(source);
    if |p.segments| >= 2 {
      assert source[0] == p.segments[0];
      if TotalEntries(source) <= safe {
        FillingPrefix(p.segments, |p.segments| - 1);
      }
    }
  }
}
