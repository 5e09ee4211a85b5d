/**
 Choosing how much history to compact (crates/core/src/compaction_selection.rs)
 and its agreement with the planner. The token estimate of a segment is a
 parameter.
 */
module Selection {
  import opened Prelude
  import opened Transcript
  import opened Timeline
  import opened Compaction

  datatype Metadata = Metadata(importance: nat, pinned: bool)

  datatype Config = Config(maxTokens: nat, tailSegments: nat, protectImportance: nat)

  const DEFAULT_CONFIG := Config(U32_MAX, 1, 200)

  /** Estimated tokens of a segment's messages. */
  type Estimate = Segment -> nat

  function MetaAt(metadata: seq<Metadata>, i: nat): Metadata {
    if i < |metadata| then metadata[i] else Metadata(0, false)
  }

  predicate Protected(metadata: seq<Metadata>, config: Config, i: nat) {
    MetaAt(metadata, i).pinned || MetaAt(metadata, i).importance >= config.protectImportance
  }

  function Tokens(estimate: Estimate, segments: seq<Segment>, k: nat): nat
    requires k <= |segments|
  {
    if k == 0 then 0 else Tokens(estimate, segments, k - 1) + estimate(segments[k - 1])
  }

  function EntriesBefore(segments: seq<Segment>, k: nat): nat
    requires k <= |segments|
  {
    if k == 0 then 0 else EntriesBefore(segments, k - 1) + |segments[k - 1].entries|
  }

  /** The newest segments, at least one of them, stay active. */
  function TailStart(segments: seq<Segment>, config: Config): nat {
    var tail := Max(config.tailSegments, 1);
    if |segments| <= tail then 0 else |segments| - tail
  }

  /** The first `k` segments may be compacted together. */
  predicate Eligible(segments: seq<Segment>, metadata: seq<Metadata>, config: Config, estimate: Estimate, k: nat)
    requires k <= |segments|
  {
    && k <= TailStart(segments, config)
    && EntriesBefore(segments, k) <= SafeBoundary(Flatten(segments))
    && (forall i :: 0 <= i < k ==> !Protected(metadata, config, i))
    && (k == 0 || Min(U32_MAX, Tokens(estimate, segments, k)) <= config.maxTokens)
  }

  lemma {:induction false} EntriesMonotone(segments: seq<Segment>, a: nat, b: nat)
    requires a <= b <= |segments|
    ensures EntriesBefore(segments, a) <= EntriesBefore(segments, b)
  {
    if a < b {
      EntriesMonotone(segments, a, b - 1);
    }
  }

  lemma {:induction false} TokensMonotone(estimate: Estimate, segments: seq<Segment>, a: nat, b: nat)
    requires a <= b <= |segments|
    ensures Tokens(estimate, segments, a) <= Tokens(estimate, segments, b)
  {
    if a < b {
      TokensMonotone(estimate, segments, a, b - 1);
    }
  }

  /** Eligibility is lost for good at the first prefix that fails. */
  lemma EligibleDownward(segments: seq<Segment>, metadata: seq<Metadata>, config: Config, estimate: Estimate, a: nat, b: nat)
    requires a <= b <= |segments|
    requires Eligible(segments, metadata, config, estimate, b)
    ensures Eligible(segments, metadata, config, estimate, a)
  {
    EntriesMonotone(segments, a, b);
    TokensMonotone(estimate, segments, a, b);
  }

  /** The longest eligible prefix is selected, whole segments in timeline order. */
  method SelectSegments(segments: seq<Segment>, metadata: seq<Metadata>, config: Config, estimate: Estimate)
    returns (end: nat, total: nat)
    ensures end <= |segments|
    ensures Eligible(segments, metadata, config, estimate, end)
    ensures forall k :: end < k <= |segments| ==> !Eligible(segments, metadata, config, estimate, k)
    ensures total == Min(U32_MAX, Tokens(estimate, segments, end))
  {
    var tailStart := TailStart(segments, config);
    var safe := FindSafeBoundary(Flatten(segments));
    var entries, safeEnd := 0, 0;
    while safeEnd < tailStart
      invariant safeEnd <= tailStart && entries == EntriesBefore(segments, safeEnd) <= safe
      invariant tailStart <= |segments|
    {
      entries := entries + |segments[safeEnd].entries|;
      if entries > safe {
        break;
      }
      safeEnd := safeEnd + 1;
    }
    end, total := 0, 0;
    while end < safeEnd
      invariant end <= safeEnd <= tailStart
      invariant EntriesBefore(segments, end) <= safe
      invariant forall i :: 0 <= i < end ==> !Protected(metadata, config, i)
      invariant total == Min(U32_MAX, Tokens(estimate, segments, end))
      invariant end == 0 || total <= config.maxTokens
    {
      if Protected(metadata, config, end) {
        break;
      }
      var next := Min(U32_MAX, total + estimate(segments[end]));
      if next > config.maxTokens {
        break;
      }
      EntriesMonotone(segments, end + 1, safeEnd);
      total := next;
      end := end + 1;
    }
    if end < |segments| {
      assert !Eligible(segments, metadata, config, estimate, end + 1);
    }
    forall k | end < k <= |segments|
      ensures !Eligible(segments, metadata, config, estimate, k)
    {
      if Eligible(segments, metadata, config, estimate, k) {
        EligibleDownward(segments, metadata, config, estimate, end + 1, k);
      }
    }
  }

  lemma {:induction false} EntriesAreTotal(segments: seq<Segment>, k: nat)
    requires k <= |segments|
    ensures EntriesBefore(segments, k) == TotalEntries(segments[..k])
  {
    if k > 0 {
      EntriesAreTotal(segments, k - 1);
      TotalIsFlat(segments[..k]);
      TotalIsFlat(segments[..k - 1]);
      assert segments[..k] == segments[..k - 1] + [segments[k - 1]];
      FlattenSnoc(segments[..k - 1], segments[k - 1]);
    }
  }

  /**
   Planner and selector agree: whenever the planner succeeds on non-empty
   segments, the default selection without metadata is the planned range.
   */
  lemma PlannerAgrees(p: Projection, expected: nat, estimate: Estimate, end: nat)
    requires NonEmptySegments(p.segments)
    requires MakePlan(p, expected).Ok?
    requires end <= |p.segments|
    requires Eligible(p.segments, [], DEFAULT_CONFIG, estimate, end)
    requires forall k :: end < k <= |p.segments| ==> !Eligible(p.segments, [], DEFAULT_CONFIG, estimate, k)
    ensures MakePlan(p, expected).value.start == 0
    ensures MakePlan(p, expected).value.end == end
  {
    hide MakePlan;
    PlanCoversAllButLast(p, expected);
    var n := |p.segments| - 1;
    EntriesAreTotal(p.segments, n);
    assert Eligible(p.segments, [], DEFAULT_CONFIG, estimate, n);
  }
}
