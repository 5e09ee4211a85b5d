/**
 The segmentation of a conversation that compaction works on
 (`timeline_from_history` in crates/core/src/agent.rs): the leading system
 messages stay out, a segment ends behind a tool message or before a user
 message, and what is appended later changes no segment but the last. So a plan
 made on a timeline can be found again in a longer one.
 */
module Timeline {
  import opened Prelude
  import opened Transcript

  datatype Entry = Entry(turn: nat, message: Message)

  /** A segment; the number `id` stands for the name "segment-<id>". */
  datatype Segment = Segment(id: nat, entries: seq<Entry>)

  // ---- Leading system messages ----

  function LeadingSystems(h: seq<Message>): (n: nat)
    ensures n <= |h|
    ensures forall i :: 0 <= i < n ==> h[i].role == System
    ensures n < |h| ==> h[n].role != System
  {
    if h == [] || h[0].role != System then 0
    else
      var n := LeadingSystems(h[1..]);
      assert forall i :: 0 < i <= n ==> h[i] == h[1..][i - 1];
      1 + n
  }

  /** The conversation proper: everything after the leading system messages. */
  function Conversation(h: seq<Message>): seq<Message> {
    h[LeadingSystems(h)..]
  }

  lemma LeadingSystemsUnique(h: seq<Message>, n: nat)
    requires n <= |h|
    requires forall i :: 0 <= i < n ==> h[i].role == System
    requires n < |h| ==> h[n].role != System
    ensures LeadingSystems(h) == n
  {
  }

  // ---- Grouping ----

  /** A segment ends after message `i`: it holds tool results, or a user message comes next. */
  predicate EndsSegment(ms: seq<Message>, i: nat)
    requires i < |ms|
  {
    ms[i].role == Tool || (i + 1 < |ms| && ms[i + 1].role == User)
  }

  /** The segments closed so far and the entries of the open one. */
  datatype Grouping = Grouping(segments: seq<Segment>, open: seq<Entry>)

  function Group(ms: seq<Message>, n: nat): Grouping
    requires n <= |ms|
  {
    if n == 0 then Grouping([], [])
    else
      var g := Group(ms, n - 1);
      var open := g.open + [Entry(n - 1, ms[n - 1])];
      if EndsSegment(ms, n - 1) then Grouping(g.segments + [Segment(|g.segments|, open)], [])
      else Grouping(g.segments, open)
  }

  function Closed(g: Grouping): seq<Segment> {
    if g.open == [] then g.segments else g.segments + [Segment(|g.segments|, g.open)]
  }

  /** The timeline of a history. */
  function TimelineOf(h: seq<Message>): seq<Segment> {
    var ms := Conversation(h);
    Closed(Group(ms, |ms|))
  }

  method TimelineFromHistory(history: seq<Message>) returns (segments: seq<Segment>)
    ensures segments == TimelineOf(history)
  {
    var start := 0;
    while start < |history| && history[start].role == System
      invariant 0 <= start <= |history|
      invariant forall i :: 0 <= i < start ==> history[i].role == System
    {
      start := start + 1;
    }
    LeadingSystemsUnique(history, start);
    var ms := history[start..];
    segments := [];
    var entries: seq<Entry> := [];
    for turn := 0 to |ms|
      invariant Group(ms, turn) == Grouping(segments, entries)
    {
      entries := entries + [Entry(turn, ms[turn])];
      if ms[turn].role == Tool || (turn + 1 < |ms| && ms[turn + 1].role == User) {
        segments := segments + [Segment(|segments|, entries)];
        entries := [];
      }
    }
    if entries != [] {
      segments := segments + [Segment(|segments|, entries)];
    }
  }

  // ---- Contents ----

  function MessagesOf(entries: seq<Entry>): (ms: seq<Message>)
    ensures |ms| == |entries|
    ensures forall i :: 0 <= i < |ms| ==> ms[i] == entries[i].message
  {
    seq(|entries|, i requires 0 <= i < |entries| => entries[i].message)
  }

  /** The messages of a run of segments, in order. */
  function Flatten(segments: seq<Segment>): seq<Message> {
    if segments == [] then []
    else Flatten(segments[..|segments| - 1]) + MessagesOf(segments[|segments| - 1].entries)
  }

  lemma FlattenSnoc(segments: seq<Segment>, s: Segment)
    ensures Flatten(segments + [s]) == Flatten(segments) + MessagesOf(s.entries)
  {
    assert (segments + [s])[..|segments|] == segments;
  }

  lemma {:induction false} FlattenConcat(a: seq<Segment>, b: seq<Segment>)
    ensures Flatten(a + b) == Flatten(a) + Flatten(b)
    decreases |b|
  {
    if b == [] {
      assert a + b == a;
    } else {
      hide MessagesOf, Flatten;
      var n := |b| - 1;
      assert a + b == a + b[..n] + [b[n]];
      assert b == b[..n] + [b[n]];
      FlattenSnoc(a + b[..n], b[n]);
      FlattenSnoc(b[..n], b[n]);
      FlattenConcat(a, b[..n]);
    }
  }

  predicate NonEmptySegments(segments: seq<Segment>) {
    forall i :: 0 <= i < |segments| ==> segments[i].entries != []
  }

  lemma MessagesSnoc(entries: seq<Entry>, e: Entry)
    ensures MessagesOf(entries + [e]) == MessagesOf(entries) + [e.message]
  {
  }

  lemma SliceSnoc(ms: seq<Message>, i: nat, n: nat)
    requires i <= n < |ms|
    ensures ms[i..n] + [ms[n]] == ms[i..n + 1]
  {
  }

  lemma SliceJoin(ms: seq<Message>, i: nat, n: nat)
    requires i <= n <= |ms|
    ensures ms[..i] + ms[i..n] == ms[..n]
  {
  }

  /** The open entries are the messages since the last segment end. */
  lemma {:induction false} GroupOpen(ms: seq<Message>, n: nat)
    requires n <= |ms|
    ensures var g := Group(ms, n);
            && |g.open| <= n
            && MessagesOf(g.open) == ms[n - |g.open|..n]
            && (0 < n - |g.open| ==> EndsSegment(ms, n - |g.open| - 1))
  {
    if n > 0 {
      GroupOpen(ms, n - 1);
      var g := Group(ms, n - 1);
      hide MessagesOf;
      MessagesSnoc(g.open, Entry(n - 1, ms[n - 1]));
      SliceSnoc(ms, n - 1 - |g.open|, n - 1);
      if EndsSegment(ms, n - 1) {
        NoMessages();
        assert ms[n..n] == [];
      }
    }
  }

  lemma NoMessages()
    ensures MessagesOf([]) == []
  {
  }

  /** Closing a segment after message `n` accounts for every message up to it. */
  lemma CloseContents(ms: seq<Message>, n: nat)
    requires n < |ms| && EndsSegment(ms, n)
    requires var g := Group(ms, n);
             |g.open| <= n && Flatten(g.segments) == ms[..n - |g.open|]
    ensures Flatten(Group(ms, n + 1).segments) == ms[..n + 1]
  {
    hide MessagesOf, Flatten;
    var g := Group(ms, n);
    var last := Segment(|g.segments|, g.open + [Entry(n, ms[n])]);
    FlattenSnoc(g.segments, last);
    LastMessages(ms, n);
    SliceJoin(ms, n - |g.open|, n + 1);
  }

  /** Grouping loses, repeats and reorders nothing. */
  lemma {:induction false} GroupContents(ms: seq<Message>, n: nat)
    requires n <= |ms|
    ensures var g := Group(ms, n);
            && |g.open| <= n
            && Flatten(g.segments) == ms[..n - |g.open|]
            && NonEmptySegments(g.segments)
  {
    hide MessagesOf;
    if n > 0 {
      GroupContents(ms, n - 1);
      if EndsSegment(ms, n - 1) {
        CloseContents(ms, n - 1);
      }
    }
  }

  /** The entries of the segment that message `n` closes, or leaves open at the end. */
  lemma {:induction false} LastMessages(ms: seq<Message>, n: nat)
    requires n < |ms|
    ensures var open := Group(ms, n).open;
            && |open| <= n
            && MessagesOf(open + [Entry(n, ms[n])]) == ms[n - |open|..n + 1]
  {
    hide MessagesOf;
    GroupOpen(ms, n);
    var open := Group(ms, n).open;
    MessagesSnoc(open, Entry(n, ms[n]));
    SliceSnoc(ms, n - |open|, n);
  }

  /** The last segment of a non-empty conversation, however its last message closes. */
  lemma TimelineShape(ms: seq<Message>)
    requires ms != []
    ensures var g := Group(ms, |ms| - 1);
            Closed(Group(ms, |ms|)) == g.segments + [Segment(|g.segments|, g.open + [Entry(|ms| - 1, ms[|ms| - 1])])]
  {
  }

  /** The last segment starts after a segment end, and the timeline splits the conversation there. */
  lemma LastSegmentStart(h: seq<Message>) returns (start: nat)
    requires Conversation(h) != []
    ensures var ms := Conversation(h);
            var t := TimelineOf(h);
            && start < |ms|
            && t != []
            && Flatten(t[..|t| - 1]) == ms[..start]
            && MessagesOf(t[|t| - 1].entries) == ms[start..]
            && (0 < start ==> EndsSegment(ms, start - 1))
            && NonEmptySegments(t)
  {
    hide MessagesOf, Flatten;
    var ms := Conversation(h);
    var n := |ms| - 1;
    GroupContents(ms, n);
    GroupOpen(ms, n);
    LastMessages(ms, n);
    TimelineShape(ms);
    var g := Group(ms, n);
    var t := TimelineOf(h);
    assert t[..|t| - 1] == g.segments;
    start := n - |g.open|;
    assert ms[start..n + 1] == ms[start..];
  }

  /** A timeline holds the conversation exactly. */
  lemma TimelineContents(h: seq<Message>)
    ensures Flatten(TimelineOf(h)) == Conversation(h)
    ensures NonEmptySegments(TimelineOf(h))
    ensures TimelineOf(h) == [] <==> Conversation(h) == []
  {
    var ms := Conversation(h);
    if ms != [] {
      var start := LastSegmentStart(h);
      var t := TimelineOf(h);
      hide MessagesOf, Flatten;
      FlattenSnoc(t[..|t| - 1], t[|t| - 1]);
      assert t == t[..|t| - 1] + [t[|t| - 1]];
      assert ms == ms[..start] + ms[start..];
    }
  }

  // ---- Appending ----

  lemma {:induction false} GroupAppend(ms: seq<Message>, more: seq<Message>, n: nat)
    requires n < |ms|
    ensures Group(ms + more, n) == Group(ms, n)
  {
    if n > 0 {
      GroupAppend(ms, more, n - 1);
    }
  }

  lemma {:induction false} GroupGrows(ms: seq<Message>, n: nat, m: nat)
    requires n <= m <= |ms|
    ensures Group(ms, n).segments <= Group(ms, m).segments
  {
    if n < m {
      GroupGrows(ms, n, m - 1);
    }
  }

  lemma ConversationAppend(h: seq<Message>, more: seq<Message>)
    requires Conversation(h) != []
    ensures LeadingSystems(h + more) == LeadingSystems(h)
    ensures Conversation(h + more) == Conversation(h) + more
  {
    LeadingSystemsUnique(h + more, LeadingSystems(h));
  }

  /** Appending messages keeps every segment but the last. */
  lemma TimelineAppend(h: seq<Message>, more: seq<Message>)
    requires Conversation(h) != []
    ensures var t := TimelineOf(h);
            var u := TimelineOf(h + more);
            0 < |t| <= |u| && u[..|t| - 1] == t[..|t| - 1]
  {
    var ms := Conversation(h);
    var n := |ms| - 1;
    ConversationAppend(h, more);
    var ms' := ms + more;
    GroupAppend(ms, more, n);
    TimelineShape(ms);
    TimelineShape(ms');
    GroupGrows(ms', n, |ms'| - 1);
    var g := Group(ms, n);
    var g' := Group(ms', |ms'| - 1);
    assert g'.segments[..|g.segments|] == g.segments;
  }

  // ---- Segment boundaries ----

  /** Where the first `n` closed segments end: a point at which nothing is open. */
  lemma {:induction false} GroupBoundary(ms: seq<Message>, m: nat, n: nat) returns (b: nat)
    requires m <= |ms| && n <= |Group(ms, m).segments|
    ensures b <= m && Group(ms, b) == Grouping(Group(ms, m).segments[..n], [])
    ensures 0 < n ==> 0 < b && EndsSegment(ms, b - 1)
  {
    var g := Group(ms, m);
    if n == |g.segments| && g.open == [] {
      b := m;
      assert g.segments[..n] == g.segments;
    } else {
      var before := Group(ms, m - 1);
      assert before.segments <= g.segments;
      b := GroupBoundary(ms, m - 1, n);
      assert before.segments[..n] == g.segments[..n];
    }
  }

  /** Grouping up to `n` looks no further than the role of message `n`. */
  lemma {:induction false} GroupLocal(ms: seq<Message>, ms': seq<Message>, n: nat, b: nat)
    requires n <= b < |ms| && b < |ms'|
    requires ms[..b] == ms'[..b] && ms[b].role == ms'[b].role
    ensures Group(ms', n) == Group(ms, n)
  {
    if n > 0 {
      GroupLocal(ms, ms', n - 1, b);
      assert ms[n - 1] == ms[..b][n - 1] && ms'[n - 1] == ms'[..b][n - 1];
      if n < b {
        assert ms[n] == ms[..b][n] && ms'[n] == ms'[..b][n];
      }
    }
  }

  /** The first segments of a timeline hold a beginning of the conversation, up to a segment end or all of it. */
  lemma {:induction false} TimelineBoundary(h: seq<Message>, n: nat) returns (b: nat)
    requires n <= |TimelineOf(h)|
    ensures var ms, t := Conversation(h), TimelineOf(h);
            && b <= |ms|
            && Flatten(t[..n]) == ms[..b] && Flatten(t[n..]) == ms[b..]
            && (b < |ms| ==> n < |t| && Group(ms, b) == Grouping(t[..n], []) && (0 < n ==> 0 < b && EndsSegment(ms, b - 1)))
  {
    hide Flatten, MessagesOf;
    var ms, t := Conversation(h), TimelineOf(h);
    TimelineContents(h);
    assert t == t[..n] + t[n..];
    FlattenConcat(t[..n], t[n..]);
    if n == |t| {
      b := |ms|;
      assert t[..n] == t;
      NothingFlat();
    } else {
      var m := |ms| - 1;
      TimelineShape(ms);
      assert t[..n] == Group(ms, m).segments[..n];
      b := GroupBoundary(ms, m, n);
      GroupContents(ms, b);
      assert ms[..b] + Flatten(t[n..]) == ms;
      assert Flatten(t[n..]) == ms[b..] by {
        assert (ms[..b] + Flatten(t[n..]))[b..] == Flatten(t[n..]);
      }
    }
  }

  lemma NothingFlat()
    ensures Flatten([]) == []
  {
  }

  /** Two conversations that agree up to a segment end, and in the role of what follows, share the segments before it. */
  lemma {:induction false} SameSegments(ms: seq<Message>, ms': seq<Message>, b: nat)
    requires b < |ms| && b < |ms'|
    requires ms[..b] == ms'[..b] && ms[b].role == ms'[b].role
    requires Group(ms, b).open == []
    ensures var n, t := |Group(ms, b).segments|, Closed(Group(ms', |ms'|));
            n < |t| && t[..n] == Group(ms, b).segments
  {
    GroupLocal(ms, ms', b, b);
    TimelineShape(ms');
    GroupGrows(ms', b, |ms'| - 1);
    var g := Group(ms', |ms'| - 1);
    assert g.segments[..|Group(ms, b).segments|] == Group(ms, b).segments;
  }
}
