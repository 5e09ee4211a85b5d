/**
 Compaction and rewind never separate a tool call from its result. The planner
 alone does not give this: it holds because of how a history is segmented.
 */
module CompactionSafety {
  import opened Prelude
  import opened Transcript
  import opened Timeline
  import opened Compaction

  // ---- Open calls ----

  /** A call is closed only by its result, in a tool message. */
  lemma {:induction false} ClosedByResult(m: Message, n: nat, open: set<string>, x: string)
    requires n <= |m.parts| && ConsumeParts(m, n, open).Some?
    requires x in open && x !in ConsumeParts(m, n, open).value
    ensures m.role == Tool && exists i :: 0 <= i < n && m.parts[i].ToolResult? && m.parts[i].id == x
  {
    if x in ConsumeParts(m, n - 1, open).value {
      assert m.parts[n - 1].ToolResult? && m.parts[n - 1].id == x;
    } else {
      ClosedByResult(m, n - 1, open, x);
    }
  }

  /** An assistant message cannot repeat an open call. */
  lemma {:induction false} NoRepeatedCall(m: Message, n: nat, open: set<string>)
    requires n <= |m.parts| && m.role == Assistant && ConsumeParts(m, n, open).Some?
    ensures open <= ConsumeParts(m, n, open).value
    ensures forall i :: 0 <= i < n && m.parts[i].ToolCall? ==> m.parts[i].id !in open
  {
    if n > 0 {
      NoRepeatedCall(m, n - 1, open);
    }
  }

  /** Where the call `x`, open after `n` messages, is closed before `m`. */
  lemma {:induction false} ClosingMessage(ms: seq<Message>, n: nat, m: nat, x: string) returns (i: nat)
    requires n <= m <= |ms| && OpenCalls(ms, m).Some? && OpenCalls(ms, n).Some?
    requires x in OpenCalls(ms, n).value && x !in OpenCalls(ms, m).value
    ensures n <= i < m && OpenCalls(ms, i).Some? && x in OpenCalls(ms, i).value
    ensures forall k :: n <= k <= i ==> OpenCalls(ms, k).Some? && x in OpenCalls(ms, k).value
    ensures ms[i].role == Tool && exists j :: 0 <= j < |ms[i].parts| && ms[i].parts[j].ToolResult? && ms[i].parts[j].id == x
  {
    if exists k :: n <= k < m && (OpenCalls(ms, k).None? || x !in OpenCalls(ms, k).value) {
      var k :| n <= k < m && (OpenCalls(ms, k).None? || x !in OpenCalls(ms, k).value);
      if OpenCalls(ms, k).None? {
        OpenCallsStuck(ms, k, m);
      }
      i := ClosingMessage(ms, n, k, x);
    } else {
      i := m - 1;
      ClosedByResult(ms[i], |ms[i].parts|, OpenCalls(ms, i).value, x);
    }
  }

  /**
   In a valid conversation whose pairing is sound up to `safe`, no call is
   open at the end of a segment before it.
   */
  lemma NothingOpenAtSegmentEnd(ms: seq<Message>, n: nat, safe: nat)
    requires 0 < n <= safe <= |ms| && Paired(ms, safe)
    requires ValidProviderRoles(ms)
    requires EndsSegment(ms, n - 1)
    ensures Paired(ms, n)
  {
    if OpenCalls(ms, n).None? {
      OpenCallsStuck(ms, n, safe);
    } else if OpenCalls(ms, n).value != {} {
      var x :| x in OpenCalls(ms, n).value;
      var i := ClosingMessage(ms, n, safe, x);
      var j :| 0 <= j < |ms[i].parts| && ms[i].parts[j].ToolResult? && ms[i].parts[j].id == x;
      assert ValidAt(ms, i);
      assert HasCall(ms[i - 1], x);
      var c :| 0 <= c < |ms[i - 1].parts| && ms[i - 1].parts[c].ToolCall? && ms[i - 1].parts[c].id == x;
      assert ProperRoles(ms[i - 1]);
      if i > n {
        NoRepeatedCall(ms[i - 1], |ms[i - 1].parts|, OpenCalls(ms, i - 1).value);
      }
    }
  }

  // ---- The planned source and the retained tail ----

  /** A plan made on a history: the messages it summarizes and the messages it keeps. */
  function SourceOf(h: seq<Message>): seq<Message> {
    Flatten(Inactive(TimelineOf(h)))
  }

  function TailOf(h: seq<Message>): seq<Message>
    requires TimelineOf(h) != []
  {
    MessagesOf(TimelineOf(h)[|TimelineOf(h)| - 1].entries)
  }

  /** The planner succeeds on the timeline of `h`. */
  predicate Plannable(h: seq<Message>) {
    MakePlan(NewProjection(TimelineOf(h)), 0).Ok?
  }

  lemma ValidRolesGiveContext(ms: seq<Message>)
    requires ValidProviderRoles(ms)
    ensures ValidContext(ms)
  {
  }

  lemma PlannableMeaning(h: seq<Message>) returns (start: nat)
    requires Plannable(h)
    ensures var ms := Conversation(h);
            && TimelineOf(h) != []
            && 0 < start < |ms|
            && SourceOf(h) == ms[..start]
            && TailOf(h) == ms[start..]
            && EndsSegment(ms, start - 1)
            && ValidProviderRoles(ms)
            && start <= SafeBoundary(ms)
  {
    TimelineContents(h);
    PlanCoversAllButLast(NewProjection(TimelineOf(h)), 0);
    start := LastSegmentStart(h);
    TotalIsFlat(Inactive(TimelineOf(h)));
  }

  /** What is summarized is a valid context in which every call has its result. */
  lemma SourceIsWhole(h: seq<Message>)
    requires Plannable(h)
    ensures ValidContext(SourceOf(h))
    ensures Paired(SourceOf(h), |SourceOf(h)|)
  {
    var start := PlannableMeaning(h);
    var ms := Conversation(h);
    ValidPrefix(ms, start);
    NothingOpenAtSegmentEnd(ms, start, SafeBoundary(ms));
    assert ms == ms[..start] + ms[start..];
    OpenCallsPrefix(ms[..start], ms[start..], start);
  }

  /**
   What is kept is a valid context if and only if the history does not end in
   two tool messages in a row; the second of these would be orphaned.
   */
  lemma TailIsWhole(h: seq<Message>)
    requires Plannable(h)
    ensures TimelineOf(h) != []
    ensures var n := |h|;
            ValidContext(TailOf(h)) <==> !(n >= 2 && h[n - 2].role == Tool && h[n - 1].role == Tool)
  {
    hide Plannable, TimelineOf, TailOf, SourceOf, ValidContext, SafeBoundary;
    var start := PlannableMeaning(h);
    var ms := Conversation(h);
    ValidRolesGiveContext(ms);
    ValidSuffix(ms, start);
    var n := |ms|;
    assert ms[n - 1] == h[|h| - 1] && ms[n - 2] == h[|h| - 2];
    if ms[start].role == Tool {
      assert ms[start - 1].role == Tool;
      LastSegmentOfTool(h, start);
    } else if ms[n - 2].role == Tool && ms[n - 1].role == Tool {
      LastSegmentAfterTool(h, start);
    }
  }

  /** A tool message ends its segment, so a last segment that starts with one is that message alone. */
  lemma LastSegmentOfTool(h: seq<Message>, start: nat)
    requires TimelineOf(h) != [] && start < |Conversation(h)|
    requires TailOf(h) == Conversation(h)[start..]
    requires Conversation(h)[start].role == Tool
    ensures start == |Conversation(h)| - 1
  {
    var ms := Conversation(h);
    var n := |ms| - 1;
    TimelineShape(ms);
    LastMessages(ms, n);
    GroupOpen(ms, n);
    var open := Group(ms, n).open;
    assert |TailOf(h)| == |open| + 1;
    if start < n {
      NoInnerEnd(ms, n, start);
    }
  }

  /** If the last two messages are tool messages the last segment is the last message. */
  lemma LastSegmentAfterTool(h: seq<Message>, start: nat)
    requires TimelineOf(h) != [] && start < |Conversation(h)| && |Conversation(h)| >= 2
    requires TailOf(h) == Conversation(h)[start..]
    requires Conversation(h)[|Conversation(h)| - 2].role == Tool
    ensures start == |Conversation(h)| - 1
  {
    var ms := Conversation(h);
    TimelineShape(ms);
    assert EndsSegment(ms, |ms| - 2);
    assert |TailOf(h)| == |Group(ms, |ms| - 1).open| + 1 == 1;
  }

  /** No message among the open entries ends a segment. */
  lemma {:induction false} NoInnerEnd(ms: seq<Message>, n: nat, i: nat)
    requires n <= |ms| && i < n && n - |Group(ms, n).open| <= i
    ensures !EndsSegment(ms, i)
  {
    if i < n - 1 {
      NoInnerEnd(ms, n - 1, i);
    }
  }

  /** On segments cut anywhere the planner can part a call from its result. */
  lemma PlannerAloneMaySeparate()
    ensures var call := Message(Assistant, [ToolCall("x", "bash", "{}")]);
            var result := Message(Tool, [ToolResult("x", "done", true)]);
            var segments := [Segment(0, [Entry(0, call)]), Segment(1, [Entry(1, result)])];
            && MakePlan(NewProjection(segments), 0).Ok?
            && MakePlan(NewProjection(segments), 0).value.end == 1
            && ValidContext(Flatten(segments))
            && !Paired(Flatten(segments[..1]), 1)
            && !ValidContext(Flatten(segments[1..]))
  {
    var call := Message(Assistant, [ToolCall("x", "bash", "{}")]);
    var result := Message(Tool, [ToolResult("x", "done", true)]);
    var a, b := Segment(0, [Entry(0, call)]), Segment(1, [Entry(1, result)]);
    var segments := [a, b];
    assert segments == [a] + [b] && [a] == [] + [a] && segments[..1] == [a] && segments[1..] == [b] && [b] == [] + [b];
    FlattenSnoc([], a);
    FlattenSnoc([], b);
    FlattenSnoc([a], b);
    assert Flatten([a]) == [call] && Flatten([b]) == [result];
    var ms := Flatten(segments);
    assert ms == [call, result];
    PairOfCallAndResult(call, result);
    assert TotalEntries(segments[1..]) == 1;
    PlanCoversAllButLast(NewProjection(segments), 0);
    assert TotalEntries(Inactive(segments)) == 1 by { TotalIsFlat(Inactive(segments)); }
    assert !ValidAt([result], 0);
  }

  lemma PairOfCallAndResult(call: Message, result: Message)
    requires call == Message(Assistant, [ToolCall("x", "bash", "{}")])
    requires result == Message(Tool, [ToolResult("x", "done", true)])
    ensures ValidProviderRoles([call, result])
    ensures SafeBoundary([call, result]) == 2
    ensures OpenCalls([call], 1) == Some({"x"})
  {
    var ms := [call, result];
    var none: set<string> := {};
    assert none + {"x"} == {"x"} && {"x"} - {"x"} == none;
    assert ConsumeParts(call, 0, {}) == Some({});
    assert Consume(call, {}) == Some({"x"});
    assert ConsumeParts(result, 0, {"x"}) == Some({"x"});
    assert Consume(result, {"x"}) == Some({});
    assert OpenCalls(ms, 1) == Some({"x"});
    assert OpenCalls([call], 1) == Some({"x"});
    assert OpenCalls(ms, 2) == Some({});
    assert call.parts[0].ToolCall?;
    assert HasCall(call, "x");
  }

  // ---- Rewind ----

  /** The index of the `k`-th user message from the end. */
  function NthUserFromEnd(h: seq<Message>, k: nat): (r: Option<nat>)
    requires k > 0
    ensures r.Some? ==> r.value < |h| && h[r.value].role == User
  {
    if h == [] then None
    else
      var n := |h| - 1;
      if h[n].role == User then
        if k == 1 then Some(n) else NthUserFromEnd(h[..n], k - 1)
      else NthUserFromEnd(h[..n], k)
  }

  function Rewound(h: seq<Message>, turns: nat): seq<Message> {
    if turns == 0 then h
    else match NthUserFromEnd(h, turns)
      case Some(i) => h[..i]
      case None => h[..LeadingSystems(h)]
  }

  /** The cut of `rewind`: collect the user messages' indexes, then count back. */
  method RewindCut(h: seq<Message>, turns: nat) returns (at: nat)
    requires turns > 0
    ensures at <= |h| && h[..at] == Rewound(h, turns)
  {
    var cuts: seq<nat> := [];
    for i := 0 to |h|
      invariant forall c :: 0 <= c < |cuts| ==> cuts[c] < i
      invariant forall k :: 0 < k ==>
        NthUserFromEnd(h[..i], k) == if k <= |cuts| then Some(cuts[|cuts| - k]) else None
    {
      assert h[..i + 1][..i] == h[..i];
      if h[i].role == User {
        cuts := cuts + [i];
      }
    }
    assert h[..|h|] == h;
    if turns <= |cuts| {
      at := cuts[|cuts| - turns];
    } else {
      at := 0;
      while at < |h| && h[at].role == System
        invariant at <= |h| && forall i :: 0 <= i < at ==> h[i].role == System
      {
        at := at + 1;
      }
      LeadingSystemsUnique(h, at);
    }
  }

  lemma {:induction false} NthUserAdds(h: seq<Message>, k: nat, j: nat)
    requires k > 0 && j > 0
    ensures NthUserFromEnd(h, k + j)
         == match NthUserFromEnd(h, k) case Some(i) => NthUserFromEnd(h[..i], j) case None => None
    decreases |h|
  {
    if h != [] {
      var n := |h| - 1;
      if h[n].role == User && k > 1 {
        NthUserAdds(h[..n], k - 1, j);
      } else if h[n].role != User {
        NthUserAdds(h[..n], k, j);
      }
      match NthUserFromEnd(h, k)
      case Some(i) => assert i <= n && h[..n][..i] == h[..i];
      case None =>
    }
  }

  lemma {:induction false} NoUserAmongSystems(h: seq<Message>, k: nat)
    requires k > 0 && forall i :: 0 <= i < |h| ==> h[i].role == System
    ensures NthUserFromEnd(h, k) == None
    decreases |h|
  {
  }

  /** Rewinding in two steps is rewinding once by the sum, past the beginning included. */
  lemma RewindComposes(h: seq<Message>, k: nat, j: nat)
    ensures Rewound(Rewound(h, k), j) == Rewound(h, k + j)
  {
    if k > 0 && j > 0 {
      NthUserAdds(h, k, j);
      var l := LeadingSystems(h);
      match NthUserFromEnd(h, k)
      case None =>
        NoUserAmongSystems(h[..l], j);
        LeadingSystemsUnique(h[..l], l);
      case Some(i) =>
        LeadingSystemsUnique(h[..i], l);
        match NthUserFromEnd(h[..i], j)
        case Some(i2) => assert h[..i][..i2] == h[..i2];
        case None => assert h[..i][..l] == h[..l];
    }
  }

  /** A rewound history is valid, and the message that was cut at starts a user turn. */
  lemma RewindIsWhole(h: seq<Message>, turns: nat)
    requires ValidContext(h)
    ensures ValidContext(Rewound(h, turns))
    ensures Rewound(h, turns) <= h
    ensures var n := |Rewound(h, turns)|;
            n == |h| || h[n].role == User || n == LeadingSystems(h)
  {
    ValidPrefix(h, |Rewound(h, turns)|);
    assert h[..|h|] == h;
  }

  // ---- Leaving out the middle ----

  /**
   Leading system messages followed by a later part of a valid history are
   valid exactly when that part does not open with a tool message, or the last
   leading system message happens to have the calls it answers.
   */
  lemma ValidWithoutMiddle(h: seq<Message>, cut: nat)
    requires ValidContext(h) && LeadingSystems(h) <= cut <= |h|
    ensures var l := LeadingSystems(h);
            ValidContext(h[..l] + h[cut..]) <==>
              cut == |h| || h[cut].role != Tool || (l > 0 && Answers(h[l - 1], h[cut]))
  {
    hide Answers;
    var l := LeadingSystems(h);
    var t := h[..l] + h[cut..];
    if cut < |h| && h[cut].role == Tool {
      assert t[l] == h[cut];
      if l > 0 {
        assert t[l - 1] == h[l - 1];
      }
      assert ValidAt(t, l) <==> l > 0 && Answers(h[l - 1], h[cut]);
    }
    forall i | 0 <= i < |t| && !(i == l && h[cut].role == Tool)
      ensures ValidAt(t, i)
    {
      if i > l {
        assert t[i] == h[cut + i - l] && t[i - 1] == h[cut + i - l - 1];
        assert ValidAt(h, cut + i - l);
      }
    }
  }
}
