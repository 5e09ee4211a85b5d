/**
 Healing an interrupted turn (`repair_dangling_tool_calls` in
 crates/core/src/types/context.rs): every call without a result gets a synthetic
 one right behind it. Healing answers all calls, changes nothing where nothing
 dangles, keeps a context that the provider accepts acceptable, and leaves all
 messages but those of tools as they were.
 */
module ToolRepair {
  import opened Prelude
  import opened Transcript

  const INTERRUPTED := "interrupted before completion"

  function CallIds(parts: seq<Part>): seq<string> {
    if parts == [] then []
    else (if parts[0].ToolCall? then [parts[0].id] else []) + CallIds(parts[1..])
  }

  function ResultIds(parts: seq<Part>): seq<string> {
    if parts == [] then []
    else (if parts[0].ToolResult? then [parts[0].id] else []) + ResultIds(parts[1..])
  }

  /** Synthetic results for the calls that have none. */
  function Missing(calls: seq<string>, resolved: seq<string>): seq<Part> {
    if calls == [] then []
    else (if calls[0] in resolved then [] else [ToolResult(calls[0], INTERRUPTED, false)]) + Missing(calls[1..], resolved)
  }

  /** `m` with results for what it leaves unanswered of the calls before it. */
  function Completed(calls: seq<string>, m: Message): Message {
    m.(parts := m.parts + Missing(calls, ResultIds(m.parts)))
  }

  function Repair(ms: seq<Message>): seq<Message> {
    if ms == [] then []
    else
      var calls := CallIds(ms[0].parts);
      if calls == [] then [ms[0]] + Repair(ms[1..])
      else if |ms| > 1 && ms[1].role == Tool then [ms[0], Completed(calls, ms[1])] + Repair(ms[2..])
      else [ms[0], Message(Tool, Missing(calls, []))] + Repair(ms[1..])
  }

  method RepairDanglingToolCalls(history: seq<Message>) returns (h: seq<Message>)
    ensures h == Repair(history)
  {
    hide Missing, CallIds, ResultIds, Repair;
    h := history;
    var i := 0;
    while i < |h|
      invariant i <= |h|
      invariant h[..i] + Repair(h[i..]) == Repair(history)
      decreases |Repair(history)| - i
    {
      ghost var before, rest := h[..i], h[i..];
      RepairLonger(rest);
      RepairHead(rest);
      var calls := CallIds(h[i].parts);
      if calls == [] {
        RepairStep(before, rest, [rest[0]], rest[1..]);
        assert h[..i + 1] == before + [rest[0]];
        i := i + 1;
      } else if i + 1 < |h| && h[i + 1].role == Tool {
        var missing := Missing(calls, ResultIds(h[i + 1].parts));
        var next := h[i + 1].(parts := h[i + 1].parts + missing);
        RepairStep(before, rest, [rest[0], next], rest[2..]);
        if missing != [] {
          h := h[i + 1 := next];
        } else {
          assert next.parts == rest[1].parts;
        }
        assert h == before + [rest[0], next] + rest[2..];
        Replaced(before, rest, next, h);
        i := i + 2;
      } else {
        var missing := Missing(calls, []);
        if missing != [] {
          h := h[..i + 1] + [Message(Tool, missing)] + h[i + 1..];
        }
        RepairStep(before, rest, [rest[0], Message(Tool, missing)], rest[1..]);
        Inserted(before, rest, Message(Tool, missing), h);
        i := i + 2;
      }
    }
    RepairNone();
    assert h[i..] == [];
    assert h[..i] == h;
  }

  lemma RepairNone()
    ensures Repair([]) == []
  {
  }

  lemma RepairHead(ms: seq<Message>)
    requires ms != []
    ensures var calls := CallIds(ms[0].parts);
            && (calls == [] ==> Repair(ms) == [ms[0]] + Repair(ms[1..]))
            && (calls != [] ==>
                  if |ms| > 1 && ms[1].role == Tool
                  then Repair(ms) == [ms[0], Completed(calls, ms[1])] + Repair(ms[2..])
                  else Repair(ms) == [ms[0], Message(Tool, Missing(calls, []))] + Repair(ms[1..])
                       && Missing(calls, []) != [])
  {
  }

  lemma Replaced(before: seq<Message>, rest: seq<Message>, next: Message, h: seq<Message>)
    requires |rest| > 1 && |h| == |before| + |rest|
    requires h == before + [rest[0], next] + rest[2..]
    ensures h[..|before| + 2] == before + [rest[0], next]
    ensures h[|before| + 2..] == rest[2..]
  {
  }

  lemma Inserted(before: seq<Message>, rest: seq<Message>, next: Message, h: seq<Message>)
    requires |rest| > 0
    requires h == before + [rest[0], next] + rest[1..]
    ensures h[..|before| + 2] == before + [rest[0], next]
    ensures h[|before| + 2..] == rest[1..]
  {
  }

  lemma RepairStep(before: seq<Message>, rest: seq<Message>, done: seq<Message>, left: seq<Message>)
    requires Repair(rest) == done + Repair(left)
    ensures before + Repair(rest) == (before + done) + Repair(left)
  {
  }

  lemma {:induction false} RepairLonger(ms: seq<Message>)
    ensures |ms| <= |Repair(ms)|
    ensures ms != [] ==> Repair(ms) != [] && Repair(ms)[0] == ms[0]
    decreases |ms|
  {
    if ms != [] {
      RepairLonger(ms[1..]);
      if |ms| > 1 {
        RepairLonger(ms[2..]);
      }
    }
  }

  // ---- Ids ----

  lemma Associative(a: seq<string>, b: seq<string>, c: seq<string>)
    ensures (a + b) + c == a + (b + c)
  {
  }

  lemma {:induction false} CallIdsConcat(a: seq<Part>, b: seq<Part>)
    ensures CallIds(a + b) == CallIds(a) + CallIds(b)
    decreases |a|
  {
    if a == [] {
      assert a + b == b;
    } else {
      assert (a + b)[1..] == a[1..] + b;
      CallIdsConcat(a[1..], b);
      Associative(if a[0].ToolCall? then [a[0].id] else [], CallIds(a[1..]), CallIds(b));
    }
  }

  lemma {:induction false} ResultIdsConcat(a: seq<Part>, b: seq<Part>)
    ensures ResultIds(a + b) == ResultIds(a) + ResultIds(b)
    decreases |a|
  {
    if a == [] {
      assert a + b == b;
    } else {
      assert (a + b)[1..] == a[1..] + b;
      ResultIdsConcat(a[1..], b);
      Associative(if a[0].ToolResult? then [a[0].id] else [], ResultIds(a[1..]), ResultIds(b));
    }
  }

  lemma {:induction false} MissingIds(calls: seq<string>, resolved: seq<string>)
    ensures CallIds(Missing(calls, resolved)) == []
    ensures forall id :: id in ResultIds(Missing(calls, resolved)) <==> id in calls && id !in resolved
    ensures (forall id :: id in calls ==> id in resolved) ==> Missing(calls, resolved) == []
    decreases |calls|
  {
    if calls != [] {
      MissingIds(calls[1..], resolved);
      var first := if calls[0] in resolved then [] else [ToolResult(calls[0], INTERRUPTED, false)];
      CallIdsConcat(first, Missing(calls[1..], resolved));
      ResultIdsConcat(first, Missing(calls[1..], resolved));
      assert calls == [calls[0]] + calls[1..];
    }
  }

  lemma {:induction false} CallIdsAre(parts: seq<Part>)
    ensures forall id :: id in CallIds(parts) <==> exists i :: 0 <= i < |parts| && parts[i].ToolCall? && parts[i].id == id
    ensures CallIds(parts) == [] <==> forall i :: 0 <= i < |parts| ==> !parts[i].ToolCall?
    decreases |parts|
  {
    if parts != [] {
      var rest := parts[1..];
      CallIdsAre(rest);
      assert forall i :: 0 <= i < |rest| ==> rest[i] == parts[i + 1];
      assert forall i :: 0 < i < |parts| ==> parts[i] == rest[i - 1];
    }
  }

  lemma {:induction false} ResultIdsAre(parts: seq<Part>)
    ensures forall id :: id in ResultIds(parts) <==> exists i :: 0 <= i < |parts| && parts[i].ToolResult? && parts[i].id == id
    ensures ResultIds(parts) == [] <==> forall i :: 0 <= i < |parts| ==> !parts[i].ToolResult?
    decreases |parts|
  {
    if parts != [] {
      var rest := parts[1..];
      ResultIdsAre(rest);
      assert forall i :: 0 <= i < |rest| ==> rest[i] == parts[i + 1];
      assert forall i :: 0 < i < |parts| ==> parts[i] == rest[i - 1];
    }
  }

  lemma ProperById(m: Message)
    ensures ProperRoles(m) <==>
              && (CallIds(m.parts) != [] ==> m.role == Assistant)
              && (ResultIds(m.parts) != [] ==> m.role == Tool)
  {
    CallIdsAre(m.parts);
    ResultIdsAre(m.parts);
  }

  lemma AnswersById(m: Message, next: Message)
    ensures Answers(m, next) <==> forall id :: id in ResultIds(next.parts) ==> id in CallIds(m.parts)
  {
    hide CallIds, ResultIds;
    CallIdsAre(m.parts);
    ResultIdsAre(next.parts);
    assert forall id :: id in CallIds(m.parts) <==> HasCall(m, id);
    if Answers(m, next) {
      assert forall id :: id in ResultIds(next.parts) ==> HasCall(m, id);
    } else {
      var i :| 0 <= i < |next.parts| && next.parts[i].ToolResult? && !HasCall(m, next.parts[i].id);
      assert next.parts[i].id in ResultIds(next.parts);
    }
  }

  // ---- What healing achieves ----

  predicate ProperMessages(ms: seq<Message>) {
    forall i :: 0 <= i < |ms| ==> ProperRoles(ms[i])
  }

  predicate AnsweredBy(m: Message, next: Message) {
    next.role == Tool && forall id :: id in CallIds(m.parts) ==> id in ResultIds(next.parts)
  }

  /** Every message with calls is followed by a tool message with all their results. */
  predicate Answered(ms: seq<Message>) {
    forall i :: 0 <= i < |ms| && CallIds(ms[i].parts) != [] ==> i + 1 < |ms| && AnsweredBy(ms[i], ms[i + 1])
  }

  /** The tool message that ends up behind `m`. */
  function Behind(m: Message, rest: seq<Message>): Message {
    if rest != [] && rest[0].role == Tool then Completed(CallIds(m.parts), rest[0])
    else Message(Tool, Missing(CallIds(m.parts), []))
  }

  function After(rest: seq<Message>): seq<Message> {
    if rest != [] && rest[0].role == Tool then rest[1..] else rest
  }

  lemma RepairPair(ms: seq<Message>)
    requires ms != [] && CallIds(ms[0].parts) != []
    ensures Repair(ms) == [ms[0]] + ([Behind(ms[0], ms[1..])] + Repair(After(ms[1..])))
    ensures |After(ms[1..])| < |ms|
  {
    if |ms| > 1 && ms[1].role == Tool {
      assert ms[1..][1..] == ms[2..];
    }
  }

  lemma BehindAnswers(m: Message, rest: seq<Message>)
    requires ProperMessages(rest)
    ensures AnsweredBy(m, Behind(m, rest)) && ProperRoles(Behind(m, rest))
    ensures CallIds(Behind(m, rest).parts) == []
  {
    hide ProperRoles, Missing;
    var calls := CallIds(m.parts);
    var base := if rest != [] && rest[0].role == Tool then rest[0].parts else [];
    var missing := Missing(calls, ResultIds(base));
    if rest != [] && rest[0].role == Tool {
      ProperById(rest[0]);
    }
    assert base + missing == Behind(m, rest).parts by {
      if base == [] {
        assert ResultIds(base) == [] && base + missing == missing;
      }
    }
    MissingIds(calls, ResultIds(base));
    CallIdsConcat(base, missing);
    ResultIdsConcat(base, missing);
    ProperById(Behind(m, rest));
  }

  lemma AnsweredCons(m: Message, rest: seq<Message>)
    requires CallIds(m.parts) != [] ==> rest != [] && AnsweredBy(m, rest[0])
    requires Answered(rest)
    ensures Answered([m] + rest)
  {
    hide AnsweredBy;
    var all := [m] + rest;
    forall i | 0 <= i < |all| && CallIds(all[i].parts) != []
      ensures i + 1 < |all| && AnsweredBy(all[i], all[i + 1])
    {
      if i > 0 {
        assert all[i] == rest[i - 1];
      }
    }
  }

  /** After healing no call is left without a result. */
  lemma {:induction false} RepairAnswers(ms: seq<Message>)
    requires ProperMessages(ms)
    ensures Answered(Repair(ms)) && ProperMessages(Repair(ms))
    decreases |ms|
  {
    hide AnsweredBy, Missing, ProperRoles, Behind, Answered;
    if ms == [] {
      NothingAnswered();
    } else if CallIds(ms[0].parts) == [] {
      RepairAnswers(ms[1..]);
      AnsweredCons(ms[0], Repair(ms[1..]));
    } else {
      RepairPair(ms);
      var next, rest := Behind(ms[0], ms[1..]), After(ms[1..]);
      BehindAnswers(ms[0], ms[1..]);
      RepairAnswers(rest);
      AnsweredCons(next, Repair(rest));
      AnsweredCons(ms[0], [next] + Repair(rest));
    }
  }

  lemma NothingAnswered()
    ensures Answered([])
  {
  }

  /** Healing changes nothing exactly when nothing was dangling; so healing twice is healing once. */
  lemma {:induction false} RepairIsMinimal(ms: seq<Message>)
    requires ProperMessages(ms)
    ensures Repair(ms) == ms <==> Answered(ms)
    ensures Repair(Repair(ms)) == Repair(ms)
  {
    hide Answered, ProperMessages;
    RepairAnswers(ms);
    if Answered(ms) {
      RepairNothing(ms);
    }
    RepairNothing(Repair(ms));
  }

  lemma {:induction false} RepairNothing(ms: seq<Message>)
    requires Answered(ms)
    ensures Repair(ms) == ms
    decreases |ms|
  {
    hide Missing;
    if ms != [] {
      var calls := CallIds(ms[0].parts);
      AnsweredTail(ms);
      if calls == [] {
        RepairNothing(ms[1..]);
      } else {
        assert AnsweredBy(ms[0], ms[1]);
        MissingIds(calls, ResultIds(ms[1].parts));
        assert Completed(calls, ms[1]) == ms[1];
        AnsweredTail(ms[1..]);
        assert ms[1..][1..] == ms[2..];
        RepairNothing(ms[2..]);
        assert ms == [ms[0], ms[1]] + ms[2..];
      }
    }
  }

  lemma Rejoin(a: seq<Message>, n: nat, b: seq<Message>, c: seq<Message>)
    requires n <= |a|
    ensures a[..n] + (a[n..] + c) == a + c
    ensures (a + b)[n..] == a[n..] + b
  {
  }

  /** What comes first in a healed list when the first messages need nothing. */
  lemma HeadComplete(a: seq<Message>, b: seq<Message>)
    requires a != [] && Answered(a)
    ensures var n := if CallIds(a[0].parts) == [] then 1 else 2;
            && n <= |a|
            && Repair(a + b) == a[..n] + Repair((a + b)[n..])
            && Answered(a[n..])
  {
    hide Missing, CallIds, ResultIds, Repair;
    RepairHead(a + b);
    AnsweredTail(a);
    if CallIds(a[0].parts) == [] {
      assert a[..1] == [a[0]];
    } else {
      AlreadyComplete(a[0], a[1]);
      AnsweredTail(a[1..]);
      assert a[1..][1..] == a[2..] && a[..2] == [a[0], a[1]];
    }
  }

  /** Healing does not look across a point behind which nothing dangles. */
  lemma {:induction false} RepairSplit(a: seq<Message>, b: seq<Message>)
    requires Answered(a)
    ensures Repair(a + b) == a + Repair(b)
    decreases |a|
  {
    hide Repair, Answered;
    if a == [] {
      assert a + b == b && a + Repair(b) == Repair(b);
    } else {
      var n := if CallIds(a[0].parts) == [] then 1 else 2;
      HeadComplete(a, b);
      Rejoin(a, n, b, Repair(b));
      RepairSplit(a[n..], b);
    }
  }

  lemma AlreadyComplete(m: Message, next: Message)
    requires AnsweredBy(m, next)
    ensures Completed(CallIds(m.parts), next) == next
  {
    MissingIds(CallIds(m.parts), ResultIds(next.parts));
  }

  lemma AnsweredTail(ms: seq<Message>)
    requires ms != [] && Answered(ms)
    ensures Answered(ms[1..])
  {
    hide AnsweredBy;
    var rest := ms[1..];
    forall i | 0 <= i < |rest| && CallIds(rest[i].parts) != []
      ensures i + 1 < |rest| && AnsweredBy(rest[i], rest[i + 1])
    {
      assert rest[i] == ms[i + 1];
    }
  }

  /** Each message may stand behind the one before it. */
  predicate Linked(ms: seq<Message>) {
    forall i :: 0 < i < |ms| && ms[i].role == Tool ==> Answers(ms[i - 1], ms[i])
  }

  lemma LinkedIsValid(ms: seq<Message>)
    ensures ValidContext(ms) <==> Linked(ms) && (ms != [] ==> ms[0].role != Tool)
  {
    if ValidContext(ms) && ms != [] {
      assert ValidAt(ms, 0);
      forall i | 0 < i < |ms| && ms[i].role == Tool
        ensures Answers(ms[i - 1], ms[i])
      {
        assert ValidAt(ms, i);
      }
    }
  }

  lemma LinkedCons(m: Message, rest: seq<Message>)
    requires Linked(rest) && (rest != [] && rest[0].role == Tool ==> Answers(m, rest[0]))
    ensures Linked([m] + rest)
  {
    hide Answers;
    var all := [m] + rest;
    forall i | 0 < i < |all| && all[i].role == Tool
      ensures Answers(all[i - 1], all[i])
    {
      assert all[i] == rest[i - 1];
    }
  }

  lemma BehindLinks(m: Message, rest: seq<Message>)
    requires rest != [] && rest[0].role == Tool ==> Answers(m, rest[0])
    requires Linked(rest)
    ensures Answers(m, Behind(m, rest))
    ensures After(rest) != [] && After(rest)[0].role == Tool ==> Answers(Behind(m, rest), After(rest)[0])
  {
    hide Answers, Missing;
    var calls := CallIds(m.parts);
    AnswersById(m, Behind(m, rest));
    MissingIds(calls, []);
    if rest != [] && rest[0].role == Tool {
      var base := rest[0].parts;
      MissingIds(calls, ResultIds(base));
      ResultIdsConcat(base, Missing(calls, ResultIds(base)));
      CallIdsConcat(base, Missing(calls, ResultIds(base)));
      AnswersById(m, rest[0]);
      if |rest| > 1 && rest[1].role == Tool {
        AnswersById(rest[0], rest[1]);
        AnswersById(Behind(m, rest), rest[1]);
      }
    }
  }

  lemma LinkedTail(ms: seq<Message>)
    requires Linked(ms)
    ensures ms != [] ==> Linked(ms[1..])
    ensures Linked(After(ms))
  {
    hide Answers;
    if ms != [] {
      var rest := ms[1..];
      forall i | 0 < i < |rest| && rest[i].role == Tool
        ensures Answers(rest[i - 1], rest[i])
      {
        assert rest[i] == ms[i + 1] && rest[i - 1] == ms[i];
      }
    }
  }

  lemma {:induction false} RepairLinks(ms: seq<Message>)
    requires Linked(ms)
    ensures Linked(Repair(ms))
    decreases |ms|
  {
    hide Answers, Missing, Behind, Linked;
    if ms == [] {
      NothingLinked();
    } else {
      LinkedTail(ms);
      SecondLinks(ms);
      if CallIds(ms[0].parts) == [] {
        RepairLinks(ms[1..]);
        RepairLonger(ms[1..]);
        LinkedCons(ms[0], Repair(ms[1..]));
      } else {
        RepairPair(ms);
        var next, rest := Behind(ms[0], ms[1..]), After(ms[1..]);
        BehindLinks(ms[0], ms[1..]);
        LinkedTail(ms[1..]);
        RepairLinks(rest);
        RepairLonger(rest);
        LinkedCons(next, Repair(rest));
        LinkedCons(ms[0], [next] + Repair(rest));
      }
    }
  }

  lemma NothingLinked()
    ensures Linked([])
  {
  }

  lemma SecondLinks(ms: seq<Message>)
    requires Linked(ms) && ms != []
    ensures ms[1..] != [] && ms[1..][0].role == Tool ==> Answers(ms[0], ms[1..][0])
  {
  }

  /** Healing keeps a context the provider accepts acceptable. */
  lemma RepairKeepsValid(ms: seq<Message>)
    requires ValidContext(ms)
    ensures ValidContext(Repair(ms))
  {
    LinkedIsValid(ms);
    RepairLinks(ms);
    RepairLonger(ms);
    LinkedIsValid(Repair(ms));
  }

  // ---- What healing leaves alone ----

  function Of(ms: seq<Message>, role: Role): seq<Message> {
    if ms == [] then []
    else (if ms[0].role == role then [ms[0]] else []) + Of(ms[1..], role)
  }

  lemma AssociativeMessages(a: seq<Message>, b: seq<Message>, c: seq<Message>)
    ensures (a + b) + c == a + (b + c)
  {
  }

  lemma {:induction false} OfConcat(a: seq<Message>, b: seq<Message>, role: Role)
    ensures Of(a + b, role) == Of(a, role) + Of(b, role)
    decreases |a|
  {
    if a == [] {
      assert a + b == b;
    } else {
      assert (a + b)[1..] == a[1..] + b;
      OfConcat(a[1..], b, role);
      AssociativeMessages(if a[0].role == role then [a[0]] else [], Of(a[1..], role), Of(b, role));
    }
  }

  lemma {:induction false} OfAll(ms: seq<Message>, role: Role, other: Role)
    requires forall i :: 0 <= i < |ms| ==> ms[i].role == role
    ensures Of(ms, other) == if role == other then ms else []
    decreases |ms|
  {
    if ms != [] {
      OfAll(ms[1..], role, other);
    }
  }

  /** Only tool messages are added or extended. */
  lemma {:induction false} RepairKeepsOthers(ms: seq<Message>, role: Role)
    requires role != Tool
    ensures Of(Repair(ms), role) == Of(ms, role)
    decreases |ms|
  {
    hide Missing;
    if ms != [] {
      if CallIds(ms[0].parts) == [] {
        RepairKeepsOthers(ms[1..], role);
      } else {
        RepairPair(ms);
        var next, rest := Behind(ms[0], ms[1..]), After(ms[1..]);
        RepairKeepsOthers(rest, role);
        OfCons(ms[0], [next] + Repair(rest), role);
        OfCons(next, Repair(rest), role);
        assert Of(ms[1..], role) == Of(rest, role);
      }
    }
  }

  lemma OfCons(m: Message, ms: seq<Message>, role: Role)
    ensures Of([m] + ms, role) == (if m.role == role then [m] else []) + Of(ms, role)
  {
  }
}
