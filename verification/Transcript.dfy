/**
 Messages, the provider's rule for tool results (crates/core/src/types/context.rs)
 and the pairing of calls with results (crates/core/src/compaction.rs).
 */
module Transcript {
  import opened Prelude

  datatype Role = System | User | Assistant | Tool

  datatype Part =
    | ToolCall(id: string, name: string, args: string)
    | ToolResult(id: string, content: string, ok: bool)
    | Other(text: string)

  datatype Message = Message(role: Role, parts: seq<Part>)

  // ---- The provider's rule ----

  predicate HasCall(m: Message, id: string) {
    exists i :: 0 <= i < |m.parts| && m.parts[i].ToolCall? && m.parts[i].id == id
  }

  /** Every result in `m` answers a call in the message before it. */
  predicate Answers(previous: Message, m: Message) {
    forall i :: 0 <= i < |m.parts| && m.parts[i].ToolResult? ==> HasCall(previous, m.parts[i].id)
  }

  predicate ValidAt(ms: seq<Message>, i: nat)
    requires i < |ms|
  {
    ms[i].role == Tool ==> i > 0 && Answers(ms[i - 1], ms[i])
  }

  predicate ValidContext(ms: seq<Message>) {
    forall i :: 0 <= i < |ms| ==> ValidAt(ms, i)
  }

  /** Calls only in assistant messages, results only in tool messages. */
  predicate ProperRoles(m: Message) {
    forall i :: 0 <= i < |m.parts| ==>
      && (m.parts[i].ToolCall? ==> m.role == Assistant)
      && (m.parts[i].ToolResult? ==> m.role == Tool)
  }

  predicate ValidProviderRoles(ms: seq<Message>) {
    ValidContext(ms) && forall i :: 0 <= i < |ms| ==> ProperRoles(ms[i])
  }

  method ValidateContext(ms: seq<Message>) returns (ok: bool)
    ensures ok == ValidContext(ms)
  {
    for i := 0 to |ms|
      invariant forall k :: 0 <= k < i ==> ValidAt(ms, k)
    {
      if ms[i].role == Tool {
        if i == 0 {
          assert !ValidAt(ms, i);
          return false;
        }
        var calls := CallsOf(ms[i - 1]);
        for j := 0 to |ms[i].parts|
          invariant forall k :: 0 <= k < j && ms[i].parts[k].ToolResult? ==> HasCall(ms[i - 1], ms[i].parts[k].id)
        {
          if ms[i].parts[j].ToolResult? && ms[i].parts[j].id !in calls {
            assert !ValidAt(ms, i);
            return false;
          }
        }
      }
    }
    ok := true;
  }

  method CallsOf(m: Message) returns (ids: seq<string>)
    ensures forall id :: id in ids <==> HasCall(m, id)
  {
    ids := [];
    for i := 0 to |m.parts|
      invariant forall id :: id in ids <==> exists k :: 0 <= k < i && m.parts[k].ToolCall? && m.parts[k].id == id
    {
      if m.parts[i].ToolCall? {
        ids := ids + [m.parts[i].id];
      }
    }
  }

  // ---- Pairing ----

  /** The calls still open after the first `n` parts of `m`; None once a part cannot be paired. */
  function ConsumeParts(m: Message, n: nat, open: set<string>): Option<set<string>>
    requires n <= |m.parts|
  {
    if n == 0 then Some(open)
    else match ConsumeParts(m, n - 1, open)
      case None => None
      case Some(calls) =>
        match m.parts[n - 1]
        case ToolCall(id, _, _) => if m.role == Assistant && id !in calls then Some(calls + {id}) else None
        case ToolResult(id, _, _) => if m.role == Tool && id in calls then Some(calls - {id}) else None
        case Other(_) => Some(calls)
  }

  function Consume(m: Message, open: set<string>): Option<set<string>> {
    ConsumeParts(m, |m.parts|, open)
  }

  /** The calls open after the first `n` messages. */
  function OpenCalls(ms: seq<Message>, n: nat): Option<set<string>>
    requires n <= |ms|
  {
    if n == 0 then Some({})
    else match OpenCalls(ms, n - 1)
      case None => None
      case Some(open) => Consume(ms[n - 1], open)
  }

  /** The first `n` messages pair every call with its result. */
  predicate Paired(ms: seq<Message>, n: nat)
    requires n <= |ms|
  {
    OpenCalls(ms, n) == Some({})
  }

  /** The largest paired prefix no longer than `n`. */
  function PairedBelow(ms: seq<Message>, n: nat): (b: nat)
    requires n <= |ms|
    ensures b <= n && Paired(ms, b)
    ensures forall k :: b < k <= n ==> !Paired(ms, k)
  {
    if Paired(ms, n) then n else PairedBelow(ms, n - 1)
  }

  function SafeBoundary(ms: seq<Message>): nat {
    PairedBelow(ms, |ms|)
  }

  lemma {:induction false} OpenCallsStuck(ms: seq<Message>, i: nat, j: nat)
    requires i <= j <= |ms| && OpenCalls(ms, i).None?
    ensures OpenCalls(ms, j).None?
  {
    if i < j {
      OpenCallsStuck(ms, i, j - 1);
    }
  }

  lemma {:induction false} OpenCallsPrefix(a: seq<Message>, b: seq<Message>, n: nat)
    requires n <= |a|
    ensures OpenCalls(a + b, n) == OpenCalls(a, n)
  {
    if n > 0 {
      OpenCallsPrefix(a, b, n - 1);
    }
  }

  method ConsumeTools(m: Message, open: set<string>) returns (r: Option<set<string>>)
    ensures r == Consume(m, open)
  {
    var calls := open;
    for i := 0 to |m.parts|
      invariant ConsumeParts(m, i, open) == Some(calls)
    {
      match m.parts[i]
      case ToolCall(id, _, _) =>
        if m.role != Assistant || id in calls {
          ConsumeStuck(m, i + 1, |m.parts|, open);
          return None;
        }
        calls := calls + {id};
      case ToolResult(id, _, _) =>
        if m.role != Tool || id !in calls {
          ConsumeStuck(m, i + 1, |m.parts|, open);
          return None;
        }
        calls := calls - {id};
      case Other(_) =>
    }
    r := Some(calls);
  }

  lemma {:induction false} ConsumeStuck(m: Message, i: nat, j: nat, open: set<string>)
    requires i <= j <= |m.parts| && ConsumeParts(m, i, open).None?
    ensures ConsumeParts(m, j, open).None?
  {
    if i < j {
      ConsumeStuck(m, i, j - 1, open);
    }
  }

  /** The largest entry prefix with completed tool pairing. */
  method FindSafeBoundary(ms: seq<Message>) returns (boundary: nat)
    ensures boundary == SafeBoundary(ms)
  {
    var open: set<string> := {};
    boundary := 0;
    for i := 0 to |ms|
      invariant OpenCalls(ms, i) == Some(open)
      invariant boundary == PairedBelow(ms, i)
    {
      var next := ConsumeTools(ms[i], open);
      if next.None? {
        NoLaterBoundary(ms, i);
        break;
      }
      open := next.value;
      if open == {} {
        boundary := i + 1;
      }
    }
  }

  lemma NoLaterBoundary(ms: seq<Message>, i: nat)
    requires i < |ms| && OpenCalls(ms, i + 1).None?
    ensures SafeBoundary(ms) == PairedBelow(ms, i)
  {
    var b := SafeBoundary(ms);
    if b > i {
      OpenCallsStuck(ms, i + 1, b);
    }
    SameBelow(ms, b, i, |ms|);
  }

  lemma SameBelow(ms: seq<Message>, b: nat, i: nat, n: nat)
    requires b <= i <= n <= |ms|
    requires PairedBelow(ms, n) == b
    ensures PairedBelow(ms, i) == b
  {
  }

  // ---- Prefixes ----

  /** Cutting the end off never breaks the provider's rule. */
  lemma ValidPrefix(ms: seq<Message>, n: nat)
    requires n <= |ms| && ValidContext(ms)
    ensures ValidContext(ms[..n])
  {
    forall i | 0 <= i < n
      ensures ValidAt(ms[..n], i)
    {
      assert ValidAt(ms, i);
    }
  }

  /** Cutting the front off keeps the rule exactly when a tool message does not come first. */
  lemma ValidSuffix(ms: seq<Message>, n: nat)
    requires n <= |ms| && ValidContext(ms)
    ensures ValidContext(ms[n..]) <==> n == |ms| || ms[n].role != Tool
  {
    var t := ms[n..];
    if n < |ms| && ms[n].role == Tool {
      assert !ValidAt(t, 0);
    } else {
      forall i | 0 <= i < |t|
        ensures ValidAt(t, i)
      {
        assert ValidAt(ms, n + i);
        assert t[i] == ms[n + i];
        if i > 0 {
          assert t[i - 1] == ms[n + i - 1];
        }
      }
    }
  }
}
