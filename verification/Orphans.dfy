/**
 Which tool messages a compaction (crates/core/src/agent.rs) can leave at the
 beginning of a conversation. It drops the messages between the leading system
 messages and a segment end, and orphans a tool message that comes first behind it.
 */
module Orphans {
  import opened Prelude
  import opened Transcript
  import opened Timeline
  import opened CompactionSafety
  import opened ToolRepair

  // ---- Cutting behind a segment end ----

  /** A place where a segment may end: behind a tool message, before a user message, or at the end. */
  predicate SegmentEnd(h: seq<Message>, start: nat) {
    0 < start <= |h| && (start < |h| ==> h[start - 1].role == Tool || h[start].role == User)
  }

  lemma CutOf(h: seq<Message>, start: nat)
    requires LeadingSystems(h) <= start <= |h|
    ensures var cut := start + LeadingSystems(h[start..]);
            && start <= cut <= |h| && Conversation(h[start..]) == h[cut..]
            && (cut < |h| ==> h[cut].role != System)
            && forall i :: start <= i < cut ==> h[i].role == System
  {
    hide LeadingSystems;
    var rest := h[start..];
    var cut := start + LeadingSystems(rest);
    DropTwice(h, start, LeadingSystems(rest));
    assert cut < |h| ==> h[cut].role != System;
    forall i | start <= i < cut
      ensures h[i].role == System
    {
      assert rest[i - start].role == System;
    }
  }

  lemma DropTwice(h: seq<Message>, start: nat, n: nat)
    requires start <= |h| && n <= |h[start..]|
    ensures h[start..][n..] == h[start + n..]
    ensures forall i :: start <= i < start + n ==> h[i] == h[start..][i - start]
    ensures n < |h[start..]| ==> h[start..][n] == h[start + n]
  {
  }

  /** Dropping the middle of a valid history up to a segment end, and the system messages behind it. */
  lemma {:induction false} CutIsValidExactly(h: seq<Message>, start: nat)
    requires ValidContext(h) && ProperMessages(h)
    requires LeadingSystems(h) <= start && SegmentEnd(h, start)
    ensures var l, kept := LeadingSystems(h), Conversation(h[start..]);
            ValidContext(h[..l] + kept) <==> kept == [] || kept[0].role != Tool || l > 0
  {
    hide ValidContext, ProperRoles, Answers, LeadingSystems, Conversation;
    var l := LeadingSystems(h);
    LinkedIsValid(h);
    CutOf(h, start);
    var cut := start + LeadingSystems(h[start..]);
    ValidWithoutMiddle(h, cut);
    if cut < |h| && h[cut].role == Tool {
      BareTool(h, start, cut);
      if l > 0 {
        AnswersById(h[l - 1], h[cut]);
      }
    }
  }

  /** A tool message with only system messages between it and a segment end has no results. */
  lemma {:induction false} BareTool(h: seq<Message>, start: nat, cut: nat)
    requires Linked(h) && ProperMessages(h)
    requires 0 < start <= cut < |h| && h[cut].role == Tool
    requires h[start - 1].role == Tool || h[start].role == User
    requires forall i :: start <= i < cut ==> h[i].role == System
    ensures ResultIds(h[cut].parts) == []
  {
    AnswersById(h[cut - 1], h[cut]);
    ProperById(h[cut - 1]);
    NoResults(h[cut]);
  }

  lemma NoResults(m: Message)
    requires forall id :: id in ResultIds(m.parts) ==> false
    ensures ResultIds(m.parts) == []
  {
    assert |ResultIds(m.parts)| > 0 ==> ResultIds(m.parts)[0] in ResultIds(m.parts);
  }

  // ---- Histories that cannot be orphaned ----

  /** What the last message that is no system message leaves behind it; a system message separates calls from results. */
  datatype Before = Free | Calling | Spent

  function Next(s: Before, m: Message): Before {
    match m.role
    case Tool => Spent
    case System => if s == Free then Free else Spent
    case _ => if CallIds(m.parts) == [] then Free else Calling
  }

  function Final(s: Before, ms: seq<Message>): Before
    decreases |ms|
  {
    if ms == [] then s else Final(Next(s, ms[0]), ms[1..])
  }

  /** No tool message stands where the calls before it were answered already, or not right behind them. */
  predicate ClearFrom(s: Before, ms: seq<Message>)
    decreases |ms|
  {
    ms != [] ==> !(s == Spent && ms[0].role == Tool) && ClearFrom(Next(s, ms[0]), ms[1..])
  }

  /** The same from the beginning of a conversation on: it does not begin with a tool message either. */
  predicate Clear(ms: seq<Message>) {
    ClearFrom(Spent, ms)
  }

  lemma {:induction false} ClearConcat(s: Before, a: seq<Message>, b: seq<Message>)
    ensures Final(s, a + b) == Final(Final(s, a), b)
    ensures ClearFrom(s, a + b) <==> ClearFrom(s, a) && ClearFrom(Final(s, a), b)
    decreases |a|
  {
    if a == [] {
      assert a + b == b;
    } else {
      assert (a + b)[1..] == a[1..] + b;
      ClearConcat(Next(s, a[0]), a[1..], b);
    }
  }

  lemma {:induction false} ClearOne(s: Before, m: Message)
    ensures Final(s, [m]) == Next(s, m)
    ensures ClearFrom(s, [m]) <==> !(s == Spent && m.role == Tool)
  {
    assert [m][1..] == [];
  }

  lemma {:induction false} ClearWithoutTools(s: Before, ms: seq<Message>)
    requires forall i :: 0 <= i < |ms| ==> ms[i].role != Tool
    ensures ClearFrom(s, ms)
    decreases |ms|
  {
    if ms != [] {
      ClearWithoutTools(Next(s, ms[0]), ms[1..]);
    }
  }

  lemma {:induction false} SystemsAreSpent(ms: seq<Message>)
    requires forall i :: 0 <= i < |ms| ==> ms[i].role == System
    ensures Final(Spent, ms) == Spent
    decreases |ms|
  {
    if ms != [] {
      SystemsAreSpent(ms[1..]);
    }
  }

  /** Healing keeps a history clear, and cannot make one clear. */
  lemma {:induction false} RepairClear(s: Before, ms: seq<Message>)
    requires ProperMessages(ms)
    ensures ClearFrom(s, Repair(ms)) <==> ClearFrom(s, ms)
    decreases |ms|
  {
    hide Missing, ProperRoles;
    if ms != [] {
      ProperById(ms[0]);
      if CallIds(ms[0].parts) == [] {
        RepairClear(Next(s, ms[0]), ms[1..]);
      } else {
        RepairPair(ms);
        var next, rest := Behind(ms[0], ms[1..]), After(ms[1..]);
        RepairClear(Spent, rest);
        ClearTwo(s, ms[0], next, Repair(rest));
        assert ClearFrom(Calling, ms[1..]) <==> ClearFrom(Spent, rest);
      }
    }
  }

  lemma {:induction false} ClearTwo(s: Before, m: Message, next: Message, rest: seq<Message>)
    requires m.role == Assistant && CallIds(m.parts) != [] && next.role == Tool
    ensures ClearFrom(s, [m] + ([next] + rest)) <==> ClearFrom(Spent, rest)
  {
    var all := [m] + ([next] + rest);
    assert all[1..] == [next] + rest && ([next] + rest)[1..] == rest;
    assert ClearFrom(Calling, [next] + rest) <==> ClearFrom(Spent, rest);
  }

  /** Appending tool results behind an assistant message keeps a history clear. */
  lemma {:induction false} ClearTools(h: seq<Message>, m: Message)
    requires Clear(h) && h != [] && h[|h| - 1].role == Assistant
    ensures Clear(h + [m])
  {
    hide ClearFrom, Final;
    var n := |h| - 1;
    assert h == h[..n] + [h[n]];
    ClearConcat(Spent, h[..n], [h[n]]);
    ClearOne(Final(Spent, h[..n]), h[n]);
    ClearConcat(Spent, h, [m]);
    ClearOne(Final(Spent, h), m);
  }

  lemma {:induction false} ClearAppend(h: seq<Message>, more: seq<Message>)
    requires Clear(h) && forall i :: 0 <= i < |more| ==> more[i].role != Tool
    ensures Clear(h + more)
  {
    ClearConcat(Spent, h, more);
    ClearWithoutTools(Final(Spent, h), more);
  }

  lemma {:induction false} ClearPrefix(h: seq<Message>, n: nat)
    requires Clear(h) && n <= |h|
    ensures Clear(h[..n])
  {
    assert h == h[..n] + h[n..];
    ClearConcat(Spent, h[..n], h[n..]);
  }

  /** The leading system messages do not matter. */
  lemma {:induction false} ClearConversation(h: seq<Message>)
    ensures Clear(h) <==> Clear(Conversation(h))
  {
    hide ClearFrom, Final, LeadingSystems;
    var l := LeadingSystems(h);
    assert h == h[..l] + h[l..];
    ClearConcat(Spent, h[..l], h[l..]);
    ClearWithoutTools(Spent, h[..l]);
    SystemsAreSpent(h[..l]);
  }

  /** A clear conversation does not begin with a tool message. */
  lemma {:induction false} ClearBegins(h: seq<Message>)
    requires Clear(h)
    ensures Conversation(h) != [] ==> Conversation(h)[0].role != Tool
  {
    ClearConversation(h);
    if Conversation(h) != [] && Conversation(h)[0].role == Tool {
      CannotBeCleared(Conversation(h));
    }
  }

  lemma ThreeParts(h: seq<Message>, start: nat, cut: nat)
    requires start <= cut <= |h|
    ensures h == h[..start] + (h[start..cut] + h[cut..])
  {
  }

  /** Behind a tool message only system messages and then a message of the user or the assistant are clear. */
  lemma {:induction false} ClearBehindTool(h: seq<Message>, start: nat, cut: nat)
    requires Clear(h) && 0 < start <= cut <= |h|
    requires forall i :: start <= i < cut ==> h[i].role == System
    ensures ClearFrom(Final(Final(Spent, h[..start]), h[start..cut]), h[cut..])
    ensures h[start - 1].role == Tool && cut < |h| ==> h[cut].role != Tool
  {
    hide ClearFrom, Final;
    ThreeParts(h, start, cut);
    var s := Final(Spent, h[..start]);
    ClearConcat(Spent, h[..start], h[start..cut] + h[cut..]);
    ClearConcat(s, h[start..cut], h[cut..]);
    if h[start - 1].role == Tool && cut < |h| {
      FinalOfTool(h[..start]);
      SystemsAreSpent(h[start..cut]);
      if h[cut].role == Tool {
        CannotBeCleared(h[cut..]);
      }
    }
  }

  /** No segment end of a clear history comes before a tool message, system messages aside. */
  lemma {:induction false} ClearCut(h: seq<Message>, start: nat)
    requires Clear(h) && LeadingSystems(h) < start && SegmentEnd(h, start)
    ensures var l, kept := LeadingSystems(h), Conversation(h[start..]);
            && (kept == [] || kept[0].role != Tool)
            && Clear(h[..l] + kept)
  {
    hide LeadingSystems, Conversation, ClearFrom, Final;
    CutOf(h, start);
    var cut := start + LeadingSystems(h[start..]);
    ClearBehindTool(h, start, cut);
    ClearAfterSystems(h[..LeadingSystems(h)], h[cut..], Final(Final(Spent, h[..start]), h[start..cut]));
  }

  lemma {:induction false} ClearAfterSystems(systems: seq<Message>, kept: seq<Message>, s: Before)
    requires forall i :: 0 <= i < |systems| ==> systems[i].role == System
    requires kept != [] ==> kept[0].role != Tool && kept[0].role != System
    requires ClearFrom(s, kept)
    ensures Clear(systems + kept)
  {
    hide ClearFrom, Final;
    ClearConcat(Spent, systems, kept);
    ClearWithoutTools(Spent, systems);
    if kept == [] {
      NothingClear(Final(Spent, systems));
    } else {
      Forgets(kept, s, Final(Spent, systems));
    }
  }

  lemma NothingClear(s: Before)
    ensures ClearFrom(s, []) && Final(s, []) == s
  {
  }

  lemma CannotBeCleared(ms: seq<Message>)
    requires ms != [] && ms[0].role == Tool
    ensures !Clear(ms)
  {
  }

  lemma {:induction false} FinalOfTool(ms: seq<Message>)
    requires ms != [] && ms[|ms| - 1].role == Tool
    ensures Final(Spent, ms) == Spent
  {
    var n := |ms| - 1;
    assert ms == ms[..n] + [ms[n]];
    ClearConcat(Spent, ms[..n], [ms[n]]);
    ClearOne(Final(Spent, ms[..n]), ms[n]);
  }

  /** A message of the user or the assistant does not care what came before it. */
  lemma {:induction false} Forgets(ms: seq<Message>, s: Before, t: Before)
    requires ms != [] && ms[0].role != System && ms[0].role != Tool
    ensures ClearFrom(s, ms) <==> ClearFrom(t, ms)
  {
  }

  // ---- Histories that can ----

  lemma {:induction false} FinalStep(ms: seq<Message>, n: nat)
    requires 0 < n <= |ms|
    ensures Final(Spent, ms[..n]) == Next(Final(Spent, ms[..n - 1]), ms[n - 1])
    ensures Clear(ms[..n]) <==>
              Clear(ms[..n - 1]) && !(Final(Spent, ms[..n - 1]) == Spent && ms[n - 1].role == Tool)
  {
    hide Final, ClearFrom, Next;
    assert ms[..n] == ms[..n - 1] + [ms[n - 1]];
    ClearConcat(Spent, ms[..n - 1], [ms[n - 1]]);
    ClearOne(Final(Spent, ms[..n - 1]), ms[n - 1]);
  }

  lemma NothingBefore(ms: seq<Message>)
    ensures Final(Spent, ms[..0]) == Spent && Clear(ms[..0])
  {
  }

  /** In an answered history only a tool message comes behind calls. */
  lemma {:induction false} CallingMeans(ms: seq<Message>, n: nat)
    requires n < |ms| && Answered(ms) && Final(Spent, ms[..n]) == Calling
    ensures ms[n].role == Tool
  {
    hide CallIds, Final, ClearFrom;
    NothingBefore(ms);
    FinalStep(ms, n);
    assert CallIds(ms[n - 1].parts) != [];
    assert AnsweredBy(ms[n - 1], ms[n]);
  }

  /** In an answered history, a place is spent at the beginning or behind a tool message, system messages aside. */
  lemma {:induction false} SpentMeans(ms: seq<Message>, n: nat) returns (start: nat)
    requires n <= |ms| && Answered(ms) && Final(Spent, ms[..n]) == Spent
    ensures start <= n && (0 < start ==> ms[start - 1].role == Tool)
    ensures forall i :: start <= i < n ==> ms[i].role == System
  {
    hide Answered, CallIds, Final, ClearFrom;
    if n == 0 || ms[n - 1].role == Tool {
      start := n;
    } else {
      FinalStep(ms, n);
      assert Final(Spent, ms[..n - 1]) == Spent by {
        if Final(Spent, ms[..n - 1]) == Calling {
          CallingMeans(ms, n - 1);
        }
      }
      start := SpentMeans(ms, n - 1);
    }
  }

  /** An answered history that is not clear begins with a tool message or has a segment end that orphans one. */
  lemma {:induction false} OrphanIn(ms: seq<Message>, n: nat) returns (start: nat, at: nat)
    requires n <= |ms| && Answered(ms) && !Clear(ms[..n])
    ensures start <= at < |ms| && (0 < start ==> ms[start - 1].role == Tool) && ms[at].role == Tool
    ensures forall i :: start <= i < at ==> ms[i].role == System
  {
    hide Answered, Clear, Final;
    NothingBefore(ms);
    FinalStep(ms, n);
    if Clear(ms[..n - 1]) {
      start := SpentMeans(ms, n - 1);
      at := n - 1;
    } else {
      start, at := OrphanIn(ms, n - 1);
    }
  }

  /**
   A history that is answered but not clear, and whose conversation does not
   begin with a tool message, has a segment end at which a compaction makes it
   begin with one; whatever is appended is kept behind it.
   */
  lemma {:induction false} CutThatOrphans(h: seq<Message>, more: seq<Message>) returns (start: nat)
    requires Answered(h) && !Clear(h)
    requires Conversation(h) != [] ==> Conversation(h)[0].role != Tool
    ensures var all, l := h + more, LeadingSystems(h);
            && LeadingSystems(all) == l < start <= |h| && SegmentEnd(all, start)
            && Conversation(all[start..]) == Conversation(h[start..]) + more
            && Conversation(h[start..]) != [] && Conversation(h[start..])[0].role == Tool
  {
    hide Answered, Clear, LeadingSystems;
    assert h[..|h|] == h;
    var at;
    start, at := OrphanIn(h, |h|);
    var l := LeadingSystems(h);
    assert l <= at;
    assert start == 0 ==> at == l;
    assert 0 < start;
    assert l < start;
    ConversationAppend(h, more);
    var rest := h[start..];
    assert forall i :: 0 <= i < |rest| ==> rest[i] == h[start + i];
    LeadingSystemsUnique(rest, at - start);
    assert (h + more)[start..] == rest + more;
    ConversationAppend(rest, more);
  }

  // ---- Histories that are valid behind any message ----

  /** Every result answers the message before it, and a tool message that comes first has none. */
  predicate Near(h: seq<Message>) {
    && ProperMessages(h) && Linked(h)
    && (h != [] && h[0].role == Tool ==> ResultIds(h[0].parts) == [])
  }

  /** What can be wrong with such a history is only that a tool message comes first. */
  lemma NearIsValidExactly(h: seq<Message>)
    requires Near(h)
    ensures ValidContext(h) <==> h == [] || h[0].role != Tool
  {
    LinkedIsValid(h);
  }

  lemma ValidIsNear(h: seq<Message>)
    requires ValidContext(h) && ProperMessages(h)
    ensures Near(h)
  {
    LinkedIsValid(h);
  }

  lemma {:induction false} NearConversation(h: seq<Message>)
    requires Near(h)
    ensures Near(Conversation(h))
  {
    hide Answers, ProperRoles, LeadingSystems;
    var l := LeadingSystems(h);
    if 0 < l < |h| && h[l].role == Tool {
      ProperById(h[l - 1]);
      AnswersById(h[l - 1], h[l]);
      NoResults(h[l]);
    }
    NearJoined(h, 0, l);
    assert h[..0] + h[l..] == Conversation(h);
  }

  lemma {:induction false} NearPrefix(h: seq<Message>, n: nat)
    requires Near(h) && n <= |h|
    ensures Near(h[..n])
  {
    hide Answers, ProperRoles;
    assert forall i :: 0 <= i < n ==> h[..n][i] == h[i];
  }

  lemma {:induction false} NearAppend(h: seq<Message>, more: seq<Message>)
    requires Near(h) && ProperMessages(more)
    requires forall i :: 0 <= i < |more| ==> more[i].role != Tool
    ensures Near(h + more)
  {
    hide Answers, ProperRoles;
    var all := h + more;
    forall i | 0 < i < |all| && all[i].role == Tool
      ensures Answers(all[i - 1], all[i])
    {
      assert all[i] == h[i] && all[i - 1] == h[i - 1];
    }
  }

  /** A tool message with exactly the results of the calls before it. */
  lemma {:induction false} NearTools(h: seq<Message>, m: Message)
    requires Near(h) && h != [] && m.role == Tool && ProperRoles(m)
    requires ResultIds(m.parts) == CallIds(h[|h| - 1].parts)
    ensures Near(h + [m])
  {
    hide Answers, ProperRoles;
    var all := h + [m];
    AnswersById(h[|h| - 1], m);
    forall i | 0 < i < |all| && all[i].role == Tool
      ensures Answers(all[i - 1], all[i])
    {
      if i < |h| {
        assert all[i] == h[i] && all[i - 1] == h[i - 1];
      }
    }
  }

  lemma {:induction false} NearRepair(h: seq<Message>)
    requires Near(h)
    ensures Near(Repair(h)) && Answered(Repair(h))
  {
    RepairAnswers(h);
    RepairLinks(h);
    RepairLonger(h);
    if h == [] {
      RepairNone();
    }
  }

  lemma {:induction false} NearCut(h: seq<Message>, start: nat)
    requires Near(h) && LeadingSystems(h) <= start && SegmentEnd(h, start)
    ensures Near(h[..LeadingSystems(h)] + Conversation(h[start..]))
  {
    hide Answers, ProperRoles, LeadingSystems, Conversation;
    var l := LeadingSystems(h);
    CutOf(h, start);
    var cut := start + LeadingSystems(h[start..]);
    if cut < |h| && h[cut].role == Tool {
      BareTool(h, start, cut);
    }
    NearJoined(h, l, cut);
  }

  lemma {:induction false} NearJoined(h: seq<Message>, l: nat, cut: nat)
    requires Near(h) && l <= cut <= |h|
    requires cut < |h| && h[cut].role == Tool ==> ResultIds(h[cut].parts) == []
    ensures Near(h[..l] + h[cut..])
  {
    hide Answers, ProperRoles;
    var t := h[..l] + h[cut..];
    assert forall i :: 0 <= i < |t| ==> t[i] == if i < l then h[i] else h[cut + (i - l)];
    forall i | 0 < i < |t| && t[i].role == Tool
      ensures Answers(t[i - 1], t[i])
    {
      if i == l {
        AnswersById(t[i - 1], t[i]);
      }
    }
  }

  /** Behind a front, and with users at the end, such a history is valid unless it begins with a tool message and has no front. */
  lemma {:induction false} NearInside(front: seq<Message>, c: seq<Message>, users: seq<Message>)
    requires Near(c)
    requires forall i :: 0 <= i < |front| ==> front[i].role != Tool
    requires forall i :: 0 <= i < |users| ==> users[i].role != Tool
    ensures ValidContext(front + c + users) <==> front != [] || c == [] || c[0].role != Tool
  {
    hide Answers, ProperRoles;
    var all, n := front + c + users, |front|;
    LinkedIsValid(all);
    assert forall i :: 0 <= i < |c| ==> all[n + i] == c[i];
    assert Linked(all) by {
      forall i | 0 < i < |all| && all[i].role == Tool
        ensures Answers(all[i - 1], all[i])
      {
        assert n <= i < n + |c|;
        if i == n {
          AnswersById(all[i - 1], all[i]);
        } else {
          assert all[i] == c[i - n] && all[i - 1] == c[i - n - 1];
        }
      }
    }
  }
}
