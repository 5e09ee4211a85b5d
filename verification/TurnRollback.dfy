/**
 Turns of an agent (`run_prompt` and `wake_mailbox` in crates/core/src/agent.rs):
 input waits in a mailbox, a turn moves it into the history, the history is
 checked and a request built of it, the provider's output is a commit boundary,
 and a failed automatic turn goes back to the last boundary with its input at the
 front of the mailbox.
 */
module TurnRollback {
  import opened Prelude
  import opened Transcript
  import opened Timeline
  import opened Compaction
  import opened CompactionSafety
  import CompactionAgent
  import opened ToolRepair

  /** The summary of the last compaction; `canonical` unless it or one before it says nothing. */
  datatype Summary = Summary(text: string, canonical: bool)

  /** What a snapshot on disk holds; `absorbed` are the messages that the summary stands for. */
  datatype Log = Log(history: seq<Message>, absorbed: seq<Message>, mailbox: seq<Message>, summary: Option<Summary>)

  /** Where an automatic turn goes back to, and the input it has consumed since. */
  datatype Rollback = Rollback(history: seq<Message>, absorbed: seq<Message>, summary: Option<Summary>, batch: seq<Message>)

  datatype Phase =
    | Starting   // before the history is healed
    | Healed
    | LoopTop
    | Drawn      // the mailbox is drained
    | Ready      // the history passed its check; a request may go out
    | Replied    // the provider's message is in the history

  datatype Turn =
    | Idle
    | Running(phase: Phase, own: Option<Message>, rollback: Option<Rollback>)

  datatype State = State(log: Log, turn: Turn)

  function TakeMailbox(s: State): State {
    var batch := s.log.mailbox;
    State(s.log.(history := s.log.history + batch, mailbox := []),
          match s.turn
          case Running(_, _, Some(r)) => s.turn.(rollback := Some(r.(batch := r.batch + batch)))
          case _ => s.turn)
  }

  /** The history becomes the point a failure goes back to. */
  function Boundary(s: State): State {
    match s.turn
    case Running(_, _, Some(_)) => s.(turn := s.turn.(rollback := Some(Rollback(s.log.history, s.log.absorbed, s.log.summary, []))))
    case _ => s
  }

  function Submitted(s: State, m: Message): State {
    s.(log := s.log.(mailbox := s.log.mailbox + [m]))
  }

  /** A prompt of its own needs no rollback: its caller can resubmit. */
  function Prompted(s: State, m: Message): State {
    s.(turn := Running(Starting, Some(m), None))
  }

  function Woken(s: State): State {
    s.(turn := Running(Starting, None, Some(Rollback(s.log.history, s.log.absorbed, s.log.summary, []))))
  }

  function Heal(s: State): State
    requires s.turn.Running?
  {
    s.(log := s.log.(history := Repair(s.log.history)), turn := s.turn.(phase := Healed))
  }

  function Entered(s: State): State
    requires s.turn.Running?
  {
    var t := s.(turn := s.turn.(phase := LoopTop, own := None));
    match s.turn.own
    case Some(m) => Submitted(t, m)
    case None => t
  }

  function Drained(s: State): State
    requires s.turn.Running?
  {
    var t := TakeMailbox(s);
    t.(turn := t.turn.(phase := Drawn))
  }

  /** The check in front of a request; a history that fails it ends the turn with an error. */
  function Checked(s: State): State
    requires s.turn.Running?
  {
    if ValidContext(s.log.history) then s.(turn := s.turn.(phase := Ready)) else Failed(s)
  }

  /** Where a compaction goes on behind the segment end `start`: system messages there are dropped. */
  function KeptFrom(h: seq<Message>, start: nat): (cut: nat)
    requires start <= |h|
    ensures start <= cut <= |h|
  {
    start + LeadingSystems(h[start..])
  }

  /** The summary a compaction leaves when the job returns `text`. */
  function Summed(before: Option<Summary>, text: string): Summary {
    Summary(FormatSummary(Unwrap(text)), (before.Some? ==> before.value.canonical) && Unwrap(text) != "")
  }

  /** A committed compaction keeps the leading system messages and what follows the segment end `start`. */
  function Compacted(s: State, start: nat, text: string): State
    requires LeadingSystems(s.log.history) <= start <= |s.log.history|
  {
    var h, n := s.log.history, LeadingSystems(s.log.history);
    var cut := KeptFrom(h, start);
    s.(log := s.log.(history := h[..n] + h[cut..], absorbed := s.log.absorbed + h[n..cut], summary := Some(Summed(s.log.summary, text))))
  }

  /** A rewind cuts the history and drops the summary. */
  function WoundBack(s: State, turns: nat): State {
    if turns == 0 then s
    else s.(log := s.log.(history := Rewound(s.log.history, turns), absorbed := [], summary := None))
  }

  /** What a snapshot holds: with a persona the leading system messages are left out. */
  function Persisted(l: Log, persona: bool): Log {
    if persona then l.(history := Conversation(l.history)) else l
  }

  /** An agent restored from a snapshot: its history is healed, and a summary that is not canonical is not taken up. */
  function Restored(l: Log): State {
    var t := l.(history := Repair(l.history));
    State(if l.summary.Some? && !l.summary.value.canonical then t.(absorbed := [], summary := None) else t, Idle)
  }

  function Reply(s: State, m: Message): State
    requires s.turn.Running?
  {
    Boundary(State(s.log.(history := s.log.history + [m]), s.turn.(phase := Replied)))
  }

  /** The stop policy fired: input that arrived meanwhile keeps the turn going, and so may open todos. */
  function Stopped(s: State, continueTodos: bool): State
    requires s.turn.Running?
  {
    if s.log.mailbox != [] || continueTodos then
      var t := TakeMailbox(s);
      t.(turn := t.turn.(phase := LoopTop))
    else s.(turn := Idle)
  }

  function ToolsDone(s: State, results: seq<Part>): State
    requires s.turn.Running?
  {
    Boundary(State(s.log.(history := s.log.history + [Message(Tool, results)]), s.turn.(phase := LoopTop)))
  }

  function Failed(s: State): State {
    match s.turn
    case Running(_, _, Some(r)) => State(Log(r.history, r.absorbed, r.batch + s.log.mailbox, r.summary), Idle)
    case _ => s.(turn := Idle)
  }

  // ---- The request ----

  function SummaryMessage(summary: Summary): Message {
    Message(User, [Other("<derived_context origin=\"compaction\" trust=\"untrusted\">\n" + summary.text + "\n</derived_context>")])
  }

  /** What stands before the conversation: the system prompt, then the summary. */
  function Front(prompt: Option<string>, summary: Option<Summary>): seq<Message> {
    (match prompt case Some(p) => [Message(System, [Other(p)])] case None => [])
    + (match summary case Some(x) => [SummaryMessage(x)] case None => [])
  }

  /** The request: its front, the history without its leading system messages, and derived context at the end. */
  function Request(l: Log, prompt: Option<string>, derived: seq<Message>): seq<Message> {
    Front(prompt, l.summary) + Conversation(l.history) + derived
  }

  // ---- The agent ----

  class TurnAgent {
    var history: seq<Message>
    var absorbed: seq<Message>
    var mailbox: seq<Message>
    var summary: Option<Summary>
    var turn: Turn

    ghost function Abs(): State
      reads this
    {
      State(Log(history, absorbed, mailbox, summary), turn)
    }

    constructor (history: seq<Message>, mailbox: seq<Message>)
      ensures Abs() == State(Log(history, [], mailbox, None), Idle)
    {
      this.history, absorbed, this.mailbox, summary, turn := history, [], mailbox, None, Idle;
    }

    method SubmitMessage(m: Message)
      modifies this
      ensures Abs() == Submitted(old(Abs()), m)
    {
      mailbox := mailbox + [m];
    }

    method DrainMailboxIntoHistory() returns (pending: seq<Message>)
      modifies this
      ensures Abs() == TakeMailbox(old(Abs())) && pending == old(mailbox)
    {
      pending := mailbox;
      mailbox := [];
      if pending != [] {
        history := history + pending;
      } else {
        assert history + pending == history;
      }
      match turn
      case Running(_, _, Some(r)) =>
        if pending != [] {
          turn := turn.(rollback := Some(r.(batch := r.batch + pending)));
        } else {
          assert r.batch + pending == r.batch;
        }
      case _ =>
    }

    /** `started` is false when there was nothing to do. */
    method WakeMailbox() returns (started: bool)
      requires turn.Idle?
      modifies this
      ensures started == (old(mailbox) != [])
      ensures Abs() == if started then Woken(old(Abs())) else old(Abs())
    {
      started := mailbox != [];
      if started {
        turn := Running(Starting, None, Some(Rollback(history, absorbed, summary, [])));
      }
    }

    method PromptMessage(m: Message)
      requires turn.Idle?
      modifies this
      ensures Abs() == Prompted(old(Abs()), m)
    {
      turn := Running(Starting, Some(m), None);
    }

    /** Heal the history, then put the caller's own message last in the mailbox. */
    method EnterTurn(cancelled: bool) returns (entered: bool)
      requires turn.Running? && turn.phase == Starting
      modifies this
      ensures entered == !cancelled
      ensures Abs() == if cancelled then Heal(old(Abs())) else Entered(Heal(old(Abs())))
    {
      history := RepairDanglingToolCalls(history);
      turn := turn.(phase := Healed);
      if cancelled {
        return false;
      }
      var own := turn.own;
      turn := turn.(phase := LoopTop, own := None);
      if own.Some? {
        SubmitMessage(own.value);
      }
      entered := true;
    }

    /** `ok` is false when the history is not one the provider accepts, which is an error of the turn. */
    method BeginGeneration() returns (ok: bool)
      requires turn.Running? && turn.phase == LoopTop
      modifies this
      ensures Abs() == Checked(Drained(old(Abs())))
      ensures ok <==> ValidContext(Drained(old(Abs())).log.history)
    {
      var pending := DrainMailboxIntoHistory();
      turn := turn.(phase := Drawn);
      ok := ValidateContext(history);
      if ok {
        turn := turn.(phase := Ready);
      } else {
        Fail();
      }
    }

    method MessagesForRequest(prompt: Option<string>, derived: seq<Message>) returns (messages: seq<Message>)
      ensures messages == Request(Abs().log, prompt, derived)
    {
      messages := CompactionAgent.DropSystems(history);
      if prompt.Some? {
        messages := [Message(System, [Other(prompt.value)])] + messages;
      }
      if summary.Some? {
        var at := if messages != [] && messages[0].role == System then 1 else 0;
        messages := messages[..at] + [SummaryMessage(summary.value)] + messages[at..];
      }
      messages := messages + derived;
      ghost var front, rest := Front(prompt, summary), Conversation(history);
      assert rest != [] ==> rest[0].role != System;
      assert messages == front + rest + derived;
    }

    /** What is written of this agent. */
    method PersistenceSnapshot(persona: bool) returns (log: Log)
      ensures log == Persisted(Abs().log, persona)
    {
      log := Log(history, absorbed, mailbox, summary);
      if persona {
        var rest := CompactionAgent.DropSystems(history);
        log := log.(history := rest);
      }
    }

    method Rewind(turns: nat) returns (removed: nat)
      requires turn.Idle?
      modifies this
      ensures Abs() == WoundBack(old(Abs()), turns)
      ensures removed == |old(history)| - |history|
    {
      if turns == 0 {
        return 0;
      }
      var at := RewindCut(history, turns);
      removed := |history| - at;
      history, absorbed, summary := history[..at], [], None;
    }

    /** Make the current trajectory the point to go back to. */
    method Checkpoint()
      modifies this
      ensures Abs() == Boundary(old(Abs()))
    {
      match turn
      case Running(_, _, Some(_)) => turn := turn.(rollback := Some(Rollback(history, absorbed, summary, [])));
      case _ =>
    }

    method CommitReply(m: Message)
      requires turn.Running? && turn.phase == Ready
      modifies this
      ensures Abs() == Reply(old(Abs()), m)
    {
      history := history + [m];
      turn := turn.(phase := Replied);
      Checkpoint();
    }

    method Stop(continueTodos: bool) returns (finished: bool)
      requires turn.Running? && turn.phase == Replied
      modifies this
      ensures Abs() == Stopped(old(Abs()), continueTodos)
      ensures finished <==> turn.Idle?
    {
      var pending := DrainMailboxIntoHistory();
      if pending != [] || continueTodos {
        turn := turn.(phase := LoopTop);
        return false;
      }
      assert history == old(history) by {
        assert old(history) + [] == old(history);
      }
      turn := Idle;
      finished := true;
    }

    method CommitTools(results: seq<Part>)
      requires turn.Running? && turn.phase == Replied
      modifies this
      ensures Abs() == ToolsDone(old(Abs()), results)
    {
      history := history + [Message(Tool, results)];
      turn := turn.(phase := LoopTop);
      Checkpoint();
    }

    method Fail()
      requires turn.Running?
      modifies this
      ensures Abs() == Failed(old(Abs()))
    {
      match turn {
        case Running(_, _, Some(r)) =>
          history, absorbed, summary := r.history, r.absorbed, r.summary;
          var arrivedDuringTurn := mailbox;
          mailbox := r.batch;
          mailbox := mailbox + arrivedDuringTurn;
        case _ =>
      }
      turn := Idle;
    }
  }
}
