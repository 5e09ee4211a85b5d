# Firmius core: verified models of the state machines

Firmius is a coding-agent runtime. This project models the parts of its core crate that are
protocols and algorithms rather than plumbing, and proves what they are for:

- **Edit authority** (`EditProtocol`, `EditAuthority`, `EditSystem`): optimistic path
  reservations with a compare-and-swap commit and a journal. Every interleaving of attempts,
  with restarts in between, keeps one holder per path and loses no update; replaying the
  journal gives the live state back.
- **Streaming tool arguments** (`StreamingJson*`): a tokenizer for JSON that is still arriving.
  What it reports on a prefix is compared with what it reports on every longer input, and with
  what the JSON reader gives at the end.
- **Background compaction** (`Transcript`, `Timeline`, `Compaction`, `CompactionSafety`,
  `CompactionAgent`, `Orphans`, `CompactionRuns`, `Selection`, `Provenance`): a prefix of the
  conversation is replaced by a summary while the conversation grows, is healed, rolled back
  or rewound.
- **Turns** (`ToolRepair`, `TurnRollback`, `TurnSafety`, `TurnRequests`): mailbox, history, the
  check of the history, the request built of it, commit boundaries and rollback of a failed
  automatic turn.
- **Messaging and snapshots** (`Mailbox`, `MailboxSafety`, `MailboxOrder`, `Outbox`,
  `SnapshotWriter`, `SessionSaves`): numbering, duplicates, deferral and release of correlated
  messages while calls interleave, the swarm outbox under crashes, and the single snapshot
  writer.
- **Todo ledger and goals** (`TodoSpec`, `TodoLedger`, `TodoSafety`, `TodoCommit`, `GoalSpec`,
  `GoalObject`, `GoalChecks`, `GoalSafety`): a ledger fenced by revisions, and an event-sourced
  goal with a tree of checks.
- **Retries and quoting** (`Retry`, `CommandLine`): the exact retry budget, and the round trip
  between quoting and splitting a command line.

Where the source changes fields in place, the model is a class whose methods are proved to
follow specification functions; the theorems are about those functions and about every run of
steps. A run is a sequence of states and events, or a sequence of events folded over a start.

Results of external code are arguments: a JSON reader, token estimates, whether a write, a
journal append or a workspace check succeeds, fresh ids, and the time.

## Where the code falls short of its intent

Each of these is proved of the code as it is; where a condition decides whether the code does
what is meant, that condition is proved too:

- A bare word at the end of streamed input is reported complete and withdrawn when a letter
  follows (`CompleteFieldsAreFinal`, `CompleteWordCanBeWithdrawn`).
- The field of a key that is repeated can go back from complete to partial (`KeysGoForward`,
  `RepeatedKeyGoesBack`).
- The text shown of an open string is a beginning of its final value only if the string uses
  none but the five escapes that the tokenizer decodes (`PartialIsBeginningExactly`,
  `SlashShownVerbatim`).
- The edit sequence saturates; at its top two overlapping attempts can both win
  (`CommitMakesPeersStale`, `SaturatedCounterLosesUpdates`).
- A compaction can leave a tool message first in the conversation (`CommitIsValidExactly`,
  `CommittedHistoryIsWhole`, `SecondToolOrphaned`). It takes a history that is not clear, that
  is, in which a tool message stands where the calls before it were answered already; no step
  makes one out of a clear one. Its request is accepted, because the summary stands in front.
  If the history has no leading system message, the next check refuses, and so does every
  later one: nothing can be planned, and only a rewind past all input or an older snapshot
  helps (`ChecksPassExactly`, `RunThatIsRefused`, `StuckForGood`, `RewindMendsExactly`). If it
  has one, the check passes, but once the summary is rewound and without a system prompt the
  request begins with that tool message, since it leaves the leading system message out
  (`RequestsAcceptedExactly`, `RunThatSendsOrphan`); and when a persona is set, the snapshot
  leaves it out too (`RestoredRunIsRefused`). A system message that opens the part a
  compaction keeps is dropped (`TailKeptExactly`, `NoteDroppedToolOrphaned`).
- A rewind leaves a projection that fails its own provenance check, until a compaction whose
  summary says something and whose turn does not fail (`RewindInvalidates`,
  `ValidWithTurnsExactly`, `FailureBaresAgain`). A session restored before
  that finds the projection invalid and starts from an empty one, so generation and snapshots
  are forgotten (`crates/core/src/agent.rs:1204-1212`).
- A generation cut short behind a tool call, with input waiting, sends the next request with
  that call unanswered (`ContinuationAnswered`, `CutShortLeavesCallOpen`).
- Only `Session::set_agent_active_goal` releases deferred messages, and only tests call it. The
  runtime sets an agent's slot directly, so a message deferred for a goal keeps waiting while
  the agent works on that goal, and later messages of its thread pass it (`WaitsExactly`,
  `WaitsUntilReleased`, `WaitingIsOvertaken`). Sends that overlap can also change places,
  because a message is numbered under one lock and put into the mailbox under another
  (`StreamOrderedExactly`, `SendsRace`).
- A save by another call between a delivery's record and its mailbox, followed by a crash,
  loses the message: sending it again is a duplicate, and its outbox entry is acknowledged
  (`ArrivedExactly`, `StrandedExactly`, `AcknowledgedAndLost`).
- Rolling a failed automatic turn back also takes back todo changes that were already written
  and reported as done (`FailureUndoesExactlyTheUncommitted`, `FailedTurnLosesAChange`).
- Archiving a todo cycle is always refused: an assessed cycle is erased, any other is active
  (`ArchiveAlwaysRefused`).
- A goal that needs approval can succeed without it by waiting instead of working
  (`ApprovedSuccessExactly`, `UnapprovedSuccess`), and the id of a nested check can be used
  again (`IdsStayDistinct`, `NestedIdsMayCollide`).
- Generations alone do not order snapshots; only the session's lock does
  (`StaleSnapshotMayWin`, `ContentNeverGoesBack`).

Code and comments disagree in two places, and the model follows the code: the tokenizer's
comment (`crates/core/src/partial_json.rs:54`) says a byte order mark is skipped, but U+FEFF is
not white space and is passed over as a stray character, together with a brace after it; and
the coordinator's comment (`crates/core/src/persistence.rs:71-75`) credits generations with
keeping a stale snapshot from replacing a newer one.

## Model

| member | source | states |
|---|---|---|
| `EditSystem.NoLostUpdates` | crates/core/src/edit_coordination.rs:283-520 | Over every run of attempts and restarts, of two commits that share a path the later began at or after the earlier one took effect |
| `EditSystem.Exclusive` | crates/core/src/edit_coordination.rs:365-402 | A path is held by a key exactly if that key has a lease on it, a lease holds all its paths, a waiting attempt holds none, and prepared, active and committed keys are apart |
| `EditSystem.ReservedAttemptsCommit` | crates/core/src/edit_coordination.rs:459-490 | Once every path is reserved, the compare-and-swap before the commit cannot fail |
| `EditSystem.RecoveryIsFaithful` | crates/core/src/edit_coordination.rs:237-257 | At any point of any run, replaying the journal gives the live sequence, generations and winners, so an attempt is stale after a restart exactly if it was before |
| `EditSystem.ReplayRecovers` | crates/core/src/edit_coordination.rs:237-257 | A journal of ordered wins replays to their number, their keys and the last write of every path, with nothing held |
| `EditSystem.RunInv` | crates/core/src/edit_coordination.rs:273-547 | Every state of every run keeps registration, holding, generations, freshness of leases, order of wins and the journal in step |
| `EditSystem.CommitMakesPeersStale` | crates/core/src/edit_coordination.rs:490-512 | A commit makes a peer that began at or before it stale if and only if the peer began below the top of the saturating counter |
| `EditSystem.SaturatedCounterLosesUpdates` | crates/core/src/edit_coordination.rs:490 | At the top of the counter two overlapping attempts on one path both commit, the second on what the first had not written |
| `EditProtocol.AcquireError` | crates/core/src/edit_coordination.rs:378-395 | A reservation is refused exactly if some path has a newer generation or a holder; the first such path in order is reported |
| `EditProtocol.CommitError` | crates/core/src/edit_coordination.rs:462-489 | A commit is refused exactly if some path has a newer generation or another holder |
| `EditAuthority.Authority.WithJournal` | crates/core/src/edit_coordination.rs:228-270 | Opening on a journal gives the replay of its records |
| `EditAuthority.Authority.ReplayRecord` | crates/core/src/edit_coordination.rs:240-256 | One record raises the sequence, adds its winner and stamps its paths |
| `EditAuthority.Authority.Prepare` | crates/core/src/edit_coordination.rs:284-305 | Registration refuses committed, active and prepared keys and records the sequence; a refusal changes nothing |
| `EditAuthority.Authority.TryAcquire` | crates/core/src/edit_coordination.rs:365-420 | All paths are reserved or none; a refused writer lease gives everything back |
| `EditAuthority.Authority.FirstObstacle` | crates/core/src/edit_coordination.rs:378-395 | The first path in order that stops the reservation, by generation before holder |
| `EditAuthority.Authority.Revalidate` | crates/core/src/edit_coordination.rs:459-470 | The compare-and-swap over every path of a lease |
| `EditAuthority.Authority.Commit` | crates/core/src/edit_coordination.rs:474-526 | On success one new generation for all paths, no holder, one journal line; on any refusal the paths are released and nothing is written |
| `EditAuthority.Authority.DropGuard` | crates/core/src/edit_coordination.rs:425-436 | Dropping a guard removes its registration only |
| `EditAuthority.Authority.HeldCount` | crates/core/src/edit_coordination.rs:277-279 | The number of attempts that hold their paths |
| `EditAuthority.Authority.Release` | crates/core/src/edit_coordination.rs:537-547 | Releasing removes exactly the paths this key holds |
| `StreamingJsonStability.PrefixStability` | crates/core/src/partial_json.rs:62-140 | For every input and extension the insertions on the input are the first insertions on the whole; only one whose value ran to the end of the input may be refined |
| `StreamingJsonStability.CompleteFieldsAreFinal` | crates/core/src/partial_json.rs:89-135 | A complete field keeps its value on longer input if and only if it is not a bare word at the very end that a letter continues |
| `StreamingJsonStability.CompleteWordCanBeWithdrawn` | crates/core/src/partial_json.rs:324-337 | The word true at the end of the input is withdrawn when x follows |
| `StreamingJsonStability.KeysGoForward` | crates/core/src/partial_json.rs:62-140 | Per key the reported field goes forward as input arrives if and only if no later insertion of the key stores something else than a refinement; without a later insertion it always does |
| `StreamingJsonStability.DistinctGoForward` | crates/core/src/partial_json.rs:62-140 | With distinct keys every field only moves forward |
| `StreamingJsonStability.RepeatedKeyGoesBack` | crates/core/src/partial_json.rs:62-140 | A concrete input whose repeated key goes back from complete to partial |
| `StreamingJsonEscapes.PartialIsBeginningExactly` | crates/core/src/partial_json.rs:32-45 | For a string value behind any members before it, shown by the tokenizer while it streams in and given by the JSON reader at the end: every text shown is a beginning of the final value if and only if the string uses only the five escapes the tokenizer decodes |
| `StreamingJsonEscapes.OpenInsertion` | crates/core/src/partial_json.rs:62-140 | Whatever follows an opening quote is shown as the text of the last member, as long as it does not close it |
| `StreamingJsonEscapes.PrintedOpens` | crates/core/src/partial_json.rs:62-140 | Every beginning of a printed object that ends at an opening quote is such an input |
| `StreamingJsonEscapes.EarlyTextIsBeginningExactly` | crates/core/src/partial_json.rs:206-244 | The same for the string scanner against the decoding of section 7 of RFC 8259, surrogate pairs included |
| `StreamingJsonEscapes.ShownExactly` | crates/core/src/partial_json.rs:212-225 | A whole string is shown as its value if only the five escapes occur, and as a longer text otherwise |
| `StreamingJsonEscapes.SlashShownVerbatim` | crates/core/src/partial_json.rs:221-224 | An escaped slash is shown with its backslash |
| `StreamingJsonStability.ScanStringExtends` | crates/core/src/partial_json.rs:206-244 | A closed string is final; an open one only grows |
| `StreamingJsonStability.ScanNestedExtends` | crates/core/src/partial_json.rs:247-302 | A balanced or mismatched bracket stays so on longer input |
| `StreamingJsonStability.LetterEndExtends` | crates/core/src/partial_json.rs:324-337 | A bare word ends where it ended unless a letter continues it at the end of the input |
| `StreamingJsonStability.ValueExtends` | crates/core/src/partial_json.rs:186-337 | A value that ended before the end of the input is read the same on longer input |
| `StreamingJsonStability.NextMemberExtends` | crates/core/src/partial_json.rs:71-128 | A key found, or a stray character passed, on the input is found and passed on longer input |
| `StreamingJsonPrinter.RoundTrip` | crates/core/src/partial_json.rs:62-140 | A printed flat object tokenizes to exactly its members, in order and all complete |
| `StreamingJsonPrinter.PrefixesAreHonest` | crates/core/src/partial_json.rs:351-391 | On every prefix of a printed object with distinct keys a complete field is the true value and a partial one a beginning of the true string |
| `StreamingJsonPrinter.PrefixesInventNoKeys` | crates/core/src/partial_json.rs:351-391 | A prefix of a printed object reports only its keys |
| `StreamingJsonPrinter.ParsePrinted` | crates/core/src/partial_json.rs:186-337 | A printed value followed by a comma or brace reads back exactly, with the cursor behind it |
| `StreamingJsonParser.Parse` | crates/core/src/partial_json.rs:32-143 | Complete JSON is read at once, anything else is tokenized; the fields are those of the specification |
| `StreamingJsonParser.ParseSlowly` | crates/core/src/partial_json.rs:49-140 | The main loop makes exactly the specified insertions, and its cursor advances until it ends |
| `StreamingJsonParser.ReadMember` | crates/core/src/partial_json.rs:71-128 | One pass of the main loop up to the value |
| `StreamingJsonParser.ReadString` | crates/core/src/partial_json.rs:206-244 | The string scanner with its five escapes, others verbatim |
| `StreamingJsonParser.ReadNestedValue` | crates/core/src/partial_json.rs:247-302 | The bracket scanner with its closer stack |
| `StreamingJsonParser.ReadNumberValue` | crates/core/src/partial_json.rs:304-322 | A number counts only once something ends it |
| `StreamingJsonParser.ReadLiteralValue` | crates/core/src/partial_json.rs:324-337 | A run of letters is one of three words or nothing |
| `Transcript.ValidateContext` | crates/core/src/types/context.rs:508-536 | The check answers yes exactly if every tool message follows a message with the calls it answers |
| `Transcript.ConsumeTools` | crates/core/src/compaction.rs:357-375 | The pairing step refuses a repeated call, an unopened result and tool parts in other roles |
| `Transcript.FindSafeBoundary` | crates/core/src/compaction.rs:342-355 | The boundary is the largest prefix in which every call has its result |
| `Transcript.ValidPrefix` | crates/core/src/types/context.rs:508-536 | Cutting the end off a valid context leaves a valid one |
| `Transcript.ValidSuffix` | crates/core/src/types/context.rs:508-536 | Cutting the front off leaves a valid one if and only if a tool message does not come first |
| `Timeline.TimelineFromHistory` | crates/core/src/agent.rs:154-190 | The loop builds the specified segments: one ends after a tool message or before a user message, leading system messages left out |
| `Timeline.TimelineContents` | crates/core/src/agent.rs:154-190 | The segments hold the conversation exactly, none is empty |
| `Timeline.LastSegmentStart` | crates/core/src/agent.rs:154-190 | The timeline splits the conversation at the start of its last segment, which follows a segment end |
| `Timeline.TimelineAppend` | crates/core/src/agent.rs:154-190 | Appending messages keeps every segment but the last |
| `Compaction.SummaryRoundTrip` | crates/core/src/compaction.rs:20-49 | Parsing undoes formatting for every summary |
| `Compaction.ParsedIsFormatted` | crates/core/src/compaction.rs:45-49 | Whatever parses is a formatted summary |
| `Compaction.PlanCompaction` | crates/core/src/compaction.rs:601-685 | The planner answers as specified, with its errors in its order |
| `Compaction.PlanCoversAllButLast` | crates/core/src/compaction.rs:601-685 | On non-empty segments a plan exists if and only if there are two segments, roles are valid and pairing is sound before the last; it covers all but the last |
| `CompactionSafety.SourceIsWhole` | crates/core/src/compaction.rs:601-685 | What is planned for a summary is a valid context in which every call has its result |
| `CompactionSafety.TailIsWhole` | crates/core/src/compaction.rs:601-685 | The tail of a plan is by itself a valid context if and only if the history does not end in two tool messages |
| `CompactionSafety.NothingOpenAtSegmentEnd` | crates/core/src/compaction.rs:342-375 | In a valid conversation no call is open at the end of a segment before the safe boundary |
| `CompactionSafety.PlannerAloneMaySeparate` | crates/core/src/compaction.rs:601-685 | On arbitrary segments a plan can part a call from its result |
| `CompactionSafety.RewindCut` | crates/core/src/agent.rs:1810-1847 | The cut is at the requested user message from the end, or after the leading system messages |
| `CompactionSafety.RewindComposes` | crates/core/src/agent.rs:1824-1847 | Rewinding twice is rewinding once by the sum |
| `CompactionSafety.RewindIsWhole` | crates/core/src/agent.rs:1817-1847 | A rewound valid history is a valid prefix that stops before a user message or after the leading system messages |
| `CompactionRuns.CommitsExactlyWhenUnchanged` | crates/core/src/agent.rs:471-519 | Over every run of appends, polls, healing, rollbacks, rewinds and compactions on demand between scheduling and the summary: it is committed if and only if nothing was rewound, the generation is still the planned one and the planned segments still open the timeline; otherwise only the job is gone |
| `CompactionRuns.CompactedNowExactly` | crates/core/src/agent.rs:663-705 | A compaction on demand takes effect if and only if the history can be planned on, and then raises the generation, which makes older plans stale |
| `CompactionRuns.CommitExactly` | crates/core/src/agent.rs:417-466 | The same at one moment, for any history: when a commit takes effect, and all it leaves |
| `CompactionRuns.CommitCommutesWithGrowth` | crates/core/src/agent.rs:370-519 | Appending and healing never invalidate a plan: the commit leaves the leading system messages and the grown history behind the planned messages |
| `CompactionRuns.CommitCommutesWithAppends` | crates/core/src/agent.rs:370-519 | With appending alone it leaves the leading system messages, the last segment planned on and everything appended |
| `CompactionRuns.HealingKeepsOpen` | crates/core/src/agent.rs:1961-1966 | Healing changes nothing before the end of the planned segments, so they still open the timeline |
| `CompactionRuns.SourceIsAnswered` | crates/core/src/compaction.rs:342-375 | In planned messages every call has its result in the very next message |
| `CompactionRuns.TailKeptExactly` | crates/core/src/agent.rs:443-456 | Nothing of the tail is dropped if and only if it does not open with a system message |
| `CompactionRuns.KeptIsCut` | crates/core/src/agent.rs:417-466 | A commit drops what stands between the leading system messages and a segment end, and the system messages behind it |
| `CompactionRuns.CommitIsValidExactly` | crates/core/src/agent.rs:417-466 | What a commit leaves of any valid history is valid if and only if the first message it keeps is no tool message or a leading system message stands before it |
| `CompactionRuns.CommittedHistoryIsWhole` | crates/core/src/agent.rs:417-466 | In terms of the planned history, whatever was appended: valid if and only if it does not end in two tool messages with no leading system message, when its last segment does not open with a system message |
| `CompactionRuns.SecondToolOrphaned` | crates/core/src/agent.rs:417-466 | A concrete valid history that ends in two tool messages, whose commit leaves the second alone and invalid |
| `CompactionRuns.NoteDroppedToolOrphaned` | crates/core/src/agent.rs:443-456 | A concrete valid history in which a dropped system message orphans the tool message behind it |
| `Orphans.CutIsValidExactly` | crates/core/src/agent.rs:441-456 | Dropping the middle of a valid history up to any segment end leaves a valid one if and only if no tool message comes first or a leading system message stands before it |
| `Orphans.ClearCut` | crates/core/src/agent.rs:441-456 | In a clear history no segment end comes before a tool message, and a compaction leaves it clear |
| `Orphans.NearInside` | crates/core/src/types/context.rs:508-536 | A history that is valid behind any message is accepted between a front and user messages if and only if there is a front or it does not begin with a tool message |
| `Orphans.NearCut` | crates/core/src/agent.rs:441-456 | A compaction at any segment end leaves a history valid behind any message |
| `Orphans.RepairClear` | crates/core/src/types/context.rs:544-596 | Healing keeps a history clear and makes none clear |
| `Orphans.CutThatOrphans` | crates/core/src/agent.rs:441-456 | An answered history that is not clear, and does not begin with a tool message, has a segment end at which a compaction makes it begin with one, whatever is appended |
| `CompactionAgent.Agent.Append` | crates/core/src/agent.rs:1587-1597 | Messages go to the end of the history and nothing else changes |
| `CompactionAgent.Agent.SyncProjection` | crates/core/src/agent.rs:269-276 | The projection takes the timeline of the history |
| `CompactionAgent.Agent.Schedule` | crates/core/src/agent.rs:370-413 | At most one job, for the plan on the current history and epoch |
| `CompactionAgent.Agent.Commit` | crates/core/src/agent.rs:417-469 | A commit needs the planned source unchanged; otherwise nothing changes |
| `CompactionAgent.Agent.Poll` | crates/core/src/agent.rs:471-519 | A finished job of the current epoch is committed, any other is dropped |
| `CompactionAgent.Agent.Rewind` | crates/core/src/agent.rs:1824-1847 | A rewind cuts the history, moves the epoch and the generation and drops the job |
| `Selection.SelectSegments` | crates/core/src/compaction_selection.rs:63-125 | The longest prefix that meets tail, safe boundary, pins, importance and token budget, and its tokens |
| `Selection.PlannerAgrees` | crates/core/src/compaction_selection.rs:63-125 | Whenever the planner succeeds, the default selection is its range |
| `Provenance.CompactKeepsValid` | crates/core/src/persistence.rs:701-743 | A compaction keeps the provenance valid if and only if its summary says something once unwrapped; an echoed envelope around nothing does not |
| `Provenance.CompactShape` | crates/core/src/compaction.rs:713-738 | A compaction adds one snapshot of the next generation whose summary parses to what was returned |
| `Provenance.ValidWithTurnsExactly` | crates/core/src/persistence.rs:701-743 | Over every run with automatic turns that may fail, provenance is valid if and only if, of the events no failure took back, no rewind is left without an effective compaction or a restore after it and no compaction that said nothing without a rewind or a restore |
| `Provenance.ValidExactly` | crates/core/src/persistence.rs:701-743 | The same for runs of resyncs, compactions, rewinds and restores alone |
| `Provenance.FailureBaresAgain` | crates/core/src/agent.rs:1931-1936 | A failed turn takes back the compaction that had mended a rewind |
| `Provenance.RunsStayValid` | crates/core/src/persistence.rs:701-743 | Without rewinds and with summaries that say something it is always valid |
| `Provenance.RewindInvalidates` | crates/core/src/agent.rs:250-254 | The run of one rewind is invalid; the next effective compaction that says something mends it, and so does a restore |
| `ToolRepair.RepairDanglingToolCalls` | crates/core/src/types/context.rs:544-596 | The loop adds exactly the specified synthetic results |
| `ToolRepair.RepairAnswers` | crates/core/src/types/context.rs:538-543 | After healing every call has its result right behind it |
| `ToolRepair.RepairIsMinimal` | crates/core/src/types/context.rs:544-596 | Healing changes nothing if and only if nothing dangles, so twice is once |
| `ToolRepair.RepairKeepsValid` | crates/core/src/types/context.rs:544-596 | Healing keeps a valid context valid |
| `ToolRepair.RepairKeepsOthers` | crates/core/src/types/context.rs:579-591 | Only tool messages are added or extended |
| `ToolRepair.RepairSplit` | crates/core/src/types/context.rs:544-596 | Healing does not look across a point behind which nothing dangles |
| `TurnSafety.InputConserved` | crates/core/src/agent.rs:1909-1946 | Over every run, with failures, compactions and crashes, summary, history and mailbox together hold all input once and in order, in memory and on disk; given up is only what a rewind cuts off and what a dropped summary stands for |
| `TurnSafety.RepliesSurvive` | crates/core/src/agent.rs:2337-2343 | What the provider said is kept through every later failure of its turn |
| `TurnSafety.RunConserves` | crates/core/src/agent.rs:1909-1946 | The invariant behind both: going back to the last boundary would lose nothing either |
| `TurnRequests.RequestAcceptedExactly` | crates/core/src/agent.rs:1692-1766 | A request is accepted if and only if a system prompt or a summary stands in front, or the conversation does not begin with a tool message |
| `TurnRequests.RequestsAcceptedExactly` | crates/core/src/agent.rs:1692-1766 | Every request of every run from a valid history is accepted, whatever is compacted, rewound, saved and restored, if and only if there is a system prompt, or the history has no leading system message, or it is clear |
| `TurnRequests.ChecksPassExactly` | crates/core/src/agent.rs:2086-2089 | The check in front of every request of every run passes if and only if the history it starts from is clear, or has a leading system message and no persona is set when it is saved |
| `TurnRequests.RunHolds` | crates/core/src/agent.rs:1909-1946 | No step, failure, compaction, rewind or crash makes a clear history unclear, and what can be wrong with any history is only that a tool message comes first |
| `TurnRequests.RunThatIsRefused` | crates/core/src/agent.rs:2086-2089 | A run in which the request behind a compaction is accepted and the next check of the history refuses |
| `TurnRequests.RestoredRunIsRefused` | crates/core/src/agent.rs:1281-1306 | A run in which a session saved with a persona is restored without its leading system message and refused |
| `TurnRequests.RunThatSendsOrphan` | crates/core/src/agent.rs:1697-1704 | A run in which a history passes its check behind a leading system message that the request then leaves out |
| `TurnRequests.StuckForGood` | crates/core/src/agent.rs:2086-2096 | Once a tool message stands first in the history, every later generation is refused before it could compact, and nothing is compacted between turns, until a rewind past all input or a restored snapshot |
| `TurnRequests.RewindMendsExactly` | crates/core/src/agent.rs:1824-1847 | A rewind mends such a history if and only if it goes past all input, and then leaves nothing |
| `TurnRequests.OrphanedHasNoPlan` | crates/core/src/compaction.rs:601-685 | No plan can be made on such a history, and no older plan still opens it |
| `TurnRequests.CommitIsCompaction` | crates/core/src/agent.rs:417-466 | A commit of background compaction is a compaction of these runs, at the segment end behind the planned messages |
| `TurnRequests.SummaryFollows` | crates/core/src/agent.rs:1204-1212 | The summary these runs remember is that of the projection, in a compaction, a rewind and a restore |
| `TurnRequests.RequestAnsweredExactly` | crates/core/src/agent.rs:1692-1766 | In a request every call has its result if and only if every call in the history has |
| `TurnSafety.RequestsAreAnswered` | crates/core/src/agent.rs:1961-1966 | From the healing of a turn on, every call in a request has its result as long as no message with calls was taken for the last one |
| `TurnSafety.ContinuationAnswered` | crates/core/src/agent.rs:2345-2383 | A turn kept alive by waiting input offers answered calls if and only if its last message had none |
| `TurnSafety.CutShortLeavesCallOpen` | crates/core/src/agent.rs:2345-2383 | A concrete run whose next request leaves a call open |
| `TurnSafety.CompactConserves` | crates/core/src/agent.rs:441-456 | A compaction, in front of a request or between turns, moves messages from the history to what summaries stand for and loses none |
| `TurnRollback.TurnAgent.SubmitMessage` | crates/core/src/agent.rs:1563-1565 | Input goes to the end of the mailbox |
| `TurnRollback.TurnAgent.DrainMailboxIntoHistory` | crates/core/src/agent.rs:1587-1597 | The whole mailbox moves to the end of the history, and to the batch of an automatic turn |
| `TurnRollback.TurnAgent.WakeMailbox` | crates/core/src/agent.rs:1909-1921 | An automatic turn starts only with input waiting, and remembers where to go back to |
| `TurnRollback.TurnAgent.PromptMessage` | crates/core/src/agent.rs:1865-1880 | A prompted turn keeps its message aside and remembers nothing to go back to |
| `TurnRollback.TurnAgent.BeginGeneration` | crates/core/src/agent.rs:2060-2089 | Each generation starts by draining the mailbox and checking the history; a refused one ends the turn |
| `TurnRollback.TurnAgent.MessagesForRequest` | crates/core/src/agent.rs:1692-1766 | The request is the system prompt, the summary, the history without its leading system messages, and derived context |
| `TurnRollback.TurnAgent.PersistenceSnapshot` | crates/core/src/agent.rs:1281-1306 | With a persona the leading system messages are not written |
| `TurnRollback.TurnAgent.Rewind` | crates/core/src/agent.rs:1824-1847 | A rewind cuts the history and drops the summary |
| `TurnRollback.TurnAgent.EnterTurn` | crates/core/src/agent.rs:1959-1978 | The history is healed first, then the caller's own message is queued |
| `TurnRollback.TurnAgent.CommitReply` | crates/core/src/agent.rs:2328-2343 | The provider's message is pushed and becomes the point to go back to |
| `TurnRollback.TurnAgent.Stop` | crates/core/src/agent.rs:2345-2405 | Input that arrived meanwhile keeps the turn going |
| `TurnRollback.TurnAgent.CommitTools` | crates/core/src/agent.rs:2599-2607 | Tool results are pushed and become the point to go back to |
| `TurnRollback.TurnAgent.Fail` | crates/core/src/agent.rs:1931-1942 | An automatic turn goes back to its last boundary with its batch before what arrived; a prompted one keeps its history |
| `MailboxSafety.ThreadsAreGapless` | crates/core/src/session.rs:1902-1924 | Over every run the recorded numbers of a thread are exactly 1 to its counter, each once |
| `MailboxSafety.OnePlace` | crates/core/src/session.rs:1880-2036 | Every message recorded is in exactly one place: it waits, a call carries it, it is in its mailbox, or it is lost; no mailbox gets it twice |
| `MailboxOrder.StreamOrderedExactly` | crates/core/src/session.rs:1940-2036 | Over every interleaving a stream is in order if and only if nothing of it was put into the mailbox before an earlier message that still waited or was still carried and has arrived since |
| `MailboxOrder.WaitsExactly` | crates/core/src/session.rs:1976-2036 | While an agent works on a goal, exactly what waited for it when its slot was set waits for it now, until a release for that goal, after which nothing does |
| `MailboxOrder.WaitsUntilReleased` | crates/core/src/agent.rs:1177-1179 | A deferred message stays deferred exactly as long as no release takes it out; setting the slot never does |
| `MailboxOrder.SerialIsOrdered` | crates/core/src/session.rs:1778-1796 | When calls do not interleave and every change of slot comes with its release, all streams are in order and nothing waits for the goal its recipient works on |
| `MailboxOrder.WaitingIsOvertaken` | crates/service/src/runtime.rs:2778 | A run in which the slot is set without a release: a message waits for the active goal and a later one of its stream overtakes it |
| `MailboxOrder.SendsRace` | crates/core/src/session.rs:1880-1957 | A run in which two sends are numbered in one order and reach the mailbox in the other |
| `MailboxSafety.RedeliveryIsIdempotent` | crates/core/src/session.rs:1896-1901 | A send under an id that was sent before changes nothing, whatever happened in between |
| `MailboxSafety.RunInv` | crates/core/src/session.rs:1880-2036 | Every state of every interleaving keeps numbering, places and what calls still carry in step |
| `Mailbox.Session.DeliverCorrelated` | crates/core/src/session.rs:1880-1973 | A send that nothing interrupts: duplicate, deferred, delivered, queued or audit only, with the new state in each case and when the save fails |
| `Mailbox.Session.RecordSend` | crates/core/src/session.rs:1895-1943 | Under the lock of the records a message is numbered, recorded, and kept back if its goal is not the active one |
| `Mailbox.Session.InjectInto` | crates/core/src/session.rs:1953-1962 | Under the lock of the recipient the next message of a call goes to the end of the mailbox, or is lost without a recipient |
| `Mailbox.Session.SetActiveGoalId` | crates/core/src/agent.rs:1177-1179 | The slot is set and nothing is released |
| `Mailbox.Session.MarkReleasable` | crates/core/src/session.rs:2004-2026 | Exactly the matching deferred messages are marked as delivered, by number and id, and left to the call |
| `Mailbox.Session.SetAgentActiveGoal` | crates/core/src/session.rs:1778-1796 | A change of goal that nothing interrupts: the slot, then the marking, then every marked message in order |
| `Mailbox.Session.SortReleasable` | crates/core/src/session.rs:2006-2020 | The released messages are exactly the matching deferred ones, by number and then id |
| `Outbox.AtMostOnceAndRecorded` | crates/core/src/session.rs:391-478 | In every schedule of commits, drains, saves and crashes a delivery has at most one injection, an acknowledged entry has its record for every recipient on disk, and an unacknowledged one is pending on disk |
| `Outbox.ArrivedExactly` | crates/core/src/session.rs:391-478 | A delivery of an acknowledged entry is in its mailbox if and only if no call still carries it, its recipient was known, no other message of its id waits, and no crash went back to a snapshot that missed it |
| `Outbox.StrandedExactly` | crates/core/src/session.rs:1661-1721 | A message is stranded if and only if a crash went back to a snapshot that has its record and not its arrival |
| `Outbox.MissingExactly` | crates/core/src/session.rs:1661-1721 | A snapshot misses what a call carried when the records were read, and what arrived or found no recipient after the agents were read |
| `Outbox.AcknowledgedAndLost` | crates/core/src/session.rs:391-478 | A run in which a delivery is acknowledged on disk and no mailbox ever got the message |
| `Outbox.AcknowledgedForGood` | crates/core/src/session.rs:462-478 | A crash takes no acknowledgement back |
| `Outbox.MessageIdInjective` | crates/core/src/work/swarm.rs:2307-2314 | Deliveries of different entries or to different recipients have different message ids |
| `Outbox.ScheduleInv` | crates/core/src/work/swarm.rs:1297-1332 | Every state of every schedule keeps outbox, records and acknowledgements in step, in memory and on disk |
| `Outbox.OutboxSession.SendDelivery` | crates/core/src/session.rs:445-453 | A delivery is recorded, and fails only if it is new and its save fails |
| `Outbox.OutboxSession.DrainPending` | crates/core/src/session.rs:410-478 | Exactly fully delivered entries are acknowledged, in one later save; everything else stays pending |
| `SnapshotWriter.DiskNeverGoesBack` | crates/core/src/persistence.rs:81-111 | However savers and the writer interleave, the generation on disk never decreases |
| `SnapshotWriter.AcknowledgedIsDurable` | crates/core/src/persistence.rs:118-132 | A save answered Ok is on disk or superseded by a newer one, from then on |
| `SnapshotWriter.DiskHoldsItsRecord` | crates/core/src/persistence.rs:86-99 | The disk holds the record its generation was drawn for |
| `SnapshotWriter.NewestWins` | crates/core/src/persistence.rs:81-111 | Once all is quiet and no write failed, the record drawn last is on disk |
| `SnapshotWriter.StaleSnapshotMayWin` | crates/core/src/persistence.rs:71-75 | A snapshot taken first but numbered second replaces a newer one |
| `SnapshotWriter.Coordinator.DrawGeneration` | crates/core/src/persistence.rs:118-119 | The first half of a save draws the next generation |
| `SnapshotWriter.Coordinator.Send` | crates/core/src/persistence.rs:120-128 | The second half queues the request |
| `SnapshotWriter.Coordinator.ProcessNext` | crates/core/src/persistence.rs:87-99 | The writer skips an older generation and remembers a written one |
| `SessionSaves.CommittedWorkIsDurable` | crates/core/src/session.rs:683-697 | At every moment the disk has every change of the work state that was reported as done |
| `SessionSaves.ContentNeverGoesBack` | crates/core/src/session.rs:1642-1651 | With the session's lock the contents on disk never go back |
| `SessionSaves.SavedForGood` | crates/core/src/session.rs:1637-1651 | A save that reports success leaves all that was live when it was called on disk for good |
| `SessionSaves.LockedSession.Save` | crates/core/src/session.rs:1637-1651 | A save writes what is live or nothing |
| `SessionSaves.LockedSession.MutateWork` | crates/core/src/session.rs:683-697 | A work change becomes live exactly when it is on disk |
| `TodoSafety.LedgerStaysValid` | crates/core/src/todo.rs:720-772 | From a new ledger every operation, refused or not, leaves one that passes validation |
| `TodoSafety.StepStrong` | crates/core/src/todo.rs:264-680 | Every operation keeps keys, links and evidence, receipts under the item's own cycle included |
| `TodoSafety.RefusalChangesNothing` | crates/core/src/todo.rs:799-815 | A refused operation changes nothing; an effective one was asked for at the current revision and moves it by one |
| `TodoSafety.OneWinnerPerRevision` | crates/core/src/todo.rs:799-808 | Of the operations asked for at one revision at most one takes effect |
| `TodoSafety.FinishedStaysFinished` | crates/core/src/todo.rs:330-456 | A finished item keeps title, status and outcome until its cycle is assessed |
| `TodoSafety.ReadyExactlyWhenDone` | crates/core/src/todo.rs:519-616 | Evaluation is ready if and only if the active cycle has items, all finished, with the evidence they require |
| `TodoSafety.AssessErasesTheCycle` | crates/core/src/todo.rs:618-660 | Assessing erases exactly the active cycle, its items and its receipts; the outcome counts them all |
| `TodoSafety.BatchIsSequence` | crates/core/src/todo.rs:398-441 | Completing a batch is completing its items one by one: accepted in the same cases, equal but for revisions and times |
| `TodoSafety.ArchiveAlwaysRefused` | crates/core/src/todo.rs:662-680 | No run from a new ledger reaches a cycle that can be archived |
| `TodoLedger.AgentLedger.BeginCycle` | crates/core/src/todo.rs:264-294 | Begin follows its specification, errors in order |
| `TodoLedger.AgentLedger.AddItem` | crates/core/src/todo.rs:296-328 | Add follows its specification |
| `TodoLedger.AgentLedger.UpdateItem` | crates/core/src/todo.rs:330-382 | Update follows its specification; a terminal status is refused |
| `TodoLedger.AgentLedger.FinishItem` | crates/core/src/todo.rs:775-798 | The common part of completing and cancelling |
| `TodoLedger.AgentLedger.CompleteItem` | crates/core/src/todo.rs:384-396 | Complete follows its specification |
| `TodoLedger.AgentLedger.CompleteItems` | crates/core/src/todo.rs:400-441 | A batch is checked as a whole and then completed with one revision |
| `TodoLedger.AgentLedger.CancelItem` | crates/core/src/todo.rs:443-456 | Cancel checks its reason before the revision |
| `TodoLedger.AgentLedger.BlockItem` | crates/core/src/todo.rs:458-477 | Block follows its specification |
| `TodoLedger.AgentLedger.AttachEvidence` | crates/core/src/todo.rs:479-517 | Attach follows its specification and appends one receipt |
| `TodoLedger.AgentLedger.EvaluateCompletion` | crates/core/src/todo.rs:519-616 | The loops compute the specified evaluation |
| `TodoLedger.AgentLedger.AssessCycle` | crates/core/src/todo.rs:618-660 | Assess follows its specification and reports what it evaluated |
| `TodoLedger.AgentLedger.ArchiveCycle` | crates/core/src/todo.rs:662-680 | Archive follows its specification |
| `TodoLedger.AgentLedger.Validate` | crates/core/src/todo.rs:720-772 | Validation succeeds if and only if the ledger is well formed, orphans found by counting |
| `TodoCommit.LiveIsDurable` | crates/core/src/session.rs:775-855 | Until an automatic turn fails the live ledger is the one on disk |
| `TodoCommit.FailureUndoesExactlyTheUncommitted` | crates/core/src/agent.rs:1931-1936 | After a failed automatic turn the live ledger is the one on disk if and only if no change since the last boundary took effect |
| `TodoCommit.FailedTurnLosesAChange` | crates/core/src/agent.rs:1931-1936 | A run in which a change is written and reported, the automatic turn fails, and the live ledger no longer has it |
| `TodoCommit.ValidationNeverRefuses` | crates/core/src/session.rs:806-815 | Of a sound ledger every accepted operation makes a candidate |
| `TodoCommit.LiveTodo.MutateAgentTodo` | crates/core/src/session.rs:782-855 | A change becomes live exactly when it is written; otherwise nothing changes |
| `GoalSafety.EventsTellTheGoal` | crates/core/src/goal.rs:711-823 | Over every run from any goal that was created and validated, the events chain, the revision counts them, and with the checks it was created with they give status, reason, checks, evaluations, approval and links |
| `GoalSafety.RecordedRunIsTheRun` | crates/core/src/goal.rs:711-823 | Running the recorded transitions again from the created goal gives the same goal; refused ones leave no trace |
| `GoalSafety.SuccessKeepsItsReasons` | crates/core/src/goal.rs:734-739 | A succeeded goal still satisfies its checks and came from work or waiting |
| `GoalSafety.ActivationWasApproved` | crates/core/src/goal.rs:721-729 | A goal that was ever active has checks and, if it needs one, an approval |
| `GoalSafety.ApprovedSuccessExactly` | crates/core/src/goal.rs:721-739 | A succeeded goal that needs approval lacks it if and only if it holds no approval event; then it was never active and succeeded out of waiting |
| `GoalSafety.UnapprovedSuccess` | crates/core/src/goal.rs:876-911 | A concrete run in which a goal that needs approval succeeds without it |
| `GoalSafety.TerminalForGood` | crates/core/src/goal.rs:716-719 | A terminal goal never changes |
| `GoalSafety.CancellationIsFenced` | crates/core/src/goal.rs:910 | From a requested cancellation the only way out is the cancellation |
| `GoalChecks.OperatorsMean` | crates/core/src/goal.rs:647-664 | What All, Ordered, Any and Quorum ask of the children |
| `GoalChecks.TreeIsMonotone` | crates/core/src/goal.rs:647-680 | As long as no leaf is lost a satisfied check stays satisfied |
| `GoalChecks.PassingNeverHurts` | crates/core/src/goal.rs:456-477 | A passing, attested evaluation takes no satisfied check away |
| `GoalChecks.OthersDoNotMatter` | crates/core/src/goal.rs:665-679 | Only evaluations of its own leaves matter to a check |
| `GoalChecks.AcceptedExactly` | crates/core/src/goal.rs:835-874 | A check is accepted if and only if its nodes are in order and its ids are new and distinct; then all are taken |
| `GoalChecks.IdsStayDistinct` | crates/core/src/goal.rs:766-798 | A check added to distinct ones and accepted leaves all ids distinct if and only if none of its ids is one nested in an older check |
| `GoalSafety.NestedIdsMayCollide` | crates/core/src/goal.rs:766-798 | A run in which an accepted check takes the id of one nested in an older check |
| `GoalObject.LiveGoal.Transition` | crates/core/src/goal.rs:711-794 | A transition is accepted or refused as specified; a refusal changes nothing |
| `GoalObject.CreateGoal` | crates/service/src/runtime.rs:2462-2472 | A goal is created with its checks and approval rule, and refused if they do not validate |
| `GoalObject.LiveGoal.Apply` | crates/core/src/goal.rs:696-709 | A stale revision is refused and changes nothing |
| `GoalObject.LiveGoal.KeepStatus` | crates/core/src/goal.rs:745-789 | The transitions that keep the status, with the checks on evaluations |
| `GoalObject.LiveGoal.AreChecksSatisfied` | crates/core/src/goal.rs:640-645 | A goal without checks is not satisfied |
| `GoalObject.ValidateInto` | crates/core/src/goal.rs:835-874 | The recursive collection of ids |
| `Retry.RetryBound` | crates/core/src/retry.rs:352-414 | However failures fall, requests number at most accounts times attempts, and accounts tried are current plus one |
| `Retry.BoundAttained` | crates/core/src/retry.rs:352-414 | A steady failure is retried exactly that often and then given up |
| `Retry.AccountsInOrder` | crates/core/src/retry.rs:382-402 | Accounts are visited in strictly increasing order, attempts counted anew on each |
| `Retry.RetryController.OnFailure` | crates/core/src/retry.rs:352-414 | The decision and counters are as specified |
| `CommandLine.ParseCommandLine` | crates/core/src/goal.rs:75-145 | The splitter answers as specified, errors in order |
| `CommandLine.QuotingRoundTrip` | crates/core/src/host.rs:413-415 | Quoting and joining any non-empty list and splitting it gives the list back, or a refusal if the first is empty |
| `CommandLine.QuotingInjective` | crates/core/src/host.rs:401-406 | Different command lines never quote to the same text |

## Left out

- `plan_selective` and `apply_selective` (`crates/core/src/compaction.rs:477-597`), which nothing but their own tests calls.
- The selector's diagnostic scores and reasons; token estimates are an argument.
- `ProcBuffer`, process streaming and the rest of `crates/core/src/host.rs` but the quoting pair.
- Provider streaming, permissions, memory retrieval, web search, context budgets, the user interface and the network.
- The work graph, of which only what an outbox entry resolves to and its acknowledgement appear, as arguments and one function.
- JSON text of records and snapshots, UUIDs (fresh ids are assumed fresh), delays and jitter of retries.
- Threads below the level of one lock. In `MailboxSafety`, `MailboxOrder` and `Outbox` a send and a release are several steps, one for each lock they take, and other calls come between them; the contracts of `Mailbox.Session` and `Outbox.OutboxSession` are about one call that nothing interrupts.
- Agents that leave a session or join it twice, and the turn that a delivery wakes.
- A journal append that is written but not synced: an append either succeeds or has no effect.
- Normalising, sorting and deduplicating an attempt's paths: an attempt comes with its list.
- EditSystem.Exclusive: a key is not prepared again while a guard of it whose writer lease was refused still exists; callers number every attempt anew (`crates/core/src/tools/edit.rs:735-747`).
- ReplayRecovers: a journal line that does not parse stops the opening in the source and is not modelled.
- NoLostUpdates: up to 2^64 - 1 commits, because the sequence saturates there; what happens at the top is `CommitMakesPeersStale`.
- Digests are free of collisions: a digest is the segments it was taken of.
- Segment names: the number in the name stands for it.
- ThreadsAreGapless: thread numbers are not saturated at 64 bits.
- The audit-only outcome does not tell a recipient known from the hierarchy from an unknown one; the source does the same for both.
- Outbox.AtMostOnceAndRecorded: acknowledged entries are dropped by an arbitrary choice instead of by age, so that the result holds for every retention limit.
- TurnSafety.RequestsAreAnswered: the retry of a request inside one generation is one step, because it does not touch the history.
- TurnSafety.InputConserved: a prompt whose turn fails before its message enters the mailbox is not input; its caller gets the error.
- TurnRequests.ChecksPassExactly: its compactions are at any segment end up to which the messages are a valid context of their own, which every commit is (`CommitIsCompaction`); which of them a plan picks is in `CompactionRuns`.
- TurnRequests.RequestsAcceptedExactly: the system prompt is the same for all requests of a run; the text of the ledger, memory and continuation messages at the end is any user message.
- CompactionRuns.CommitCommutesWithGrowth: leading system messages hold no tool calls; only assistant messages are given any.
- Rolling back the usage counters that are part of the same agent state.
- GoalChecks.OperatorsMean: the number of satisfied children is not truncated to 32 bits, which matters from 2^32 children on.
- Goal descriptions, owners, deadlines, budgets and timestamps; of `Goal::validate` only what it asks of checks.
- SnapshotWriter.AcknowledgedIsDurable: fewer than 2^64 saves, since the generation counter would wrap.
- Quarantined todo ledgers and the envelope they are stored in; the ledger's rendering for the model.
- TodoCommit.LiveTodo.MutateAgentTodo: a failed validation, a changed owner and a failed save are one error here; quarantine and the owner check before the change are not modelled.
