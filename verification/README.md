# herdr-distributed-mesh: a verified model

herdr-distributed-mesh is a coordinator with a fleet of nodes.  Operators ask the coordinator for
effects on native Herdr sessions (above all: start an agent, stop an agent), the coordinator admits a
command and dispatches it, and a node carries it out.  Replies get lost, processes die, deadlines pass
and sessions are replaced at any point.  The system's promise is that **an uncertain effect is never
repeated and never misreported**.  This project models the code behind that promise in Dafny and
proves it, together with the smaller state machines the same promise rests on.

    dafny verify dfyconfig.toml

Paths below are relative to the repository's root.

## The model at a glance

| module | what it models | main result |
|---|---|---|
| `Messages`, `Text`, `Requests` | protocol values and their validators | a valid command runs what was submitted (`EffectiveStartIsSubmitted`) |
| `Receipts`, `Histories`, `Outcomes`, `Failures`, `Waiting` | durable lifecycle evidence: one receipt, one history, one result, one polling client | the validator accepts exactly a language of stage histories; advances are a partial order; classification is total |
| `Traces`, `Courses`, `Transcripts`, `Adapter`, `Execution`, `Progress` | one start or stop: the native adapter and the node's `lifecycleMutation` | `LifecycleMutation`: write-ahead at every point of every run, refusals exactly for foreign panes, results honest, success exactly on a table of answers; undisturbed runs succeed and exist for every command |
| `Journal`, `Separation`, `Handler` | the node's command journal and handler | `ClaimedAtMostOnce`, `GrantIsExact`, `RunKeepsApart`, `Handle` |
| `Coordinator`, `Admission`, `Records`, `Sending` | admission and the life of a command record | `ResubmissionReturnsOriginal`, `SubmissionIsExact`, `StepKeepsRecord`, `SentOnceInTime`, `CapacityIsExact` |
| `Mesh` | coordinator, wire and nodes as one step machine with crashes, duplicates and retries | `EachStageAtMostOnce`, `SettledRecordsAreHonest`, `SettledIsFinal`, `OpenEffectsStayApart`, `NoChangeIsRefused`, `MutateInMesh` |
| `Ledger` | the client's request ledger | `Start`: what was submitted is what every retry submits, and names what was found for it |
| `Json`, `Policy`, `Cleanup`, `Setup` | the policy reader, what setup writes, the mesh removal and its round trip | `ReaderIsExact`, `RemovalIsExact`, `SetupIsUndone`, `PolicyRoundTrip`, `PlansAgreeWithRemoval` |
| `Sanitizer` | bounding and sanitising terminal text | `BoundedText`, `ResultIsAccepted` |
| `Fleet` | node streams, fencing, persist before visible | `StreamsOverlapExactly`, `BeginSession`, `List` |
| `Bindings`, `Projects` | disjoint project directories, generation fencing | `Managed.Apply`, `ApplyProject`, `ResolveManaged` |
| `Teardown` | the resumable destroy | `Shutdown`, `ResumableUntilTheEnd`, `StuckAtTheEnd` |
| `Sessions` | the manager of headless sessions, among other callers | `Ensure`, `StartLocked` and `Others`: start exclusion under every interleaving |
| `Control` | one corner of agent control, compared with the lifecycle path | `PinFailuresAreAccepted` |

Whatever the code does not control (native replies, storage, clocks, peers, other processes) is an
argument: a script of answers, or a flag on each call.  A method contract over every script is a
statement about every run.  Code that changes state is a class whose methods are proved against
specification functions; the laws are lemmas about those functions.

Specification functions and the code they stand for: `Receipts.ValidReceipt`
(`protocol/lifecycle.go:100-172`), `Histories.Advance` (`protocol/lifecycle.go:174-208`),
`Outcomes.ValidResult` (`protocol/lifecycle.go:237-278`), `Outcomes.Classify`
(`node/lifecycle.go:215-235`), `Outcomes.ErrorDetail` (`node/lifecycle.go:61-85`), `Outcomes.Recovered`
(`state/lifecycle.go:248-272`), `Histories.SaveProgress` (`state/lifecycle.go:274-316`),
`Requests.Normalize` (`protocol/commands.go:43-80`), `Requests.ValidCommand`
(`protocol/commands.go:97-141`), `Courses.StageCourse` (what every answer must be for a stage of
`herdr/lifecycle.go:373-404` to succeed), `Journal.Claim`, `Save`, `Complete`, `Acknowledge` and
`Recover` (`state/node_journal.go:149-340`, `state/lifecycle.go:194-229`), `Coordinator.Create`
(`state/commands.go:373-447`), `Coordinator.Submit` (`server/commands.go:24-184`), `Records.Step`
(`state/commands.go:449-672`), `Json.DecodeValue` (`deinitnet/policy.go:354-406`), `Policy.RemoveMesh`
(`deinitnet/policy.go:92-172`), `Policy.SupportedAdditions` (`deinitnet/policy.go:408-554`),
`Setup.Merged` (`setup/native.go:346-415`), all under `src/internal/`.

Where a specification function carries a decision that the promise rests on, the decision is stated a
second time, on the plain fields of rows, records, rules, paths and answers, and the two are proved equal:
`Transcripts` for the native answers, `Separation` and `Admission` for what may begin beside open effects,
`Cleanup` for policy rules, `Bindings.Managed.BindableIsSpelledOut` for paths, `Failures` for error details,
`Sending` for dispatch and expiry.

## Where the code falls short of its promise

Each of these is a lemma or a method that constructs a concrete case, next to the exact condition under
which the promise holds.

- **A pane of another provider.** A created pane that already reports some other provider
  (`src/internal/herdr/lifecycle.go:201-205`) yields a receipt the validator refuses
  (`src/internal/protocol/lifecycle.go:128`): `Adapter.ForeignReceiptIsRefused`.  It is the only one:
  `Execution.LifecycleMutation` shows that a receipt is refused exactly when the answers lead to such a
  pane (`Execution.ForeignCourse`), and that the journal is still truthful, because the intent was
  recorded before.  `Progress.EveryStartCanMeetAForeignPane` gives such answers for every start.
- **Null owners.** `supportedOwners` accepts a new tag whose owners are JSON null, and any tag already
  under an empty key (`src/internal/deinitnet/policy.go:448-454`); removal then does not give the old
  policy back: `Policy.NullOwnersAreMissed`, and exactly then: `Policy.PolicyRoundTrip`,
  `Policy.ForeignTagsSlipIn`.  With no section of tag owners the same empty key makes it refuse what setup
  itself wrote: `Setup.EmptyKeyIsRefused`, exactly in the case of `Setup.SetupIsSupported`.  Removal is free
  of it: `Setup.SetupIsUndone`.
- **A stop beside open text.** The fence looks at starts and agent control only
  (`src/internal/state/lifecycle.go:79-82`, `src/internal/state/lifecycle.go:96-99`), so a stop is granted
  while text to the same terminal is still open: `Separation.StopJoinsTyping`, and every stop can meet
  such text: `Separation.EveryStopCanJoinTyping`.  What is granted beside what
  is exact: `Separation.GrantIsExact`; in the order the fence covers, effects stay apart over every run:
  `Separation.RunKeepsApart`, `Separation.LaterTypingStaysApart`.
- **Pruning before draining.** A retired fleet entry can be pruned while a send is in flight, and the
  node's next stream then overlaps with it (`src/internal/server/fleet.go:182-206`):
  `Fleet.PruneLeavesAGap`.  `Fleet.FleetStore.Prune` drops such an entry exactly if an expired one still
  has a registered send or an unfinished transport; streams overlap exactly while a dropped one is not
  drained: `Fleet.StreamsOverlapExactly`, `Fleet.FleetStore.BeginSession`.
- **A deadline inside the pin check of agent control** is reported as a rejection with the detail of a
  timeout (`src/internal/node/agents.go:79-82`), which `src/internal/protocol/agent.go:289-296` does not
  accept: `Control.DeadlineIsRefused` is the case, `Control.PinFailuresAreAccepted` the exact condition,
  and `Control.LifecycleHasNoSuchGap` shows the lifecycle path free of it.
- **`startup_uncertain`** is not in the lifecycle vocabulary, so a session manager that reported it from
  a status query would make the node's own result invalid: `Outcomes.StartupUncertaintyIsRefused`.  The exact
  condition is `Outcomes.ClassificationIsValid`; the codes that a status query does report meet it:
  `Outcomes.CompletionIsAccepted`.
- **The very last step of a teardown** cannot be resumed: when `destroy.json` is gone and the empty
  root directory is not (`src/internal/meshlocal/teardown.go:409-412`), the next run finds neither
  configuration nor record and refuses: `Teardown.StuckAtTheEnd`.  Nothing else is left then, and every
  other state can be resumed: `Teardown.ResumableUntilTheEnd`.
- **Session names.** The documentation asks for portable lower-case names (`README.md:754`); the code
  accepts upper case too and reserves device names whatever their case
  (`src/internal/herdrsession/manager.go:38-53`): `Messages.UpperCaseIsAccepted`.  An accepted name is
  such a portable one exactly if it is its own lower case: `Messages.PortableNames`.

## Model

| member | source | states |
|---|---|---|
| Receipts.ValidateReceipt | src/internal/protocol/lifecycle.go:100-172 | accepts a receipt exactly when it is bounded, names the command's target, tells a prefix of intent/outcome pairs in which each stage needs the one before it confirmed, and its four outcomes repeat what the stages say |
| Receipts.ReplayStages | src/internal/protocol/lifecycle.go:141-171 | the loop over the stages accepts exactly the well-formed stage histories and ends with the last outcome of every stage |
| Receipts.AcceptEvent | src/internal/protocol/lifecycle.go:142-163 | the checks on one event, including the inner scan for a repeated effect |
| Receipts.NextEvent | src/internal/protocol/lifecycle.go:142-165 | after a well-formed history, those checks accept an event if and only if the history with it is well formed |
| Receipts.HeaderIsImplied | src/internal/protocol/lifecycle.go:100-140 | the validator's separate checks of the outcomes and of their dependencies add nothing to the stage history and its summary |
| Receipts.OutcomeAt | src/internal/protocol/lifecycle.go:141-171 | the outcome of each stage is read off its own pair of positions in the history |
| Receipts.StagesDetermineReceipt | src/internal/protocol/lifecycle_limits.go:14-15 | a start has at most 6 events and a stop at most 2, so the limit of 8 never binds; equal stages mean equal outcomes |
| Receipts.StageDependencies | src/internal/protocol/lifecycle.go:125-140 | in a valid receipt a launch that was attempted follows a confirmed pane and a prompt that was attempted follows a confirmed launch; a start never has a stop outcome, a stop never any other |
| Receipts.EarlierConfirmed | src/internal/protocol/lifecycle.go:149-154 | entering a stage at any position means every stage before it was confirmed |
| Receipts.SizeNeverBinds | src/internal/protocol/lifecycle_limits.go:14-15 | a receipt for a supported provider that meets every other condition encodes to at most 1300 bytes, so the limit of 4096 never binds |
| Histories.ValidateAdvance | src/internal/protocol/lifecycle.go:174-208 | accepts exactly when both receipts are valid, the stages of the first are a prefix of the second's, every known identifier and provider is kept, and equal stages mean equal receipts |
| Histories.KeepsStages | src/internal/protocol/lifecycle.go:184-191 | the loop over the stages decides the prefix relation |
| Histories.KeepsPins | src/internal/protocol/lifecycle.go:192-200 | the loop over the identifiers decides that each one is kept once it is known |
| Histories.AdvanceIsPartialOrder | src/internal/protocol/lifecycle.go:174-208 | on valid receipts the relation is reflexive, antisymmetric and transitive |
| Histories.ReportedOutcomesAreFinal | src/internal/protocol/lifecycle.go:174-208 | what a receipt confirmed stays confirmed in every later one |
| Histories.HistoryIsOrdered | src/internal/protocol/lifecycle.go:174-208 | in a chain of advances every earlier receipt is related to every later one |
| Histories.MissedCheckpoints | src/internal/protocol/lifecycle.go:174-208 | a reader that misses checkpoints of a history accepts exactly the rest of it |
| Waiting.WaitCommand | src/internal/control/commands.go:119-173 | every lifecycle record examined is valid and extends all earlier ones, the loop only stops at a terminal record or at a poll it must refuse, and it succeeds exactly on a terminal record that, for a lifecycle command, its receipt supports |
| Histories.ProgressConverges | src/internal/state/lifecycle.go:274-316 | checkpoints that arrive late, twice, or out of order are all accepted and leave the latest one stored |
| Histories.LatestIsMaximum | src/internal/state/lifecycle.go:274-316 | that latest one is the maximum of what was stored and what arrived |
| Histories.AcceptedProgressIsHistory | src/internal/state/lifecycle.go:274-316 | a checkpoint that is accepted, late or not, is one that the stored receipt has passed through |
| Outcomes.ClassificationIsValid | src/internal/node/lifecycle.go:215-235 | for every durable receipt and every error the node's result passes the result validator, exactly unless it takes its detail from a session failure outside the lifecycle vocabulary |
| Outcomes.CompletionIsAccepted | src/internal/node/commands.go:232-243 | with the codes a session manager reports, a lifecycle result passes both checks made before it is stored |
| Outcomes.FirstFailureIsKnown | src/internal/node/lifecycle.go:61-85 | the session failure that decides the detail is one of the known codes when all are |
| Outcomes.RecoveryIsAccepted | src/internal/state/lifecycle.go:248-272 | the result stored for an interrupted command always passes the result validator |
| Outcomes.RecoveryAgreesWithCompletion | src/internal/state/lifecycle.go:248-272 | recovery after a crash reports the same status as an undisturbed finish would, except for a deadline with nothing attempted |
| Outcomes.StartupUncertaintyIsRefused | src/internal/herdrsession/manager.go:280-297 | a startup_uncertain session failure would give a lifecycle result that the validator refuses |
| Outcomes.DenialMeansNothingAttempted | src/internal/protocol/lifecycle.go:237-278 | a valid result that is rejected or timed out carries no attempted stage |
| Failures.MostTellingFailure | src/internal/node/lifecycle.go:61-85 | the detail of a failed run is that of the first among its most telling failures, in the order unresolved, persistence, session, blocked, busy, changed, unsupported, unavailable, deadline, anything else |
| Failures.JoinedFailures | src/internal/node/lifecycle.go:61-85 | when failures are joined, the more telling side is reported, and the first one when both tell as much |
| Traces.SaveKeepsWriteAhead | src/internal/node/lifecycle.go:170-180 | committing an advance with honest outcomes keeps the journal truthful at every point |
| Traces.DispatchKeepsWriteAhead | src/internal/herdr/lifecycle.go:373-404 | sending a mutation keeps it when its intent is durable and nothing was sent for it |
| Traces.WriteAheadPrefix | src/internal/node/lifecycle.go:87-236 | a crash anywhere leaves a truthful journal |
| Traces.SavedAdvances | src/internal/node/lifecycle.go:159-180 | every checkpoint of a truthful run is an advance of the row it left before |
| Traces.TruthfulResultsAreHonest | src/internal/protocol/lifecycle.go:237-278 | any valid result drawn from a truthful journal denies an effect only when no mutation was sent, and claims success only when every requested one was |
| Traces.CrashIsRecoveredHonestly | src/internal/state/lifecycle.go:248-272 | wherever a run is cut, the recovered result is valid and honest about what was sent before, none of it twice |
| Traces.StagesAreSentInOrder | src/internal/herdr/lifecycle.go:162-279 | agent.start is only sent after tab.create was durably confirmed, agent.prompt only after agent.start was |
| Adapter.InitialReceiptIsValid | src/internal/node/lifecycle.go:144-158 | the checkpoint made before anything is attempted is valid |
| Adapter.IntentReceiptAdvances | src/internal/herdr/lifecycle.go:377-381 | the receipt of every stage's intent is a valid advance of the one before it |
| Adapter.OutcomeReceiptAdvances | src/internal/herdr/lifecycle.go:389-403 | and so is the receipt of every outcome, on every path of a start and a stop, unless the new pane reports some other provider |
| Adapter.ForeignReceiptIsRefused | src/internal/herdr/lifecycle.go:201-205 | the receipt of a pane that reports another provider is refused, whatever came before |
| Adapter.LifecycleRun.constructor | src/internal/herdr/lifecycle.go:361-364 | a run begins with nothing attempted and nothing recorded |
| Adapter.LifecycleRun.CheckSession | src/internal/herdr/lifecycle_fencing.go:32-42 | the session check passes exactly when the pinned session still holds, and arms the fence only in the order session, target, session |
| Adapter.LifecycleRun.Save | src/internal/state/lifecycle.go:194-229 | the row changes only to a valid advance; a commit may be left without reply; a refusal is exactly an invalid advance |
| Adapter.LifecycleRun.Hook | src/internal/node/lifecycle.go:159-180 | one event: recorded, then published; success means the row is the receipt with that event |
| Adapter.LifecycleRun.CheckWorkspace | src/internal/herdr/lifecycle.go:436-451 | the workspace is the one that was asked for |
| Adapter.LifecycleRun.ListPanes | src/internal/herdr/lifecycle.go:470-490 | the panes of the session, or a failure |
| Adapter.LifecycleRun.GetAgent | src/internal/herdr/lifecycle_fencing.go:91-97 | the agent of exactly the handle's target |
| Adapter.LifecycleRun.ShellReady | src/internal/herdr/lifecycle_fencing.go:76-88 | passes exactly on the same pane with an idle shell and no agent in it |
| Adapter.LifecycleRun.PromptReady | src/internal/herdr/lifecycle_fencing.go:90-112 | passes exactly on the launched agent, idle and interactive; keeps what it observed |
| Adapter.LifecycleRun.StopReady | src/internal/herdr/lifecycle_fencing.go:114-150 | passes exactly when the named pane is unchanged and not the last of its workspace |
| Adapter.LifecycleRun.FindPane | src/internal/herdr/lifecycle_fencing.go:123-140 | the loop over the panes decides that the pane is the named one and that its workspace has another |
| Adapter.LifecycleRun.IsNew | src/internal/herdr/lifecycle.go:195-200 | the created pane shares no pane, terminal or tab with an earlier one |
| Adapter.LifecycleRun.CreateTab | src/internal/herdr/lifecycle.go:172-207 | sends tab.create once; succeeds exactly on a new pane of the workspace with no agent; confirms what can be confirmed; leaves a foreign pane exactly when the new pane shows another provider |
| Adapter.LifecycleRun.WaitLaunch | src/internal/herdr/lifecycle.go:282-308 | the polling loop succeeds exactly when the requested provider becomes interactive in the same pane |
| Adapter.LifecycleRun.AcceptLaunch | src/internal/herdr/lifecycle.go:237-248 | the reply to agent.start is about the same pane and the requested provider |
| Adapter.LifecycleRun.StartNative | src/internal/herdr/lifecycle.go:218-254 | sends agent.start once and confirms it exactly when the wait succeeds |
| Adapter.LifecycleRun.PromptNative | src/internal/herdr/lifecycle.go:263-278 | sends agent.prompt once and confirms it exactly on a reply about the same agent |
| Adapter.LifecycleRun.CheckVanished | src/internal/herdr/lifecycle.go:343-354 | passes exactly when the pane list that follows has neither the pane nor its terminal, field by field, and the workspace is still there |
| Adapter.LifecycleRun.GoneFrom | src/internal/herdr/lifecycle.go:347-351 | the loop decides that no listed view has the handle's pane or its terminal |
| Adapter.LifecycleRun.CloseNative | src/internal/herdr/lifecycle.go:337-357 | sends pane.close once and confirms it exactly when the list that follows shows neither the pane nor its terminal and the workspace is still there |
| Adapter.LifecycleRun.Refresh | src/internal/herdr/lifecycle.go:162-171 | the read-only checks of the stage, between the two session checks |
| Adapter.LifecycleRun.GuardedEffect | src/internal/herdr/lifecycle_fencing.go:46-73 | a mutation is sent only after session, target and session checks; a failure before that is reported as rejected and nothing was sent |
| Adapter.LifecycleRun.FencedMutation | src/internal/herdr/lifecycle_fencing.go:61-72 | when the session was replaced during the mutation its observations are dropped and its outcome stays unknown; a foreign pane is kept exactly when the session still holds |
| Adapter.LifecycleRun.Intend | src/internal/herdr/lifecycle.go:374-382 | the intent is durable before anything is sent, or nothing is sent at all |
| Adapter.LifecycleRun.Conclude | src/internal/herdr/lifecycle.go:389-403 | the outcome of the stage is recorded; a rejection that cannot be recorded stays unknown |
| Adapter.LifecycleRun.Effect | src/internal/herdr/lifecycle.go:373-404 | one stage: at most one mutation, after its durable intent; success, exactly when every answer along its course is good, leaves it confirmed and durable, and the row is complete exactly when its last stage is stored; the journal refuses a receipt exactly when those answers show a foreign pane |
| Adapter.LifecycleRun.MakePane | src/internal/herdr/lifecycle.go:132-210 | a start up to its created pane |
| Adapter.LifecycleRun.LaunchAgent | src/internal/herdr/lifecycle.go:213-254 | the shell is looked at, then the provider is launched in it |
| Adapter.LifecycleRun.SubmitPrompt | src/internal/herdr/lifecycle.go:255-280 | the agent is looked at, then the initial prompt is submitted |
| Adapter.LifecycleRun.Start | src/internal/herdr/lifecycle.go:132-280 | a whole start: it succeeds exactly on a course of good answers, and the row is complete exactly when some reading of the script as raw answers creates, launches and prompts; a receipt is refused exactly on a course to a foreign pane; however it ends, the journal was truthful throughout |
| Adapter.LifecycleRun.CloseNamed | src/internal/herdr/lifecycle.go:332-358 | the named pane is looked at, then closed |
| Adapter.LifecycleRun.Stop | src/internal/herdr/lifecycle.go:318-359 | a stop: no receipt is ever refused, the row is complete exactly when the answers, one by one, are the right ones, and then a pane list was answered that shows neither the pane nor the terminal of the command |
| Transcripts.StopIsSpelledOut | src/internal/herdr/lifecycle.go:318-359 | the course of a stop is this table of answers: session, pane and neighbour as named before, pane.close acknowledged, and a list with neither pane nor terminal after it |
| Transcripts.StoppedPaneIsGone | src/internal/herdr/lifecycle.go:343-354 | so a stop on record as complete was answered by a pane list that has neither the pane nor the terminal |
| Transcripts.StartIsSpelledOut | src/internal/herdr/lifecycle.go:132-280 | the course of a start is a table of answers: a new empty pane of the workspace, the provider coming up in it after some number of looks, the prompt accepted by that same agent |
| Execution.ResolutionIsKnown | src/internal/node/sessions.go:77-108 | session resolution fails only with the codes of a session manager, session_unavailable or session_replaced |
| Execution.RefusalIsHonest | src/internal/node/lifecycle.go:87-157 | a refusal before the first checkpoint is a valid result and nothing was sent |
| Execution.ClassificationIsHonest | src/internal/node/lifecycle.go:207-235 | the result made from the reloaded row is valid, deliverable and honest about what was sent |
| Execution.CompleteSucceeds | src/internal/node/lifecycle.go:215-235 | a complete row is reported as success, whatever error came with it |
| Execution.Checkpoint | src/internal/node/lifecycle.go:144-158 | nothing starts before the initial checkpoint is durable |
| Execution.Perform | src/internal/node/lifecycle.go:181-206 | the session check and the native run |
| Execution.Conduct | src/internal/node/lifecycle.go:181-236 | from the checkpoint to the result drawn from the reloaded row |
| Execution.LifecycleMutation | src/internal/node/lifecycle.go:87-236 | for every script of the environment: write-ahead at every point; a receipt is refused exactly when setting and script lead to a foreign pane, and then the result is indeterminate and the one mutation sent is on record as possible; the result is valid, equals the row and is honest about the mutations sent; it is success exactly when the answers, one by one, accomplish the command, for a stop only if the list after pane.close shows neither its pane nor its terminal; a refusal before the first checkpoint says why, with nothing sent; when nothing goes wrong it is success |
| Execution.RecordIsSpelledOut | src/internal/node/lifecycle.go:144-214 | the row read back is complete exactly if the checkpoint, the session check, the table of native answers and the last read were all good |
| Execution.AccomplishmentIsSpelledOut | src/internal/node/lifecycle.go:87-236 | and so, from the first answer to the last, is the script of a command that succeeds |
| Progress.CalmStage | src/internal/herdr/lifecycle.go:373-404 | a stage whose target check and mutation succeed among good answers succeeds |
| Progress.EveryCommandCanSucceed | src/internal/node/lifecycle.go:87-236 | for every valid lifecycle command and every ready node some run is undisturbed, so every valid command can succeed |
| Progress.EveryStartCanMeetAForeignPane | src/internal/herdr/lifecycle.go:201-205 | for every valid start, every ready node and every other provider there is a script on which a receipt is refused |
| Requests.NormalizeIsIdempotent | src/internal/protocol/commands.go:43-80 | normalising a request twice is normalising it once; it fills a TTL and a startup timeout and changes nothing else |
| Requests.EffectiveStartIsSubmitted | src/internal/protocol/lifecycle.go:47-77 | what a valid start runs is what was submitted, apart from a revision and an incarnation the operator left open |
| Requests.ValidCommandIsRunnable | src/internal/protocol/commands.go:97-141 | a valid lifecycle command with a resolved session meets everything the adapter and the receipt validator rely on |
| Messages.PortableNames | src/internal/herdrsession/manager.go:38-53 | of the names the code accepts, those that equal their own lower case are exactly the portable lower-case ones |
| Messages.UpperCaseIsAccepted | src/internal/herdrsession/manager.go:38-53 | a name with an upper-case letter is accepted |
| Text.EncodeRoundTrip | src/internal/protocol/lifecycle.go:18-34 | UTF-8 validity, on which prompt checks rest: encoding then decoding gives the same characters |
| Text.DecimalIsInjective | src/internal/protocol/projects.go:17-17 | different generations are written differently |
| Journal.RecoveredFits | src/internal/state/node_journal.go:319-340 | a recovered result fits the command it was stored for |
| Journal.ClaimKeepsRows | src/internal/state/node_journal.go:149-234 | a claim adds at most one valid row and changes no result |
| Journal.SaveKeepsRows | src/internal/state/lifecycle.go:194-229 | a checkpoint only advances its row |
| Journal.RecoverKeepsRows | src/internal/state/node_journal.go:319-340 | recovery gives every open row a valid result and leaves the rest alone |
| Journal.ApplyKeepsRows | src/internal/state/node_journal.go:141-340 | under every operation rows are never dropped, commands never change, results are final and checkpoints only advance |
| Journal.ApplyKeepsSeparate | src/internal/state/lifecycle.go:96-133 | no operation lets two unresolved starts share a workspace of one session incarnation |
| Journal.ClaimedAtMostOnce | src/internal/state/node_journal.go:141-234 | over any sequence of operations at most one delivery of a command id is granted |
| Journal.ReplaysAgree | src/internal/state/node_journal.go:149-234 | once a delivery was answered with a result, all later ones get the same |
| Journal.RunKeepsRows | src/internal/state/node_journal.go:141-340 | the invariants hold over every run, and later rows extend earlier ones |
| Separation.StartIsGranted | src/internal/state/lifecycle.go:48-66 | a start is granted exactly if there is room and no open start is about the same workspace of what may be the same session, told by the fields of the rows |
| Separation.TypingIsGranted | src/internal/state/lifecycle.go:67-76 | text or keys are granted exactly if there is room and no open text, start or stop may be about that terminal of what may be the same session |
| Separation.GrantIsExact | src/internal/state/lifecycle.go:48-133 | any delivery is granted exactly if the command is new and may begin; the fence, the project mutations and the room are told on raw fields |
| Separation.ApplyKeepsApart | src/internal/state/lifecycle.go:96-133 | no operation brings two open starts into one workspace, or two open texts to one terminal, unless both sessions are known and differ |
| Separation.RunKeepsApart | src/internal/state/lifecycle.go:96-133 | and so over every run of operations |
| Separation.LaterTypingStaysApart | src/internal/state/lifecycle.go:67-76 | text that was granted after a start or a stop stays apart from it, over every run, as long as both are open |
| Separation.StopJoinsTyping | src/internal/state/lifecycle.go:97-99 | the other order is not fenced: a stop of a terminal is granted beside open text to it |
| Separation.EveryStopCanJoinTyping | src/internal/state/lifecycle.go:97-99 | for every valid stop: a key to its terminal is granted by an empty journal, and the stop right after it |
| Handler.TracedResultIsHonest | src/internal/node/commands.go:135-244 | a stored lifecycle result is honest about what its run sent |
| Handler.CommandHandler.RefuseFull | src/internal/node/commands.go:164-184 | a full journal refuses, remembering at most 64 refusals |
| Handler.CommandHandler.Admit | src/internal/node/commands.go:154-199 | a delivery is granted exactly when it arrives in time, its command is new and nothing open keeps it out, told by the fields of the rows; otherwise it gets the stored result or an error |
| Handler.CommandHandler.Execute | src/internal/node/commands.go:200-231 | an expired command is not run; a lifecycle command runs through lifecycleMutation |
| Handler.CommandHandler.Complete | src/internal/node/commands.go:232-243 | a result is checked, stored, and only then sent |
| Handler.CommandHandler.Finish | src/internal/node/commands.go:200-243 | from the grant to the reply |
| Handler.CommandHandler.Handle | src/internal/node/commands.go:135-244 | executes exactly the granted deliveries, which are the new commands that nothing open keeps out, and none twice; sends only what is stored; replays the stored result; a lifecycle reply is honest and never an invalid completion; an undisturbed delivery succeeds |
| Handler.CommandHandler.Acknowledge | src/internal/node/commands.go:353-378 | succeeds exactly for a remembered refusal or a stored result with that status |
| Coordinator.CreateKeepsStore | src/internal/state/commands.go:373-447 | creation keeps (actor, key) and agent names unique and touches no other record |
| Coordinator.ResolvedBodyFollows | src/internal/server/commands.go:87-144 | the resolved body follows the submitted one exactly when a request outside managed projects left no blank |
| Coordinator.ResolvedBodyIsValid | src/internal/server/commands.go:87-144 | and then the resolved body is valid |
| Coordinator.ResolutionIsValid | src/internal/server/commands.go:87-171 | a ready request becomes a valid command exactly when a request outside managed projects left no blank |
| Coordinator.AdmittedIdentity | src/internal/server/commands.go:49-66 | the retry identity of an admitted command is exactly the normalised request, whatever resolution filled in |
| Coordinator.ResubmissionReturnsOriginal | src/internal/server/commands.go:44-69 | resubmitting an admitted request returns the original record at any later time; another request under that key is refused |
| Coordinator.SubmitKeepsStore | src/internal/server/commands.go:24-184 | admission keeps the store valid and every earlier record as it was |
| Coordinator.Service.SubmitCommand | src/internal/server/commands.go:24-184 | the imperative admission computes the specified one, and enqueues exactly the created command within the queue's bound; what the specified one creates and refuses is exact (Admission.SubmissionIsExact) |
| Admission.CreationIsExact | src/internal/state/commands.go:373-447 | under a new key, with room, a command is created exactly if no open record keeps it out and its agent name is free; the refusal says which, all on the fields of the records |
| Admission.StartIsResolved | src/internal/server/commands.go:87-144 | when a start is ready, and what its command then is, field by field |
| Admission.ProjectIsResolved | src/internal/server/commands.go:94-119 | the same for a workspace or worktree, under the coordinator's projects or under the node's own policy |
| Admission.SubmissionIsExact | src/internal/server/commands.go:24-184 | and so is a whole request that passes the checks before |
| Admission.SubmitKeepsApart | src/internal/state/lifecycle.go:79-92 | no submission brings two open starts into one workspace of a node, or two open texts to one terminal, unless both sessions are known and differ |
| Admission.StepKeepsApart | src/internal/state/commands.go:449-619 | and neither does any later change of a record |
| Records.StepKeepsRecord | src/internal/state/commands.go:449-619 | every change keeps a record valid: nothing returns to accepted, settled outcomes are final, receipts only advance |
| Records.FinishKeepsRecord | src/internal/state/lifecycle_reconcile.go:14-41 | a node's result is merged into the record without losing evidence |
| Records.TransitionsKeepRecord | src/internal/state/commands.go:151-167 | so do all allowed transitions |
| Sending.DispatchIsTimely | src/internal/state/commands.go:510-547 | a command is sent exactly if its record is still accepted and it has not expired; one that expired waiting is timed out and not sent |
| Sending.ExpiryIsTimely | src/internal/state/commands.go:621-672 | expiry times out what still waits, and makes what was sent uncertain only after its execution time; a running start has its startup time and an allowance on top |
| Sending.LossIsUncertain | src/internal/state/commands.go:621-672 | loss and restart make what was not sent unavailable and what was sent uncertain |
| Sending.SentOnceInTime | src/internal/state/commands.go:449-672 | over every run of changes a command is sent at most once and only before it expires, and until the node reports something the record says exactly whether it was sent |
| Records.MaintenanceAlwaysSucceeds | src/internal/state/commands.go:621-672 | dispatch, loss, expiry and restart never fail on a valid record, whatever progress is stored |
| Records.OpenAuditsAcceptResults | src/internal/server/commands.go:291-311 | a valid result that continues the stored receipt becomes the outcome of a record that is still open exactly if it is the outcome already or the audit has room for it |
| Records.ChangesAreTransitions | src/internal/state/commands.go:449-472 | whatever changes the outcome of a record is one of the allowed transitions, and leaves fewer changes to come |
| Records.AuditExplainsRecord | src/internal/state/commands.go:195-225 | over any changes the audit begins with the admission, goes on by allowed transitions, stays within its capacity and ends with the record's outcome |
| Records.CapacityIsExact | src/internal/state/commands.go:449-472 | no change is refused for a full audit if and only if the changes that are asked for fit into what is left of it; the record is then the one without any audit |
| Records.AuditNeverFills | src/internal/state/commands.go:449-472 | a node that reports one result for a command makes the outcome change at most three times, so none of its changes is refused |
| Records.ContradictionIsRefused | src/internal/state/commands.go:454-456 | for every valid lifecycle command, two contradicting results reported in turn are refused from the fourteenth report on, and not before |
| Mesh.ReachableKeepsInv | src/internal/server/commands.go:233-289 | the invariant of coordinator, wire and nodes holds in every reachable state |
| Mesh.EffectKeepsAudits | src/internal/state/commands.go:449-472 | every step leaves room in every audit for the changes still to come, given the one result the node has stored or will store |
| Mesh.NoChangeIsRefused | src/internal/state/commands.go:449-472 | in every run each record's audit explains it in at most 4 entries, and no step is refused for a full audit |
| Mesh.OpenEffectsStayApart | src/internal/state/lifecycle.go:79-92 | in every run, two starts in one workspace of a node, or texts to one terminal of it, are never open at once in what may be one session |
| Mesh.EachStageAtMostOnce | src/internal/herdr/lifecycle.go:162-279 | over all runs, clients and keys, one agent name on one node and session has each native stage sent at most once; each execution knows only its own trace, and the log joins all of them |
| Mesh.SettledRecordsAreHonest | src/internal/server/commands.go:291-311 | a rejected, timed-out or unavailable record sent nothing and never will; a succeeded one sent every requested stage; a failed one confirmed all it sent |
| Mesh.SettledIsFinal | src/internal/state/commands.go:151-167 | a settled record stays as it is in every continuation |
| Mesh.GrantedStandAlone | src/internal/node/commands.go:157-196 | an execution that the journal grants is the only one of its command: it has no row, no log and no other execution before it |
| Mesh.ActedKeepsInv | src/internal/herdr/lifecycle.go:373-404 | whatever event an execution does next, unguarded but for the journal taking its checkpoints, the command's whole log stays truthful |
| Mesh.NextEventIsAStep | src/internal/herdr/lifecycle.go:373-404 | the next event of an execution is a step of the machine: the log grows by exactly this event and the row is the one its trace leaves |
| Mesh.ExecutionIsReplayed | src/internal/herdr/lifecycle.go:373-404 | so is every part of its trace, event by event |
| Mesh.MutationsAreRuns | src/internal/node/commands.go:157-243 | delivery, all events and the stored result of one execution are a run that leaves the execution's log and row |
| Mesh.MutateInMesh | src/internal/node/commands.go:157-243 | what the node's lifecycle mutation does for any script is such a run, unless another unresolved effect fences its checkpoints |
| Mesh.DeliveredKeepsInv | src/internal/node/commands.go:157-196 | a repeated or reordered delivery keeps the invariant |
| Mesh.CrashedKeepsInv | src/internal/state/node_journal.go:319-340 | a crash with recovery keeps the invariant |
| Mesh.ReportedKeepsInv | src/internal/server/commands.go:291-311 | a reported result keeps it |
| Mesh.RecordedKeepsInv | src/internal/state/commands.go:621-672 | the coordinator's own changes keep it |
| Mesh.SubmittedKeepsInv | src/internal/server/commands.go:24-184 | a submission keeps it |
| Mesh.DispatchedKeepsInv | src/internal/server/commands.go:233-289 | a dispatch keeps it |
| Ledger.Client.Persist | src/internal/app/managed_commands.go:539-598 | a document is written once; what is returned is what is on file; a torn file is never read |
| Ledger.Client.SaveRequest | src/internal/app/managed_commands.go:600-624 | returns the request on file, which is this one but for the key |
| Ledger.Client.ReadRequest | src/internal/app/managed_commands.go:513-535 | absent, unreadable, or the normalised original |
| Ledger.Client.Prepare | src/internal/app/managed_commands.go:673-722 | a name someone else started is refused; otherwise the session and workspace requests are on file before they are submitted, naming this session, project, revision and incarnation |
| Ledger.Client.LaunchStarts | src/internal/app/managed_commands.go:723-730 | the saved start request is normalised and is the start of the operator's intent |
| Ledger.Client.StartAnew | src/internal/app/managed_commands.go:673-731 | a first start is on file before it is submitted; it names the revision, workspace and incarnation that were found, each in its field, with the default timeout; it succeeds when everything it asks for is granted |
| Ledger.Client.Start | src/internal/app/managed_commands.go:638-731 | what is submitted is on file, and what is on file is submitted again by every retry, whatever the outside answers; it starts the agent of the intent, and a first start carries the revision, workspace and incarnation found for it and the default startup timeout, after the session and workspace requests that asked for them |
| Json.ReadValue | src/internal/deinitnet/policy.go:354-406 | the loops over the token stream read what the specification reads |
| Json.ReadObject | src/internal/deinitnet/policy.go:363-386 | and so does the loop over members, refusing a repeated key |
| Json.ReadArray | src/internal/deinitnet/policy.go:387-399 | and the loop over items |
| Json.ReaderIsExact | src/internal/deinitnet/policy.go:352-406 | a stream is accepted, with these tokens left over, exactly when the rest writes a document with unique keys and at most 100 levels, and its meaning is returned |
| Json.WrittenIsRead | src/internal/deinitnet/policy.go:354-406 | every such document is read back |
| Json.ReadIsWritten | src/internal/deinitnet/policy.go:354-406 | and everything that is read is the writing of such a document |
| Json.KeyOrderIsIrrelevant | src/internal/deinitnet/policy.go:363-386 | the order of members does not matter |
| Policy.SelectField | src/internal/deinitnet/policy.go:135-156 | the loop over selectors tells mesh, other, mixed and malformed fields apart |
| Policy.KeepRules | src/internal/deinitnet/policy.go:128-161 | the loop over a section keeps exactly the specified rules; which those are is told by Cleanup.RuleIsJudged and Cleanup.RemovalLeaves |
| Policy.PrepareRemoval | src/internal/deinitnet/policy.go:92-172 | the edits, in the order they are made, compute the specified removal; when it succeeds and what it leaves is told by Cleanup.RemovalIsExact and Cleanup.RemovalLeaves |
| Cleanup.RuleIsJudged | src/internal/deinitnet/policy.go:129-158 | a rule is judged exactly if both fields are selector lists and neither mixes managed and other selectors, which is refused as ambiguous; it goes exactly if a field names managed selectors only |
| Cleanup.RemovalLeaves | src/internal/deinitnet/policy.go:119-162 | when removal succeeds no rule mixes selectors, and a section is left with its other rules, each in its place; every dropped rule had a nonempty field of managed selectors only |
| Cleanup.RemovalLeavesTags | src/internal/deinitnet/policy.go:104-118 | of the tag owners exactly the mesh tags go |
| Cleanup.RemovalIsExact | src/internal/deinitnet/policy.go:92-172 | removal succeeds exactly if there is one section of tag owners at most, every rule can be judged and nothing that stays mentions the mesh |
| Policy.KeptKeepsOrder | src/internal/deinitnet/policy.go:128-161 | exactly the rules without mesh roles stay, each in its place in the order |
| Policy.RemovalByField | src/internal/deinitnet/policy.go:92-172 | only the tag owners, the grants and the ACLs change |
| Policy.RemovalIsIdempotent | src/internal/deinitnet/policy.go:92-192 | after removal no mesh reference is left anywhere, and removing again changes nothing |
| Policy.CleanPolicies | src/internal/deinitnet/policy.go:92-192 | removal leaves a policy alone exactly when it is well formed and mentions no mesh role |
| Policy.AppendedGrantsGo | src/internal/deinitnet/policy.go:501-554 | every grant that setup may append is removed again |
| Policy.PolicyRoundTrip | src/internal/deinitnet/policy.go:408-554 | removing the mesh from a policy that only adds supported additions gives the old policy, up to an added empty section, exactly when no foreign tag slipped in |
| Policy.ForeignTagsSlipIn | src/internal/deinitnet/policy.go:448-454 | a foreign tag is only accepted with null owners, or when the old policy has no owners section and an object under the empty key |
| Policy.NullOwnersAreMissed | src/internal/deinitnet/policy.go:448-451 | a concrete policy whose new tag has null owners is accepted and survives the removal |
| Policy.PlansAgreeWithRemoval | src/internal/deinitnet/policy.go:61-192 | the plan that restores the old snapshot and the removal by ownership give the same policy, up to an added empty section, exactly when setup's policy owns no foreign tag |
| Policy.PolicyPlan.Apply | src/internal/deinitnet/policy.go:221-267 | a plan is used once and posts at most once; each kind of success is reported exactly when an answer showed the desired policy |
| Setup.AddOwners | src/internal/setup/native.go:369-388 | the loop over the roles adds the owner to each, or fails on anything but a list |
| Setup.AddGrant | src/internal/setup/native.go:398-407 | the loop over the grants appends a grant unless one has its route |
| Setup.MergePolicy | src/internal/setup/native.go:346-415 | the edits, in the order they are made, compute the specified policy |
| Setup.OwnersAreWritten | src/internal/setup/native.go:361-389 | the owners can be written exactly if every role that is there has a list; the new owner then comes last unless it was among them, and no other tag changes |
| Setup.AccessIsGranted | src/internal/setup/native.go:390-413 | the old grants stay in front, nodes and clients reach the mesh port and everyone the dashboard, and nothing else is granted |
| Setup.AppendedGrantsAreThese | src/internal/deinitnet/policy.go:501-554 | the grants that are accepted as appended are exactly: the node on port 50052, a client on any port, anyone on any other |
| Setup.OnlySetupAdds | src/internal/deinitnet/policy.go:408-554 | what is accepted adds one owner at most to a role and nothing to another tag that was there, and at most three grants of the kinds above, with different routes and at most one of them off the mesh port |
| Setup.SetupIsSupported | src/internal/deinitnet/policy.go:408-554 | what setup writes is accepted as its own additions exactly unless there is no section of tag owners and the empty key holds an object with other tags or owners |
| Setup.EmptyKeyIsRefused | src/internal/deinitnet/policy.go:425-437 | a concrete policy with an object under the empty key, which setup extends and the snapshot plan then refuses |
| Setup.SetupIsUndone | src/internal/deinitnet/policy.go:92-172 | on every policy without mesh roles, taking the mesh out of what setup wrote gives the policy back, up to an added empty section |
| Setup.SetupIsIdempotent | src/internal/setup/native.go:346-415 | setup done twice is setup done once, so a repeated run has nothing to post |
| Sanitizer.BoundedText | src/internal/herdr/agent_query.go:137-210 | the result is the sanitised longest prefix of the stripped text within the line and byte limits, it tells exactly whether anything was cut, and it passes the text checks made on it later |
| Sanitizer.LongestFitIsMaximal | src/internal/herdr/agent_query.go:137-210 | every fitting prefix is part of that one |
| Sanitizer.ResultIsAccepted | src/internal/protocol/agent.go:211-240 | the result passes the result validator's text checks and stays within the requested lines |
| Sanitizer.FittingLines | src/internal/meshmcp/server.go:303-321 | the reader's line count of a fitting text is within the limit |
| Sanitizer.SanitizedIsClean | src/internal/protocol/agent.go:202-209 | sanitising removes every control and override and never a newline |
| Sanitizer.CleanIsUnchanged | src/internal/protocol/agent.go:202-209 | and changes nothing else |
| Sanitizer.PlainIsUnchanged | src/internal/herdr/agent_query.go:151-196 | stripping leaves a text alone exactly if it has no control of either range but line breaks and tabs, and no DEL |
| Sanitizer.HarmlessIsUnchanged | src/internal/protocol/agent.go:202-209 | sanitising leaves a text alone, and so the validator accepts it, exactly if it has no such control and no bidirectional embedding, override or isolate |
| Sanitizer.StrippedAreScalars | src/internal/herdr/agent_query.go:137-210 | stripping keeps valid characters valid |
| Sanitizer.ControlsAreInvisible | src/internal/herdr/agent_query.go:151-196 | a complete control sequence inserted in plain text changes nothing |
| Sanitizer.ControlSequencesAreComplete | src/internal/herdr/agent_query.go:151-196 | the control sequences of section 5.4 of ECMA-48 are complete, in both forms |
| Sanitizer.StringEndsExactly | src/internal/herdr/agent_query.go:151-196 | a control string goes on exactly as long as no BEL, no ST in either form has ended it; ESC before anything else is part of it |
| Sanitizer.ControlStringsAreComplete | src/internal/herdr/agent_query.go:151-196 | the control strings of section 5.6 of ECMA-48, introduced in either form, with every body that does not end them, ended by ST in either form or by BEL, are complete |
| Fleet.FleetStore.Supersede | src/internal/server/fleet.go:57-68 | retires an entry and changes nothing else |
| Fleet.FleetStore.RegisterSend | src/internal/server/fleet.go:70-80 | no send is registered once the entry is retired |
| Fleet.FleetStore.Save | src/internal/server/fleet.go:164-180 | a view is stored before it is shown; the first storage failure is final |
| Fleet.FleetStore.LoseCommands | src/internal/server/fleet.go:108-118 | a failure of the command journal is a storage failure too |
| Fleet.FleetStore.Prune | src/internal/server/fleet.go:182-206 | exactly the expired entries go, from storage first; a gap opens exactly if one of them still has a registered send or an unfinished transport |
| Fleet.FleetStore.Drop | src/internal/server/fleet.go:195-206 | the expired entries leave the map and the storage, and those still live leave gaps |
| Fleet.FleetStore.StoreBegin | src/internal/server/fleet.go:331-359 | a new stream's view is stored before the stream is installed |
| Fleet.FleetStore.Install | src/internal/server/fleet.go:360-364 | the new entry becomes current |
| Fleet.FleetStore.BeginLocked | src/internal/server/fleet.go:327-365 | a stream starts only in place of a quiet entry and, with healthy storage and room, always does; its entry shows the node connected and ready for nothing |
| Fleet.FleetStore.BeginSession | src/internal/server/fleet.go:283-325 | one pass up to the next wait: the old stream is retired at once and replaced only when its transport is done and its sends have finished; after the deadline nothing is replaced; once it has started, two streams of the node overlap exactly if one that is not current still streams |
| Fleet.FleetStore.Show | src/internal/server/fleet.go:367-390 | a current entry shows a view once it is stored |
| Fleet.FleetStore.End | src/internal/server/fleet.go:367-390 | the stream is retired; its view goes offline if it is still current and the change is stored, and stays as it was otherwise |
| Fleet.FleetStore.Heartbeat | src/internal/server/fleet.go:392-413 | a stream that is not current changes nothing; a current one shows exactly what it stored: each claim stands exactly if the node made it, has the capability and, where it acts on Herdr, was seen ready there within 30 s |
| Fleet.FleetStore.Update | src/internal/server/fleet.go:468-502 | the sequence must grow within the stream; a stream that is not current changes nothing; Herdr out of service takes back what needs it and nothing else |
| Fleet.FleetStore.List | src/internal/server/fleet.go:504-526 | after a storage failure nothing is served; otherwise every view served is the stored one |
| Fleet.FleetStore.Restore | src/internal/server/fleet.go:208-248 | the stored rows are refused exactly if one is malformed, too large or repeats an identity; otherwise the views come back with none of them live, and exactly the expired ones are dropped |
| Fleet.CheckRows | src/internal/server/fleet.go:208-240 | the loop over the stored rows accepts exactly the well-formed ones with distinct identities within the size limit |
| Fleet.StreamsOverlapExactly | src/internal/server/fleet.go:283-365 | in every state two streams of a node can be sending at once exactly if a dropped entry of it still streams next to another |
| Fleet.ReplaceKeeps | src/internal/server/fleet.go:360-364 | replacing a quiet entry keeps the fence and the stored views |
| Fleet.PruneKeeps | src/internal/server/fleet.go:182-206 | pruning keeps them, with exactly the gaps it makes |
| Fleet.PruneLeavesAGap | src/internal/server/fleet.go:182-206 | a run in which two streams of one node have sends in flight, because the first was pruned before it drained |
| Fleet.BeatIsBacked | src/internal/server/fleet.go:392-413 | readiness is only claimed with the capability and a fresh observation |
| Fleet.ReportedIsServed | src/internal/server/fleet.go:504-530 | what a listing says of a node is what its last heartbeat reported, as long as the observation behind it, or for sessions the heartbeat itself, is less than 30 s old and the stream is current |
| Bindings.HasAncestor | src/internal/projects/managed.go:236-251 | the upward walk finds the pinned directory exactly when it is an ancestor or the directory itself |
| Bindings.DirectoriesOverlap | src/internal/projects/worktree.go:82-98 | comparing identities along both chains decides exactly whether one directory contains the other |
| Bindings.ValidateWorktreeOverlaps | src/internal/projects/worktree.go:61-78 | a policy is accepted exactly when every worktree root is apart from every checkout and every other root |
| Bindings.AbsentLeaf | src/internal/projects/managed.go:165-172 | for a root that does not exist yet, checking its parent's ancestors decides disjointness |
| Bindings.Managed.Resolve | src/internal/projects/managed.go:30-41 | the binding of exactly this project and revision |
| Bindings.Managed.CollectPins | src/internal/projects/managed.go:158-163 | another project's pins are collected if the checkout is apart from them |
| Bindings.Managed.OtherPins | src/internal/projects/managed.go:150-164 | the loop decides whether the checkout is apart from every other project's pins |
| Bindings.Managed.RootClear | src/internal/projects/managed.go:165-176 | the loop decides whether the root is apart from all of them |
| Bindings.Managed.LocateRoot | src/internal/projects/managed.go:125-145 | where the root goes, before it exists |
| Bindings.Managed.MakeRoot | src/internal/projects/managed.go:191-201 | a missing root, and nothing else, is made; what was there stays |
| Bindings.Managed.Apply | src/internal/projects/managed.go:99-213 | binds exactly when checkout and root are apart from each other and every other project's, the root is its own, empty or new, and nothing interrupts; the root is the requested leaf under the requested parent, or the checkout's sibling; a root that held anything was the project's own or the adopted one; a failure changes no binding; bindings stay disjoint |
| Bindings.Managed.BindableIsSpelledOut | src/internal/projects/managed.go:99-213 | when apply binds, told by paths and identities alone |
| Bindings.Managed.PathsNeverNest | src/internal/projects/managed.go:150-176 | no path of a project lies in or around a path of another, nor its own root in or around its checkout |
| Bindings.Managed.Create | src/internal/projects/managed.go:177-213 | ownership, mkdir and the new binding, whose root held nothing unless it was the project's own or the adopted one |
| Bindings.Managed.AdoptLegacy | src/internal/projects/managed.go:66-75 | binds exactly when the legacy pins still hold and apply would bind them; bindings stay disjoint |
| Bindings.Managed.RestoreOwnership | src/internal/projects/managed.go:79-97 | binds exactly when both paths exist and could be adopted as they are now |
| Bindings.BoundStays | src/internal/projects/managed.go:202-212 | adding a fitting binding keeps all pins disjoint |
| Bindings.FitsApart | src/internal/projects/managed.go:150-176 | the two loops of checks imply that the new binding is apart from every other |
| Bindings.GrownTree | src/internal/projects/managed.go:191-201 | making a directory keeps the tree sound and every pin where it is |
| Projects.RevisionsDiffer | src/internal/protocol/projects.go:17-17 | revisions of different generations differ |
| Projects.ProjectHandler.SaveConfig | src/internal/state/node_projects.go:90-131 | a configuration is stored exactly if nothing later, and nothing else for its generation, is stored |
| Projects.ProjectHandler.Restart | src/internal/node/projects.go:25-63 | a new stream sees no older generation than the last one, binds again only retained successes, each to its own revision, and hands out none of them before a delivery |
| Projects.ProjectHandler.Reclaim | src/internal/node/projects.go:104-117 | reclaiming ownership touches no other project's binding |
| Projects.ProjectHandler.ApplyProject | src/internal/node/projects.go:65-135 | the seen generation never decreases; stale and conflicting deliveries are exactly those refused, and change nothing; a known one gets its outcome again; an unhindered new one is applied |
| Projects.ProjectHandler.Bind | src/internal/node/projects.go:103-134 | the outcome that is recorded is the outcome of binding |
| Projects.ProjectHandler.ResolveManaged | src/internal/node/projects.go:137-145 | yields a binding exactly for the revision applied in this stream, which is the latest seen generation |
| Teardown.Installation.SaveRecord | src/internal/meshlocal/teardown.go:222-241 | a destroy record is validated and replaced as a whole |
| Teardown.Installation.RemoveFiles | src/internal/meshlocal/teardown.go:358-372 | files go one by one, only once the removals are on record |
| Teardown.Installation.RemoveLocks | src/internal/meshlocal/teardown.go:382-408 | locks go after the configuration |
| Teardown.Installation.EraseData | src/internal/meshlocal/teardown.go:350-381 | guards, data and configuration, in this order |
| Teardown.Installation.EraseRecord | src/internal/meshlocal/teardown.go:409-412 | destroy.json goes last of all files, and then the root |
| Teardown.Installation.Erase | src/internal/meshlocal/teardown.go:350-412 | the parts in order: when all effects work nothing is left, and when only the last is lost the empty root is |
| Teardown.Installation.Purge | src/internal/meshlocal/teardown.go:312-413 | nothing is purged without the required removals on record, and destroy.json is the last file to go |
| Teardown.Installation.RemoveRemotely | src/internal/onboard/shutdown.go:169-186 | each remote removal is confirmed, then recorded |
| Teardown.Installation.FindRecord | src/internal/onboard/shutdown.go:131-148 | a run works on the retained record or on a fresh one of the same kind |
| Teardown.Installation.RemoveAll | src/internal/onboard/shutdown.go:166-192 | daemon, remote steps and local files, in this order, once the record is written |
| Teardown.Installation.Tear | src/internal/onboard/shutdown.go:127-192 | the steps of one run; a first or resumed run that nothing disturbs finishes |
| Teardown.Installation.Shutdown | src/internal/onboard/shutdown.go:35-199 | over any sequence of interrupted runs the record keeps its configuration, device and policy choice and its flags only go up; success means nothing is left; an unobstructed run succeeds, the first one too; a run whose very last effect is lost stops with the empty root left; a dry run changes nothing |
| Teardown.StuckAtTheEnd | src/internal/meshlocal/teardown.go:409-412 | for every client installation: a run that loses its last effect leaves the empty root, and the next run refuses |
| Teardown.Installation.ResumableUntilTheEnd | src/internal/meshlocal/teardown.go:43-52 | a run can be resumed exactly while the configuration or the record is left, and when neither is, nothing else is |
| Teardown.Installation.RecordsTellTheTruth | src/internal/meshlocal/teardown.go:222-241 | a record of a local teardown claims no remote removal, any other names a device, and what a record says was removed is gone |
| Sessions.Manager.Others | src/internal/herdrsession/manager.go:132-143 | whenever the gate is free other callers may run any number of gated regions; processes are only added, and only theirs |
| Sessions.Manager.Visit | src/internal/herdrsession/manager.go:215-356 | one gated region of another caller |
| Sessions.Manager.Take | src/internal/herdrsession/manager.go:132-143 | the gate is held exactly when the caller stayed until it had it |
| Sessions.Manager.Lock | src/internal/herdrsession/manager.go:132-143 | the same after the others' turn |
| Sessions.Manager.Unlock | src/internal/herdrsession/manager.go:132-143 | the gate is released by its holder, once |
| Sessions.Manager.StatusLocked | src/internal/herdrsession/manager.go:167-213 | the status is what the native query means given whether a start is pending; a start that exited or was seen ready is forgotten |
| Sessions.Manager.Status | src/internal/herdrsession/manager.go:215-226 | the same under the gate, which is released; a caller that nobody disturbs learns what the third answer means |
| Sessions.EachAnswerHasItsCode | src/internal/herdrsession/manager.go:167-213 | a failed query, a malformed answer, an unsupported protocol and a missing identity are each reported by their own code, and nothing else is a failure |
| Sessions.Manager.ListLocked | src/internal/herdrsession/manager.go:228-277 | lists the reported sessions and every pending start, at most 64 |
| Sessions.Manager.ListReported | src/internal/herdrsession/manager.go:243-258 | the loop over reported sessions lists each once |
| Sessions.Manager.ListPending | src/internal/herdrsession/manager.go:259-274 | the loop over pending starts adds those still pending |
| Sessions.Manager.List | src/internal/herdrsession/manager.go:299-307 | the same under the gate, which is released |
| Sessions.Manager.StartNative | src/internal/herdrsession/manager.go:352-356 | a native start is issued only while no earlier one of the name is pending |
| Sessions.Manager.StartNew | src/internal/herdrsession/manager.go:336-356 | a start needs room, and at most one process is started, with none of the name pending beside it |
| Sessions.Manager.StartLocked | src/internal/herdrsession/manager.go:324-356 | a running session is returned, a pending start is refused as such and nothing else is, a failing query is reported by its code; otherwise one is started; then every other process of the name has exited or was observed ready |
| Sessions.Manager.Ensure | src/internal/herdrsession/manager.go:309-389 | whatever others do in between, this call starts at most one native process, and every earlier one of the name has then exited or was observed ready; all other new processes are others'; alone, a running server is found, a clean start succeeds, and nothing is started unless the server is known not to run |
| Sessions.Manager.Wait | src/internal/herdrsession/manager.go:361-389 | the wait does not hold the gate, others come and go during it, and it succeeds only on a ready server |
| Sessions.Manager.OnePendingStart | src/internal/herdrsession/manager.go:309-389 | what the invariant that Others, StartLocked and Ensure keep means: at most one start of a name is pending |
| Sessions.NoneTracked | src/internal/herdrsession/manager.go:328-335 | a name that nothing is remembered for has no pending process |
| Control.ControlFailuresAreAccepted | src/internal/node/agents.go:84-132 | a failed native call gives an accepted result, and denies an effect only when it was not reported as indeterminate |
| Control.MostTellingFailure | src/internal/node/agents.go:105-131 | a failed native call is reported as the first of its most telling failures, and as uncertain when it is none of the known ones |
| Control.PinFailuresAreAccepted | src/internal/node/agents.go:79-82 | a failure of the pin check is accepted exactly unless nothing but the deadline is reported |
| Control.DeadlineIsRefused | src/internal/protocol/agent.go:289-296 | a deadline and nothing else gives a result that is refused |
| Control.LifecycleHasNoSuchGap | src/internal/node/lifecycle.go:215-235 | on the lifecycle path the same error is a timeout that the validator accepts |

## Left out

- Protobuf: encodings, unknown fields and message size limits, except the size of receipts, which is
  computed.  A command has one typed body, so mixed bodies cannot be written down; an absent handle or
  target is the one whose fields are all empty.
- Go strings are byte sequences; identifiers and prompts are modelled as such, and a terminal text is
  the sequence of characters that ranging over it yields.
- Time: deadlines, timeouts and timers are answers of the environment that may come at any step.  The
  lengths of timers are not modelled; TTLs, startup timeouts and retention periods are.
- Transport, authentication and peer verification are yes-or-no inputs; the network is the set of
  messages that may arrive, repeated and in any order.
- SQLite: transactions are atomic; each may commit, fail, or commit without its reply being seen.
- Commands that are not lifecycle commands: their results' payloads and detail vocabularies
  (`src/internal/protocol/workspace.go`, `src/internal/protocol/worktree.go`), and the effects behind
  them, are inputs of the handler; only claiming, completing and replaying them is modelled.
- The times in the audit, and journal maintenance and backup tools.
- Resource scopes are compared as they are, not by their digests.
- Agent selection and target matching for queries (`src/internal/protocol/agent.go:143-258`), agent
  control's success paths, dashboards, command-line parsing and output, the MCP schemas, bootstrap and
  Git: flat case lists or plumbing.
- Adapter.LifecycleRun.CheckSession: the adapter's variant without a session check is not modelled; the
  node always supplies one.
- Adapter.LifecycleRun.CreateTab: the fields of the created tab other than its pane are one flag, and
  the identity of the working directory is another.
- Execution.LifecycleMutation: that its result is accepted rests on session managers reporting the
  documented codes; everything it says about the journal does not.
- Mesh.MutateInMesh: it speaks of executions that no other unresolved effect fences; a fenced one stops
  where the journal refuses its checkpoint, which the machine allows too.
- Mesh.ReachableKeepsInv: the machine takes arbitrary submissions, so the client's ledger is not part of
  its state; it covers all request streams the ledger can produce.
- Mesh.SettledRecordsAreHonest: it says what a settled record means, not that every record settles.
- Journal.ClaimKeepsRows: of the fences for other command types only the one on unresolved project
  mutations is modelled.
- Ledger.Client.Start: session, project and workspace replies are given as what their validation left;
  the validation itself is not modelled.
- Fleet.FleetStore.BeginSession: one pass up to its next wait, with the deadline as an input; the loop
  around it repeats that pass.
- Fleet.FleetStore.Restore: how a stored view decodes is part of the row.
- Fleet.FleetStore.Update: validation of the reported Herdr state is one flag.
- Bindings.Managed.Apply: directories are only added while a binding exists, each has one identity and
  one canonical path, and the path checks of `realCheckout` are the presence of a canonical path.
- Bindings.AbsentLeaf: bind mounts and case-insensitive names are outside the tree model.
- Projects.ProjectHandler.Restart: a failure to read the journal ends the stream before anything happens,
  and the map of legacy bindings is given to each delivery instead.
- Projects.ProjectHandler.Reclaim: the legacy binding is given when its paths match the configuration.
- Policy.PolicyPlan.Apply: HTTP requests are their classified answers; a second client's writes appear
  only as an ETag mismatch.
- Setup.MergePolicy: only the edits of the policy; its warnings, the backup file, the conditional POST and
  the role keys are not part of this model.
- Json.ReadValue: it reads tokens; the lexer of `encoding/json` is not part of this model.
- Teardown.Installation.Shutdown: the ordinary shutdown without `--destroy` and the discovery of the
  device's identity are not modelled, and links inside the installation are assumed away.
- Sessions.Manager.Others: other callers are gated regions of the same manager, any number of them at
  every release of the gate; processes exit only when something is asked.
- Sessions.Manager.ListReported: the default flag of a reported session and the order of the list.
- Sanitizer.BoundedText: replies are valid UTF-8, and the requested number of lines is at least one.
