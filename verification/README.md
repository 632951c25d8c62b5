# Verification of the agent runtime

This project models the protocols of the agent runtime in Dafny and proves what they promise, for every
behaviour of the language model, the tools, the workers and the handlers, which appear only as arbitrary
functions or scripts. It has five parts.

- **The supervisor's TaskLoop** (`TaskBoard`, `Departments`, `CommandBridge`, `Rounds`, `Turns`, `TaskLoop`,
  `BoardInvariants`, `RoundOrder`, `TaskLoopRuns`, `TaskLoopRepeats`, `TaskLoopCrashes`, `TaskLoopRestarts`,
  `TaskLoopRecords`): the Blackboard and its checkpoint codec, the command queue, department expansion, worker turns
  and their order, acceptance judging, the three loop guards, and whole histories of crashes and resumes. A crash
  keeps any prefix of the saves a drive makes; a resume decodes the last one.
- **The agent graph** (`Discipline`, `AgentGraph`, `GraphRuns`, `GraphRequests`, `GraphTranscript`, `GraphNodes`): the
  six nodes, their declared edges, what becomes of each thing the model asks for, the session codec and the budgets.
  Every oracle may depend on all external calls made so far.
- **Sessions and delegation** (`Sessions`, `Delegation`, `DelegationManager`, `GraphChild`): lifecycle, scopes, the
  session tree, the durable progress store, the manager's call protocol with an arbitrary handler, and the child that
  runs on the agent graph.
- **The kernel pipeline and retrieval** (`KernelPipeline`, `KernelResults`, `Chunking`, `Retrieval`,
  `LazyCollection`): the middleware fold and what a caller sees of a tool's result, overlapping windows, the list
  store against the keyed store, ranked search, and lazy creation by concurrent threads.
- **Two algorithms** (`JsonRepair`, `Redaction`): the bracket-repair scanner and the recursive redactor.

`Text` and `Ordering` hold strings and sorting. Code that updates state is modelled by classes and methods with
loops, each proved equal to a function of the old state; what the code promises is proved about those functions
as lemmas over whole runs.

Where the code and its documentation differ, the model follows the code: `docs/KNOWN_RISKS.md` says that retries
ignore idempotency, while `middleware/retry.py` does not retry a non-idempotent effect.

## What turned out otherwise than expected

Each of these is a property one would expect, the input on which it fails, and the exact condition under which it
holds.

- *Whoever is queued to join, joins.* A command for one agent under a key that is another's derived one keeps the other
  out, for good exactly when the blocking command is itself honoured, and otherwise until the next pass
  (`CommandBridge.SpelledOutKey`, `LockedOutIff`; `PassJoinsIff` says which commands can still add a member).
- *What a criterion cites stays what it was.* A worker may return an id that is on the board, so its second report
  replaces its first (`BoardInvariants.SameIdTwiceIsLost`), or an id that the loop generates in the same turn
  (`CollidingWorkerIdIsLost`) or in a later one (`LaterPacketOverwrites`, `LaterToolOverwrites`). `TurnPreservesIff`,
  `TurnLosesNothingIff`, `ToolPreservesIff` and `ToolsLoseNothingIff` are the conditions on any board;
  `TaskLoopRecords.EvidenceSurvivesIff` is the condition over whole histories of lives.
- *A crash is invisible: the run goes on as it would have.* A round that is repeated closes on the same board, but the
  new life measures progress against the board it found and starts counting repeats and parse errors anew. So the two may
  part at the end of that round (`TaskLoopCrashes.ResumedRoundIff`, `UnseenIff`): dying after the last turn was saved can
  end BLOCKED where the other run goes on, and dying anywhere can go on where the other stops on a repeat. And they may
  part later: rest of the run for rest of the run they are the same if and only if that round ends alike, and the run that
  did not die ends neither on a repeat of what its guard had seen last, with nobody having joined, nor on a question that
  its earlier errors have made too late (`TaskLoopRestarts.CrashIff`, `CrashInRoundIff`, and `CrashBetweenRoundsIff` with
  everything saved; `EndsAre` says what the two ends are). The close of a stalled round and its stop are two saves, and
  dying between them undoes the stop (`TaskLoopCrashes.CrashAfterClosing`, `TaskLoopRestarts.CrashBeforeStop`). Each way
  is reached from a first checkpoint: `CrashAfterLastTurnHappens`, `RestartForgetsRepeatsHappens`, and later than the
  repeated round `UnseenAtFirst`, `UnseenWithErrors`.
- *A decision that parses is acted on.* A command payload that is null or no mapping raises out of the loop, and so do
  evidence of a reported criterion and capabilities of a call that cannot be listed, an unauthorised assignment and a
  turn that breaks off; of what the decision holds, nothing else does (`TaskLoopRuns.EscapesIff`, `DriveEscapesIff`,
  `NullPayloadEscapes`, `NumericEvidenceEscapes`).
- *Two decisions count as the same only if they ask for the same.* An agent whose name holds a separator can be mistaken:
  the call of one such agent has the signature of the calls of two others (`TaskLoopRepeats.SeparatorsCollide`). For names
  without separators signatures agree if and only if the decisions are of one kind and address the same targets, tools and
  commands as often (`SameSignatureIff`), and then a run ends as repeated exactly on such a streak (`RepeatedIff`).
- *A malformed delegation fails the run.* The conversion of the spec stands before the node's error handling and the
  conversion of the result after it, so either raises out of the graph (`GraphRuns.StepRaisesIff`, `MalformedSpecRaises`,
  `BadAnswerRaises`). In the second case a call has been made of which no checkpoint tells (`GraphNodes.Stream`), and a
  resumed run makes it again (`GraphRuns.ResumeHandsOverAgain`); a handler that fails with a number for a summary gets
  there (`GraphChild.NumericFailureRaises`).
- *Every delegation is finished.* A successful result that does not convert to a dictionary leaves a delegation started
  and never ended, with its child open, unless the handler had closed the child (`DelegationManager.SuccessCanBeAbandoned`,
  `EveryDelegationIsRecorded`).
- *What is told of a delegation is what is stored.* A repeated progress event is told with its own content, which need not
  be the stored one (`Delegation.RepeatToldDifferently`, `ToldIsStoredIff`); a stored artifact that does not convert is
  not told at all (`Delegation.DoAllKeeps`).
- *A closed session stays closed.* Its objects do, its id does not: a snapshot from before the closing brings it back
  (`Sessions.ClosedIdWakesIff`).
- *Sessions can only be narrowed.* Among sessions that are restored, only if each is restored under its own scope
  (`Sessions.TreeIsLawful`): the factory checks the scope against the available tools and not against the session.
- *The recursion limit is out of the way.* A negative parse-error budget lowers it below what an ordinary run needs
  (`GraphRuns.LimitIsEnough` and `LimitCanBeTooLow` are the two halves of the condition).
- *An empty capability set grants nothing.* A delegation policy reads it as everything the parent has
  (`DelegationManager.EmptyPolicyInherits`).
- *A refused ingest changes nothing.* It has ingested every file before the one that raises
  (`Retrieval.ListStopsAtMismatch`, `RaisingIngestChangesList`), and in the keyed store the old points of that file are
  gone besides when the upsert was what refused (`KeyedStopsAtRefusal`, `RefusedBatchLosesSource`,
  `RefusedReingestHappens`). `ListUnchangedIff` and `KeyedUnchangedIff` say when nothing has changed all the same.
- *A call that has returned finds the payload index.* Only if no two threads call (`LazyCollection.ReturnMeansIndexIff`).
- *Repairing twice is repairing once.* Not on a run of commas before a closer, nor on a text that breaks off after a
  comma or inside a string (`JsonRepair.RepairingTwiceIff`, `RepairIsNotIdempotent`, `TruncatedTextIsRepairedTwice`); and
  the comma phase reaches into strings (`CommaPhaseReachesIntoStrings`).

## Model

| member | source | states |
|---|---|---|
| TaskBoard.BoardRoundTrips | supervisor/state.py:119-156 | Decoding an encoded board gives the board back, except that an empty final output comes back as none. |
| TaskBoard.OldCheckpointDecodes | supervisor/state.py:153-156 | A checkpoint without the two queue keys decodes to the same board with empty queues instead of failing. |
| TaskBoard.DocumentKeys | supervisor/state.py:119-135 | The checkpoint document has exactly the fourteen keys of the format. |
| TaskBoard.BareDocumentDecodes | supervisor/state.py:138-156 | A document with nothing but the two ids decodes to an empty board of five rounds at most, just created. |
| TaskBoard.NamelessDocumentRaises | supervisor/state.py:140-141 | A document without one of the two ids is refused. |
| TaskBoard.SameAcceptanceIff | supervisor/state.py:114-117 | The acceptance snapshot is unmoved if and only if the criteria are the same in order, with the same status and the same amount of evidence each. |
| TaskBoard.CheckpointStore.Save | supervisor/graph.py:96-98 | A save appends the current board to the durable history and changes nothing else. |
| TaskBoard.CheckpointStore.Load | supervisor/loop.py:130-132 | A load yields the last saved board as persisted, or nothing when nothing was ever saved. |
| Departments.MembersAreDistinct | roles/registry.py:60-66 | With unique role names, the members of a department come in string order and each once. |
| Departments.MembersIgnoreOrder | roles/registry.py:60-66 | A department's member list does not depend on the order in which roles were registered. |
| Departments.AgentRegistry.Register | roles/registry.py:32-36 | A taken name is refused with no change; otherwise exactly the new role is appended and names stay unique. |
| Departments.AgentRegistry.Departments | roles/registry.py:68-73 | The index built in one pass lists exactly the departments with members and agrees with the scan on each. |
| CommandBridge.EnqueueCommands | supervisor/command_bridge.py:73-93 | Queueing appends each translated command whose key is neither queued nor applied, counts them, and escapes only on a payload that is truthy and neither a mapping nor a list of pairs. |
| CommandBridge.EnqueueKeepsInv | supervisor/command_bridge.py:73-93 | Queueing touches only the end of the queue and keeps queued keys distinct and apart from the applied ones. |
| CommandBridge.QueuedCommand | supervisor/command_bridge.py:30-93 | One command as written: without a type it is ignored, with a payload that is no mapping it raises, else it is appended as agent-issued under its own key or else its type and agent, unless the run has no session or the key is queued or applied. |
| CommandBridge.ApplyCommand | supervisor/command_bridge.py:105-160 | One command either changes nothing or records its key and adds at most its own agent; the growth is reported exactly. |
| CommandBridge.TakesEffectIff | supervisor/command_bridge.py:105-160 | A queued command takes effect if and only if it is a declared addition for the next checkpoint, issued by an agent, for a catalog member, under a key not yet applied; then its key is recorded and the agent comes last on the roster if absent. |
| CommandBridge.ApplyPendingCommands | supervisor/command_bridge.py:96-164 | The returned count is exactly the number of agents the roster gained, and the queue is empty afterwards. |
| CommandBridge.ApplyKeepsInv | supervisor/command_bridge.py:96-164 | A pass never raises on a well-kept queue; the new roster is the old one followed by exactly the agents of honoured commands, once each and all in the catalog; applied keys grow by exactly the honoured keys. |
| CommandBridge.MembersJoinIff | supervisor/command_bridge.py:30-164 | Absent members queued together: one is on the roster after the pass if and only if it was, a queued command adds it, or its derived key was free. |
| CommandBridge.PassJoinsIff | supervisor/command_bridge.py:73-164 | Who joins at a pass with any batch of commands: whom the queue already adds, and whom a command names under a key that is free when its turn comes. |
| CommandBridge.LockedOutIff | supervisor/command_bridge.py:30-38 | An absent member joins in no history of passes that leave its key to be derived if and only if that key is applied or the command queued under it is honoured. |
| CommandBridge.SpelledOutKey | supervisor/command_bridge.py:55-58 | A command for one agent under another's derived key keeps the other out of the next pass, and out of the one after exactly when the first is in the catalog. |
| Rounds.GenInjective | supervisor/graph.py:101-102 | A generated id determines its prefix and its number, beyond four digits too. |
| Rounds.NextIdIsFresh | supervisor/graph.py:101-102 | If ids of the loop's own shape carry numbers below the artifact count, the next id is new, and adding under it loses nothing and keeps that so. |
| Text.Pad4Is | supervisor/graph.py:101-102 | The number in an id is in decimal, with four digits at least and more only where needed. |
| Rounds.ComposeTeam | supervisor/graph.py:106-123 | An empty, duplicated or unknown selection is refused before the board changes; otherwise the roster is the selection and the plan is on the board. |
| Rounds.ComposedIff | supervisor/graph.py:106-123 | A selection makes a team if and only if it is not empty, has nobody twice and stays in the catalog, if there is one; then roster and status change and the record stands under the next session-plan number, and nothing else moves. |
| Rounds.CatalogIs | supervisor/graph.py:106-123 | The catalog is the names of the registered roles; without a registry any agents make a team and nobody joins one. |
| Rounds.UnlistableIff | supervisor/graph.py:363 | Of all values only `true` and the numbers other than zero cannot be listed as evidence or capabilities. |
| Rounds.ListedIs | supervisor/graph.py:363 | A list is listed item by item as texts, a text character by character, a mapping by its keys, anything empty as nothing. |
| Rounds.ExpandDepartments | supervisor/graph.py:168-212 | The loop computes the same expansion as the recursive definition, in order. |
| Rounds.ExpandExact | supervisor/graph.py:168-212 | The calls that run are exactly the agent calls and the selected members' copies with the department call's own scope; the members to admit are exactly the absent ones. |
| Rounds.ExpandConcat | supervisor/graph.py:168-212 | The expansion of two batches one after the other is the expansion of the first followed by that of the second, in the calls that run, the members to admit and the departments refused. |
| Rounds.OneCall | supervisor/graph.py:190-211 | An agent call comes to itself; a department call comes to its selected members' copies in member order, with the objective, scope and capabilities of the call, and to its absent members in order; an empty department is refused. |
| Rounds.AmongConcat | supervisor/graph.py:197-211 | Selecting among members keeps their order and their number. |
| Ordering.StrLeIff | roles/registry.py:60-66 | The order of two names: one begins the other, or the first character in which they differ decides. |
| Turns.RunTurn | supervisor/graph.py:275-330 | A completed turn leaves packet, worker artifacts, result and turn on the board and one checkpoint behind; a redirected or raising one leaves no checkpoint. |
| Turns.RunTurns | supervisor/graph.py:271-334 | The loop over a batch runs each agent at most once a round, stops at the first exception, and checkpoints after each turn. |
| Turns.RunRound | supervisor/graph.py:216-335 | A round queues absent members, checks the whole batch against the roster before any side effect, then runs the turns. |
| Turns.RunTool | supervisor/graph.py:339-351 | Every requested tool leaves its envelope under a new id, as result and as artifact, in order. |
| Turns.JudgeAcceptance | supervisor/graph.py:355-372 | The loop over the report computes the row-by-row judgement on the first check of each id, and raises if and only if a row that names one has evidence that cannot be listed. |
| BoardInvariants.ReportDecides | supervisor/graph.py:355-372 | Over a whole report, a criterion that no row names, or that hides behind an earlier one with its id, is untouched; for any other its last row decides alone: it passes if and only if that row claims so with evidence all on the board. |
| BoardInvariants.JudgedKeeps | supervisor/graph.py:355-372 | Judging keeps every passed check grounded on the board and every criterion id in place. |
| BoardInvariants.RunRoundKeeps | supervisor/graph.py:216-335 | However a round ends, every board it saves is sound and extends the one it began with and every one saved before; every new turn is of this round by an agent on the roster when it began. |
| BoardInvariants.RunRoundRaisesIff | supervisor/graph.py:216-325 | A round raises if and only if an assignment addresses nobody on the roster, or a turn that is due breaks off. |
| BoardInvariants.RoundDefersAbsentMembers | supervisor/graph.py:168-259 | The members a round defers are exactly the absent members of the departments it targets. |
| BoardInvariants.RoundQueues | supervisor/graph.py:216-259 | A completed round leaves in the queue an addition of exactly those a queued command added before and the absent members of targeted departments whose derived key was free. |
| BoardInvariants.TurnBoardShape | supervisor/graph.py:283-328 | A completed turn adds one turn of this round by this agent, whose packet and artifact ids are all on the board, and loses no artifact. |
| BoardInvariants.TurnBoardSafe | supervisor/graph.py:275-330 | A completed turn adds at least two artifacts and overwrites no generated record, if workers keep off generated ids. |
| BoardInvariants.TurnNames | supervisor/graph.py:283-328 | A completed turn names its agent, its outcome, its packet and, in this order, the returned ids and its result's; both own ids are numbered by the artifacts there were at that point, and no other id is new. |
| BoardInvariants.TurnWrites | supervisor/graph.py:283-328 | Under each id it leaves its result, or else the last artifact returned under it, whose own fields win over the kind and author added to them, or else its packet, or else what was there. |
| BoardInvariants.CollidingWorkerIdIsLost | supervisor/graph.py:301-318 | Without that, a worker artifact under the next generated id is replaced by the delegation record. |
| BoardInvariants.TurnPreservesIff | supervisor/graph.py:275-330 | On any board, a turn leaves everything as it was if and only if each known id keeps its record under this rule: the result's record if it is the result's id, else the last one the worker returns under it, else the packet if it is the packet's id, else itself. |
| BoardInvariants.BoundedTurnPreservesIff | supervisor/graph.py:275-330 | Where no worker has used a later generated id, that comes to: each known id the worker returns comes last with the very record the board has. |
| BoardInvariants.TurnLosesNothingIff | supervisor/graph.py:275-330 | On any board, it grows by packet, artifacts and result if and only if the returned ids are distinct, new and neither of the turn's own two, and the board has neither of those two. |
| BoardInvariants.SameIdTwiceIsLost | supervisor/graph.py:301-318 | Two replies that keep off generated ids but share an id of their own: the second replaces what the first left. |
| BoardInvariants.LaterPacketOverwrites | supervisor/graph.py:275-296 | A worker on an ordinary first board returns one artifact under the id of the next turn's packet; that turn replaces it though its own worker returns nothing. |
| BoardInvariants.LaterToolOverwrites | supervisor/graph.py:339-351 | Or under the id of the next tool result, which then replaces it. |
| BoardInvariants.ToolWrites | supervisor/graph.py:339-351 | A tool request leaves its envelope as a result and a record that names the tool and repeats the envelope's verdict and data, or null, both under the next tool-result number. |
| BoardInvariants.EachToolIsAnswered | supervisor/graph.py:339-351 | The requests of a batch are served in order: each has its own answer and a record naming its own tool, numbered on from the artifacts there were at first. |
| BoardInvariants.RunRoundSafe | supervisor/graph.py:216-335 | Every board a round saves keeps all earlier generated records unchanged. |
| RoundOrder.CallsAreReached | supervisor/graph.py:168-235 | The agents of the calls that run are those the decision reaches, call by call, in member order within a department. |
| RoundOrder.RoundRunsInOrder | supervisor/graph.py:216-335 | A completed round adds the turns of the reached agents that had none yet, once each, in the order in which the decision first reaches them, each with the outcome its own worker reported, and saves as often. |
| BoardInvariants.ToolsSafe | supervisor/graph.py:339-351 | k tool requests add exactly k artifacts under new ids and overwrite nothing. |
| BoardInvariants.ToolPreservesIff | supervisor/graph.py:339-351 | On any board, a tool result leaves all artifacts, and all earlier results, as they were if and only if what is under its id, if anything, is the same record. |
| BoardInvariants.ToolsLoseNothingIff | supervisor/graph.py:339-351 | On any board, k tool requests never add more than k artifacts, and add k if and only if the board has none of the next k ids. |
| TaskLoop.SignatureIgnoresOrder | supervisor/loop.py:42-53 | Reordering calls, tools or commands does not change a decision's signature. |
| TaskLoopRepeats.SameSignatureIff | supervisor/loop.py:42-53 | For names without separators two decisions have one signature if and only if they are of one kind and have the same multisets of targets, of tools and of command types with their agents. |
| TaskLoopRepeats.SeparatorsCollide | supervisor/loop.py:42-53 | With a separator in a name they need not: for any two agents the calls of both have the signature of the call of a third. |
| TaskLoopRepeats.RepeatedIff | supervisor/loop.py:178-237 | In a fresh drive with such names, a round that moves something ends the run as repeated if and only if its decision has been made max_decision_repeats times over in a row, without anybody joining. |
| TaskLoopRepeats.DifferentDecisionsGoOn | supervisor/loop.py:178-181 | A round that moves something on a decision other than the one before goes on, so decisions that keep differing never end a run as repeated. |
| TaskLoop.ODecide | supervisor/graph.py:127-141 | The question is repeated until a reply parses or the parse-error budget is spent, and every failure is counted. |
| TaskLoop.QuestionIs | supervisor/graph.py:127-141 | A question comes to the first reply that parses, asked for in order, every earlier one counted as an error; or to none, when the count has reached its bound. |
| TaskLoop.TryFinish | supervisor/loop.py:183-189 | A finish ends the run only on accepted criteria; otherwise the round goes on with the denial recorded. |
| TaskLoop.ActOn | supervisor/loop.py:183-199 | Each kind of decision leads to its own steps, saves and way out. |
| TaskLoop.CloseRound | supervisor/loop.py:201-237 | Roster, applied keys, cleared queue and round number reach the disk in one save, and the two guards decide on what changed. |
| TaskLoop.DriveRound | supervisor/loop.py:167-237 | One loop body equals the round function in flow, saves and final board. |
| TaskLoop.DriveLoop | supervisor/loop.py:156-239 | The driver's loop equals the recursive drive: same saves in the same order, same board, same parse errors. |
| TaskLoop.RunTaskLoop | supervisor/loop.py:79-113 | A run saves the composed board first and then drives it; a refused composition saves nothing. |
| TaskLoop.ResumeTaskLoop | supervisor/loop.py:116-153 | Only the owning session continues a checkpoint, from exactly the persisted board; a terminal one is returned without a save. |
| TaskLoopRuns.ActKeeps | supervisor/loop.py:183-199 | Whatever a decision does, the board stays sound and continues; leaving the loop in a terminal status means that status was saved. |
| TaskLoopRuns.FinishGrantedIff | supervisor/loop.py:183-189 | A finish is granted if and only if there are criteria and each is passed on some evidence after the report; a denied one goes on under review with the denial as its reason. |
| TaskLoopRuns.StopsAsDecided | supervisor/loop.py:183-199 | A finished board has its decision's output, or the empty one, and its reason, or the loop's own; one that a decision blocks or fails has that status and reason and no new output. |
| TaskLoopRuns.EndRoundKeeps | supervisor/loop.py:201-237 | Ending a round never raises, keeps the board sound, saves last what it returns, and adds only catalog agents. |
| TaskLoopRuns.RoundAdmitsIff | supervisor/loop.py:167-226 | After a round that no exception leaves, the roster holds exactly who was on it, whom a queued command adds, and the absent members of targeted departments whose derived key is free. |
| TaskLoopRuns.AbsentMemberJoinsIff | supervisor/graph.py:168-259 | Each absent member of each targeted department joins at the end of the round if and only if a queued command adds it or its derived key is free. |
| TaskLoopRuns.EscapesIff | supervisor/loop.py:167-204 | A decision takes a round out by an exception if and only if it has a command payload that is present and no mapping, a call whose capabilities or a row on a known criterion whose evidence cannot be listed, an assignment to nobody, or a turn due that breaks off; what has been saved then are exactly the turns before it. |
| TaskLoopRuns.DriveEscapesIff | supervisor/loop.py:156-239 | An exception leaves a drive if and only if the decision of some round raises, and then that round is its last. |
| TaskLoopRuns.NullPayloadEscapes | supervisor/loop.py:42-53 | A command with a null payload is queued without complaint, and the round raises all the same, with nothing saved. |
| TaskLoopRuns.NumericEvidenceEscapes | supervisor/graph.py:355-372 | A report row that gives a number as evidence for a criterion of the board takes the round out by an exception, all its turns saved, whatever else the decision says. |
| TaskLoopRuns.DriveKeeps | supervisor/loop.py:156-239 | Every board a drive saves is sound and continues the first; unless an exception escapes, it ends terminal with its result saved last. |
| TaskLoopRuns.DriveIsBounded | supervisor/loop.py:156-239 | From any point, at most the rounds left are run, and the questions asked are the rounds plus the parse errors the budget still allows. |
| TaskLoopRuns.FreshDriveTerminates | supervisor/loop.py:156-239 | A drive with a fresh budget runs at most max_rounds rounds and asks at most max_rounds + max(1, max_parse_errors) times, and ends terminal or by an exception. |
| TaskLoopRuns.OnlyProgressGoesOn | supervisor/loop.py:227-234 | Every round the loop goes on from changed the artifact count, the acceptance snapshot or the roster. |
| TaskLoopRuns.RepeatCounter | supervisor/loop.py:179-181 | Over such a round the counter stays below the bound and moves by one on an equal signature unless the roster grew. |
| TaskLoopRuns.NoStuckWindow | supervisor/loop.py:179-237 | No max_decision_repeats + 2 consecutive rounds carry one signature without roster growth, wherever the window starts. |
| TaskLoopRuns.DurableKeeps | supervisor/loop.py:116-153 | Over every history of crashes after any save and resumes, the checkpoint stays sound: no (round, agent) pair twice, no turn from the future, every turn a member's, roster and keys duplicate-free and only appended to, turns and tool results citing only artifacts on the board. |
| TaskLoopRuns.FinishedMeansEvidence | supervisor/state.py:101-108 | A run is FINISHED only with a non-empty list of distinct criteria, all passed on non-empty evidence on the board. |
| TaskLoopRuns.DuplicateCriteriaNeverFinish | supervisor/state.py:104-108 | A list with a repeated criterion id never reaches FINISHED. |
| TaskLoopRuns.CheckpointRoundTrips | supervisor/state.py:119-156 | On every reachable checkpoint decoding after encoding is the identity, up to an empty final output on terminal ones. |
| TaskLoopRuns.GuardedRecordsSurvive | supervisor/graph.py:101-102 | Across crashes and resumes every generated record and every artifact of a guarded set stays what it was, if workers keep off those ids. |
| TaskLoopRuns.EvidenceSurvives | supervisor/graph.py:355-372 | What the passed criteria of a checkpoint cite is still there unchanged after any further lives whose workers return none of those ids and none of the loop's shape. |
| TaskLoopRecords.RoundHarmlessIff | supervisor/graph.py:275-351 | The first n saves of a round all keep a record if and only if what the turns among them, or the tools, write under its id is nothing or the same record. |
| TaskLoopRecords.RecordSurvivesIff | supervisor/loop.py:116-239 | A record of a checkpoint is unchanged in every later checkpoint of any lives, wherever they are cut, if and only if that holds of each turn and tool batch that reached the disk. |
| TaskLoopRecords.EvidenceSurvivesIff | supervisor/graph.py:355-372 | So for what a passed criterion cites. |
| TaskLoopCrashes.DoneRoundProgressesIff | supervisor/loop.py:227-234 | A round whose turns are all done repeats none, and counts as progress if and only if the report moves the acceptance snapshot or somebody joins; else it ends BLOCKED. |
| TaskLoopCrashes.ResumedRoundIff | supervisor/loop.py:116-239 | For any repeat counter and any number of its turns saved, a round begun again from the disk closes with the same save as the round it repeats; both leave the loop at one place if and only if both measure progress alike and, if there is any, both are a repeat too many or neither; if there is none for the repeat, it ends BLOCKED. |
| TaskLoopCrashes.UnseenIff | supervisor/loop.py:116-239 | For a decision to continue and workers off generated ids: the repeated round ends on the same board with the same way out if and only if somebody joins, or the decision was no repeat too many (unless nothing moved at all) and, in case all turns and at least one were saved, the report moves the snapshot. |
| TaskLoopCrashes.ResumedInRound | supervisor/loop.py:116-239 | In any round of any life, what survives a crash after each of its turn saves is that save; the next life begins on it with the same decision, and the two rounds compare as stated. |
| TaskLoopCrashes.RoundEndsAlikeIff | supervisor/loop.py:116-239 | In any round of any life, for such a decision and such workers: the round that a crash makes the next life repeat ends on the same board with the same way out under exactly that condition. Of later rounds it says nothing. |
| TaskLoopCrashes.CrashAfterClosing | supervisor/loop.py:218-239 | After the closing save a round that goes on is on the disk as it stands, one that stops can still be driven on, and only the save after it is terminal. |
| TaskLoopCrashes.RestartForgetsRepeats | supervisor/loop.py:156-181 | Any round that goes on after a restart, although nobody joins, ends BLOCKED as repeated under a guard one short of the bound for the same decision. |
| TaskLoopCrashes.RestartForgetsErrorsIff | supervisor/graph.py:127-141 | A used parse-error budget gives another decision than a fresh one if and only if the first reply that parses comes too late for the one and in time for the other. |
| TaskLoopCrashes.CrashAfterLastTurnHappens | supervisor/loop.py:116-239 | From a first checkpoint with one agent and one call: dying after the turn ends the next life BLOCKED where the other run goes on, and dying again between the closing save and the stop leaves it running. |
| TaskLoopCrashes.RestartForgetsRepeatsHappens | supervisor/loop.py:156-181 | From the same checkpoint: the run without a crash stops at its second round, the one with a clean crash in between goes on to a third. |
| TaskLoopRestarts.SameRunIff | supervisor/loop.py:156-239 | Two drives of one board, the second with fewer repeats and errors counted, run the same rounds with the same saves to the same end if and only if the first ends neither on a repeat of what its guard had seen last that is one too many on its own count alone, nor on a question whose answer comes too late for its own error count alone. |
| TaskLoopRestarts.SameSavesIff | supervisor/loop.py:156-239 | Their saves alone agree exactly then, unless the orchestrator stops with one of the loop's own reasons for a text. |
| TaskLoopRestarts.EndsAre | supervisor/loop.py:168-237 | The first of these ends is BLOCKED as repeated, after as many rounds as the count had left; the second is FAILED on the parse-error budget. |
| TaskLoopRestarts.RestartIff | supervisor/loop.py:116-181 | A life begun anew on the board of a running one, everything saved: the rest of the run is the same if and only if it would have had neither end. |
| TaskLoopRestarts.CrashIff | supervisor/loop.py:116-239 | Dying at any turn save of any round of a life, whatever was decided: the next life saves what the first would still have saved, in the same rounds and to the same end, if and only if the repeated round leaves the loop at the same place and the rest of the first life would have had neither end; together the two then save what one would have. |
| TaskLoopRestarts.CrashInRoundIff | supervisor/loop.py:116-239 | The same with the repeated round in the decision's own terms, for a decision to continue and workers off generated ids: a crash inside a round is invisible for the rest of the run under exactly that condition. |
| TaskLoopRestarts.CrashBetweenRoundsIff | supervisor/loop.py:116-239 | Dying after a round that goes on, everything saved: what survives is its board, and the rest of the run is the same if and only if it would have had neither end. |
| TaskLoopRestarts.CrashBeforeStop | supervisor/loop.py:218-237 | Dying between the closing save of a round and its stop: the next life comes to a round or ends otherwise. |
| TaskLoopRestarts.UnseenAtFirst | supervisor/loop.py:116-239 | From a first checkpoint, with two repeats allowed: the round after the crash ends alike in both lives, and the round after that stops only the one that did not die. |
| TaskLoopRestarts.UnseenWithErrors | supervisor/loop.py:116-239 | From a first checkpoint, with three parse errors too many: the round after the crash ends alike, and the next question fails only the life that did not die. |
| Discipline.Budget.RecordToolCall | discipline/budget.py:31-33 | Recording a call raises that key's count by one and returns it; all other counters stay. |
| Discipline.SumOfCalled | discipline/budget.py:31-33 | One more call of any key raises the total over the table by exactly one. |
| AgentGraph.StoreRoundTrips | graph/state.py:42-57 | Decoding an encoded store gives it back if and only if its task has an id and no plain value poses as an encoded task. |
| AgentGraph.EncodedTaskIs | graph/state.py:42-48 | A running task travels in a checkpoint as a mapping of its four fields under the task mark. |
| AgentGraph.StepBurns | graph/runtime.py:49-66 | Every node strictly lowers a measure of the steps and parse errors left, so every run ends. |
| GraphRuns.StepCalls | graph/nodes.py:51-199 | What each node asks of the outside: the agent node its transcript, the tool node its call unless that key's limit is passed, the delegation node a hand-over exactly when the action is well formed, the others nothing. |
| GraphRuns.StepSpends | graph/nodes.py:40-103 | A step is spent exactly on a parsed action, tool nodes are entered only so, and the agent node only with steps left. |
| GraphRuns.StepVerdict | graph/nodes.py:202-255 | A run ends completed exactly from a finish without an error reason on an open gate, with the message kept; a failing one carries its error and counters. |
| GraphRuns.StepEvents | graph/nodes.py:202-255 | No node publishes a closing event but the one that ends the run, and that one event matches the status. |
| GraphNodes.Stream | orchestrator/loop.py:65-86 | The stream yields exactly the states of the run, in order, and ends at END or with the exception; when a node raises, the one external call it may have made is in no state. |
| GraphRequests.GuardDoes | graph/nodes.py:40-48 | The guard goes to the model while a step is left and fails the run without, and changes nothing else. |
| GraphRequests.AgentDoes | graph/nodes.py:51-103 | The model is asked with the whole transcript, what it says is kept, and what it asks for decides the next node: tool, delegation, finish, the guard with a note, or failure on a parse error too many. |
| GraphRequests.ToolDoes | graph/nodes.py:106-138 | The tool asked for is called by its name and arguments and its answer kept, unless it has been called so as often as allowed, which fails the run without the call. |
| GraphRequests.DelegationDoes | graph/nodes.py:141-199 | A delegation nothing stands in the way of is handed over as asked and its result told; otherwise the run fails with what stood in the way. |
| GraphRequests.FinishDoes | graph/nodes.py:202-240 | A final answer ends the run completed with its message, unless code has changed unvalidated without a blocker, which is sent back, or it reports an error, which fails the run. |
| GraphRequests.FailDoes | graph/nodes.py:243-255 | A failing run is closed as failed, with the error it came with and its counters in the outcome. |
| GraphRequests.ToolIsCalled | graph/nodes.py:51-138 | Wherever in a run the model asks for a tool, the tool node comes next and, unless that call has been made as often as allowed, the call log grows by exactly that call and the transcript by its answer. |
| GraphRequests.HandOverIsMade | graph/nodes.py:51-199 | Wherever it hands over, the delegation node comes next with that very action, and the service is called or the obstacle recorded. |
| GraphRequests.FinalIsTaken | graph/nodes.py:51-240 | Wherever it gives its final answer, the finish node comes next and ends the run, unless the gate sends it back. |
| GraphRequests.OtherIsNoted | graph/nodes.py:51-103 | Wherever it says anything else, the guard comes next with a note of it; only parse errors beyond the budget end the run. |
| AgentGraph.NoMappingIff | graph/nodes.py:155-163 | What the model writes for spec and policy is no mapping if and only if it is a non-empty text or list, `true`, or a number other than zero. |
| AgentGraph.SpecRaisesIff | core/schemas.py:140-147 | A spec raises if and only if its input context or its output schema is neither empty nor a mapping nor a list of pairs, or its constraints are `true` or a number other than zero. |
| GraphRuns.StepRaisesIff | graph/nodes.py:141-199 | On a good state a node raises if and only if it is a well-addressed delegation whose spec has a field that does not convert, or whose answer does not; every route a node sets is a declared edge. |
| GraphRuns.DriveEnds | graph/runtime.py:49-66 | A run is over at END, or stopped by one of those two conversions. |
| GraphRuns.MalformedSpecRaises | graph/nodes.py:165-199 | A model whose first answer hands over on a spec that does not convert ends the run in an exception at the third node, with the session open and no call made. |
| GraphRuns.BadAnswerRaises | graph/nodes.py:165-199 | A service that answers such a first hand-over with a result that does not convert ends the run there too, and its call is in no state. |
| GraphRuns.ClosedExactlyOnce | core/session.py:87-98 | The session is active at every node before END, the lifecycle event is published exactly once and matches the recorded status, and identity and scope never change. |
| GraphRuns.CompletedPassedTheGate | graph/nodes.py:202-240 | Status completed implies a final action without an error reason and an open finish gate: no code change, passing validation, or a declared blocker. |
| GraphRuns.ErrorFinishFails | graph/nodes.py:209-219 | A finish with reason "error" ends the run at once, failed, with the model's message kept. |
| GraphRuns.RunIsBounded | graph/runtime.py:49-66 | A run executes at most 3 nodes a step and 2 a parse error (2 in all when no step is left). |
| GraphRuns.LimitIsEnough | orchestrator/loop.py:40-44 | If no step is left, or the parse budget is not negative, or three nodes for each step left fit, the recursion limit is never reached, however much of the budget is used; nor is the child's with default parse errors. |
| GraphRuns.LimitCanBeTooLow | orchestrator/loop.py:40-44 | Otherwise some run needs more nodes than the recursion limit allows. |
| GraphRuns.SameCallIsLimited | graph/nodes.py:115-128 | No (tool, arguments) key reaches the kernel through the tool node more than max_same_tool_calls times in a run, resumed or not. |
| GraphRuns.TableCountsVisits | graph/nodes.py:115-128 | The call table sums to the number of tool-node visits, each of which took its own step, so at most max_steps. |
| GraphRuns.ResumeIsSeamless | orchestrator/loop.py:184-269 | Stopping at any node boundary and resuming from the checkpoint gives the remaining states, the same end, and external calls that continue the uninterrupted log; a finished run executes no node. |
| GraphRuns.StopsDoNotMatter | orchestrator/loop.py:213-269 | However often and wherever a run is stopped and resumed, it ends in the same state. |
| GraphRuns.ResumeHandsOverAgain | orchestrator/loop.py:184-269 | A run stopped by an answer that does not convert, resumed, makes the same hand-over a second time as its first call, whatever the service answers now; with the same answer it raises at the same node. |
| GraphTranscript.EveryAnswerIsTranscribed | graph/nodes.py:51-199 | At every state of a run the transcript's answers are exactly what the outside answered to the calls so far, in order, and every model call was made with the whole transcript up to its own answer. |
| Sessions.KernelSession.CompleteTask | core/session.py:87-98 | Closing succeeds exactly on an active session, stores outcome and no task, and publishes one event; otherwise nothing changes. |
| Sessions.SessionFactory.CreateRoot | core/session.py:110-146 | A root has the requested scope if it is among the registered tools, all of them if none was requested, else it is refused; its run is the given one or named after its task. |
| Sessions.SessionFactory.CreateChild | core/session.py:148-186 | A child is made only of an active parent and within its scope, one level deeper, under the parent's run. |
| Sessions.SessionFactory.Restore | core/session.py:188-203 | A restored session is closed exactly when its store holds no running task, and refused when its scope is not available. |
| Sessions.RootIs | core/session.py:110-146 | A root is made if and only if the scope asked for lies within the tools; it runs its own task, in the caller's run or else its task's, at depth zero. |
| Sessions.ChildIs | core/session.py:148-186 | A child is made if and only if its parent is active and has the scope asked for; it runs its own task in the parent's run, names parent and delegation, and is one level deeper. |
| Sessions.ValidIff | delegation/policy.py:13-33 | A policy is granted if and only if its bounds lie within the engine's, the child is not too deep and the parent has every capability asked for; else the first of these that fails is named. |
| Sessions.TreeIsLawful | core/session.py:110-203 | After any creations, delegations, completions, tool calls and restorations from any snapshots under any scopes, all session objects form a lawful tree if and only if every restoration took place under the scope of its session. |
| Sessions.ScopesOnlyNarrow | core/session.py:148-186 | If callers restore each session under its own scope, no session can do more than any ancestor or than the registered tools; depth grows along ancestry; a delegated session is within the engine's max_depth. |
| Sessions.ClosedIsInert | core/session.py:59-85 | A closed session object stays closed, never reaches the kernel again and never gains a child. |
| Sessions.ClosedIdWakesIff | core/session.py:188-203 | A session id in which nobody can work is worked in again if and only if it is restored, under an available scope, from a snapshot that holds a running task. |
| Delegation.InMemoryDelegationStore.Start | delegation/store.py:18-23 | A delegation id starts at most once, with no progress. |
| Delegation.InMemoryDelegationStore.AppendProgress | delegation/store.py:25-38 | A repeated event id is accepted without being stored; anything else must be the next in sequence. |
| Delegation.InMemoryDelegationStore.Finish | delegation/store.py:40-47 | A result is written once; the same again is accepted, a different one refused. |
| Delegation.ResultIsAcceptedIff | delegation/store.py:40-47 | A result is accepted if and only if its delegation was started and has no other result yet. |
| Delegation.WhatIsStoredStays | delegation/store.py:18-47 | Whatever is done to the store in whatever order: a request and a result stay as first written, and progress only grows at its end. |
| Delegation.DoAllKeeps | delegation/manager.py:142-160 | Whatever a handler does, and whatever other delegations do meanwhile, stored progress is numbered 1..n with distinct event ids within the policy; only stored progress is told, and all of it in order with its content if and only if every stored artifact converts. |
| Delegation.ActsConcat | delegation/manager.py:142-160 | Acts take effect in order: after the first part of a handler's run the rest goes on from where it left off, unless an exception has got through. |
| Delegation.OneAct | delegation/manager.py:142-157 | What one act does, case by case: which progress is refused and with what, what is stored and told, how a child is closed. |
| Delegation.ToldIsStoredIff | delegation/store.py:25-38 | A progress that is told equals the one stored under its event id if and only if the id was new or the whole progress repeats. |
| Delegation.RepeatToldDifferently | delegation/manager.py:142-157 | The same event id sent again with another sequence and artifact is told as such while the store keeps the first. |
| DelegationManager.Matches | delegation/registry.py:27-36 | Exactly the registered handlers of a target are considered. |
| DelegationManager.HandlerIsAskedIff | delegation/manager.py:63-160 | With a policy that is granted, a child is made and the handler runs if and only if exactly one registered handler takes the target; with none or several the delegation fails with that fault, is on record, and no child is made and no act performed; with another policy it is rejected. |
| DelegationManager.HandedOverIs | delegation/manager.py:105-130 | What the handler of a granted call starts from: a child of the parent in its run, one level deeper, with the granted scope and the granted policy in its store; the delegation is on record and told. |
| DelegationManager.ResultIsTheHandlers | delegation/manager.py:159-192 | What is reported is the handler's own result, with the stored artifacts before those not stored; a raise or a result of another delegation or parent is a failure with what was stored. |
| DelegationManager.ProgressSink | delegation/manager.py:142-157 | Progress is checked, stored durably and only then published; a refusal publishes nothing, and an artifact that does not convert raises once it is stored. |
| DelegationManager.RunHandler | delegation/manager.py:159-160 | A handler's acts take effect up to the first exception it does not catch. |
| DelegationManager.MergeArtifacts | delegation/manager.py:165-169 | The result's artifacts are the stored ones followed by those of its own whose id is not stored. |
| Delegation.UnseenConcat | delegation/manager.py:165-169 | Of a handler's artifacts those with an id that is not stored are kept, in their order. |
| DelegationManager.Manager.Delegate | delegation/manager.py:63-192 | The whole call equals the protocol function in store, events, child and result, on every failure path. |
| DelegationManager.AtTheDoorIff | delegation/manager.py:70-75 | Exactly the calls of an inactive parent, without a target or without an objective raise before anything happens. |
| DelegationManager.EveryDelegationIsRecorded | delegation/manager.py:45-192 | Past the entry checks a delegation is started once and finished once with its progress in between, the stored result is the returned one, artifacts begin with the stored ones and repeat none of them, and a child is closed, narrower and one level deeper; the one exception, exactly, is a successful result that does not convert while the child is open. |
| DelegationManager.SuccessCanBeAbandoned | delegation/manager.py:186-192 | A handler that reports success with a number for a summary leaves its delegation started and never ended, its child open. |
| DelegationManager.FailureIsReportedAnyway | delegation/manager.py:186-192 | A handler that reports failure with the same number is on record as failed, and the result the caller gets does not convert. |
| DelegationManager.OthersUntouched | delegation/store.py:18-47 | A delegation, however it ends, leaves the rows of every other delegation alone. |
| DelegationManager.EmptyPolicyInherits | delegation/policy.py:13-33 | A child is made when the numbers are in range and the set is within the parent's, and has precisely that set if and only if it is not empty or the parent has nothing; an empty one gets the parent's whole scope. |
| GraphChild.GraphChildNeverTrips | adapters/agents/langgraph_agent.py:31-95 | A child on the graph ends within its recursion limit; its k-th report has sequence k and is the k-th step, at most max_steps; no check can refuse one; what is stored is what it returns; its session is already closed. |
| GraphChild.DelegatingToTheGraph | delegation/manager.py:159-192 | Delegating to a graph-backed child end to end returns that child's own result unchanged. |
| GraphChild.NumericFailureRaises | graph/nodes.py:165-199 | Such a delegation made by a run of the graph is on record, and the run ends in an exception with its session open and the call in no state. |
| GraphChild.RunChild | adapters/agents/langgraph_agent.py:31-95 | The adapter's loop does to store, bus and session exactly what its reported conduct says. |
| KernelPipeline.CoreStamps | core/schemas.py:83-101 | Whatever metadata a tool returns, the envelope carries the registered kind and idempotency. |
| KernelPipeline.EffectRunsAtMostOnce | middleware/retry.py:14-33 | A non-idempotent effect is executed at most once per call under any stack of the five middlewares, whatever it returns or raises. |
| KernelPipeline.ExecutionsAreBounded | middleware/retry.py:23-33 | Any tool is executed at most as often as the Retry attempts of the stack multiply to. |
| KernelPipeline.HopelessUsesEveryTry | middleware/retry.py:27-33 | The bound is met: under Retry middlewares alone a tool that always fails is executed exactly that often. |
| KernelPipeline.DeniedNeverRuns | middleware/policy.py:15-21 | A denied or out-of-scope tool is never executed, wherever its gate sits, and reported success means the tool did run. |
| KernelPipeline.EnvelopeNamesItsRequest | core/kernel.py:109-157 | The returned metadata always names the request and its lineage; no tool can forge and no block can lose them. |
| KernelResults.CoreTells | core/schemas.py:75-101 | One execution: the envelope has the tool's own verdict, error and data; an exception and a result that is no dictionary are failures that say so. |
| KernelResults.MetadataIs | core/kernel.py:109-140 | Its metadata has executor, kind, idempotency, risk, request and lineage, whatever the tool put there. |
| KernelResults.OwnMetadataIsKept | core/schemas.py:83-101 | Under every other key it is the tool's own, and for a result not shaped like an envelope the list of its keys. |
| KernelResults.CallerSeesTheLast | core/kernel.py:109-169 | Through any stack: what a caller gets under the kernel's stamp is what the last execution gave, its data as the Condense middlewares leave it, outermost last; without the stamp it is a failure. |
| KernelResults.PlainIsOneExecution | middleware/retry.py:14-33 | Under Retry and TimingLog alone what comes out is what one execution gave: the first one within the tries that succeeds or may not be tried again, or else the last of them. |
| KernelResults.SuccessIff | middleware/retry.py:23-33 | There the call succeeds if and only if some execution within the tries does and none before it ends the retries, and then has that execution's data. |
| KernelResults.OneLayer | middleware/policy.py:15-21 | What each middleware does in front of any stack: timing nothing, a gate stops exactly what it denies, a guard counts and stops a call made as often as allowed, three times by default. |
| KernelResults.OutOfScopeIsReported | core/kernel.py:85-107 | A tool outside the session's scope never reaches the pipeline: the call fails with its mark, for its own request, and is told so. |
| KernelResults.RaisingIsReported | core/kernel.py:139-148 | What raises in the pipeline reaches the caller as a failure with that text and no further. |
| KernelPipeline.AgentKernel.CallFrom | core/kernel.py:136-140 | The chain of bound handlers equals the recursive meaning of the stack, with all side effects. |
| KernelPipeline.AgentKernel.CallRetried | middleware/retry.py:27-33 | The retry loop equals its recursive meaning: stop at success, at the attempts, or at what must not be retried. |
| KernelPipeline.AgentKernel.ExecuteTool | core/kernel.py:63-169 | Each call publishes one requested event and then one completed or failed event with the same request id. |
| Redaction.Walk | control/redaction.py:50-63 | The walk returns the masked copy and appends the path of every masked key to the shared list, in order. |
| Redaction.Redact | control/redaction.py:44-73 | The result is the masked copy with the sorted field list, and a secret is reported exactly when there is one. |
| Redaction.MaskedIsCleanCopy | control/redaction.py:50-63 | The masked payload equals the payload outside secret keys and has nothing but the mask beneath them. |
| Redaction.CaseIsIgnored | control/redaction.py:35-63 | Whether a key is masked does not depend on its case, nor on that of the configured keys. |
| Redaction.CleanCopyIsUnique | control/redaction.py:50-63 | It is the only such payload. |
| Redaction.ShownAlikeIff | control/redaction.py:44-63 | Two payloads are shown alike exactly when they differ only beneath secret keys, and then their field lists are equal. |
| Redaction.RedactingTwice | control/redaction.py:44-63 | Redacting a redacted payload changes neither it nor the field list. |
| Redaction.FieldsAreTheSecrets | control/redaction.py:44-63 | The field list is sorted, has no repeats and names exactly the topmost secret keys. |
| Redaction.RenderIs | control/redaction.py:41-60 | A listed path reads as its keys joined by dots with indexes in brackets. |
| JsonRepair.Repair | discipline/json_gate.py:24-50 | The one-pass scan with a stack and two flags computes the comma-stripped text plus one closer per open bracket, innermost first. |
| JsonRepair.ScannerIsWhere | discipline/json_gate.py:28-48 | The scan is inside a string exactly after an odd number of quotes that are not escaped, and after an escape exactly after an odd run of backslashes. |
| JsonRepair.StackMoves | discipline/json_gate.py:28-48 | Outside strings and escapes an opener goes on the stack and a closer takes its own opener off; nothing else moves it. |
| JsonRepair.UncommaOnlyThins | discipline/json_gate.py:25-26 | The comma phase deletes nothing but commas and whitespace. |
| JsonRepair.UncommaKeepsIff | discipline/json_gate.py:25-26 | It leaves a text alone if and only if no comma stands before a closer. |
| JsonRepair.BalancedIff | discipline/json_gate.py:27-50 | Scanning the balanced text again ends with an empty stack if and only if nothing was open or the text ended outside a string and not after a backslash. |
| JsonRepair.BalancingTwiceIff | discipline/json_gate.py:49-50 | Balancing appends exactly the open-stack length and is idempotent in exactly those cases. |
| JsonRepair.RepairingTwiceIff | discipline/json_gate.py:24-50 | Repair is idempotent on a text if and only if no run of commas stands before a closer and the scan leaves nothing open, or ends outside strings on a text that does not end in a comma. |
| JsonRepair.BalancedIsNested | discipline/json_gate.py:27-50 | With no stray closer, the out-of-string brackets of the result are well nested. |
| JsonRepair.EmptyStackIffNested | discipline/json_gate.py:27-48 | With no stray closer, the scanner's stack is empty if and only if the brackets it saw are well nested. |
| JsonRepair.SoundTextIsKept | discipline/json_gate.py:24-50 | Text that needs no repair is returned unchanged. |
| JsonRepair.RepairIsNotIdempotent | discipline/json_gate.py:25-26 | A run of two commas before a closer loses one comma per repair. |
| JsonRepair.TruncatedTextIsRepairedTwice | discipline/json_gate.py:24-50 | A text that breaks off after a comma is changed by a second repair. |
| JsonRepair.CommaPhaseReachesIntoStrings | discipline/json_gate.py:25-26 | A comma before a closer inside a string value is deleted too. |
| JsonRepair.FencedText | discipline/json_gate.py:16-21 | What stands between fences, with or without a language, is what is parsed. |
| JsonRepair.ParseJsonObject | discipline/json_gate.py:53-88 | Fences off, the whole text wins, unrepaired first; otherwise the object found is the first embedded one; none is found only if no candidate is an object. |
| JsonRepair.ReadingIs | discipline/json_gate.py:53-88 | A text is read as the object the library reads, or else the one it reads after repair; from a position on likewise, if a brace opens there. |
| Chunking.ChunkText | rag/chunking.py:16-33 | The loop ends and yields the stripped non-blank windows, 1 + ceil(max(0, n - size) / step) of them before blank ones are dropped. |
| Chunking.WindowEnds | rag/chunking.py:23-32 | Every window starts inside the text, and all but the last end strictly before its end. |
| Chunking.NeighboursOverlap | rag/chunking.py:16-33 | The last characters of a window, as many as the overlap, are the first of the next; an overlap as large as the size moves on by one character, a negative one by the whole size. |
| Chunking.ChunksInOrder | rag/chunking.py:22-33 | The chunks come in the order of their windows: a window's, if not blank, right after those of the windows before it. |
| Chunking.ChunkBounds | rag/chunking.py:16-33 | There is a chunk exactly when the text is not blank, at most one per window, each non-empty and no longer than the size. |
| Chunking.EveryCharacterIsShown | rag/chunking.py:16-33 | Every non-whitespace character of the document is shown by some chunk, for every size and overlap. |
| Retrieval.PointKeyInjective | rag/stores_qdrant.py:28-29 | The hashed id text determines source and index, whatever the source contains. |
| Retrieval.InMemoryVectorStore.DeleteBySource | rag/stores.py:38-41 | Exactly the chunks of the source are removed, in order, and counted. |
| Retrieval.QdrantVectorStore.Upsert | rag/stores_qdrant.py:101-125 | A batch is written whole or, when a vector is missing, empty or of another width, not at all. |
| Retrieval.EmbeddedIff | rag/stores_qdrant.py:101-112 | What an upsert accepts is a batch whose chunks all have vectors of one positive width. |
| Retrieval.IngestInMemory | rag/service.py:42-75 | Ingest replaces each non-blank document's chunks in turn and reports exactly the sources and chunks written. |
| Retrieval.IngestKeyed | rag/service.py:42-75 | The same over the keyed store, where a refused batch raises after the deletion. |
| Retrieval.ReportConcat | rag/service.py:51-75 | The report lists, file by file, the sources that are not blank, and adds up their chunks. |
| Retrieval.LatestIs | rag/service.py:51-75 | A file changes what its source comes to exactly if it is not blank and has a vector for each chunk; then it comes to its own chunks with their texts and vectors, numbered from zero. |
| Retrieval.ListHoldsLatest | rag/service.py:51-75 | After any successful ingests each source holds exactly the chunks of its latest non-blank document, in order, numbered from zero. |
| Retrieval.KeyedHoldsLatest | rag/stores_qdrant.py:92-125 | The keyed store then holds exactly those chunks, one per key. |
| Retrieval.StoresAgree | rag/stores.py:38-45 | Both stores hold the same chunks after the same successful ingests. |
| Retrieval.IngestRaisesIff | rag/service.py:63-72 | The list ingest raises exactly on a count mismatch, the keyed one also on vectors it refuses. |
| Retrieval.RefusedBatchLosesSource | rag/service.py:63-72 | When the keyed ingest of a file raises, a point is gone if and only if it is of that document and every chunk had a vector; every other point is unchanged. |
| Retrieval.ListStopsAtMismatch | rag/service.py:51-75 | A raising ingest of many files leaves the list store exactly as the ingest of the files before the first raising one does. |
| Retrieval.KeyedStopsAtRefusal | rag/service.py:51-75 | The keyed store likewise, but for the points of the raising file, which are dropped if every chunk had a vector. |
| Retrieval.ListIngestIs | rag/service.py:51-75 | What an ingest makes of any list: the chunks of untouched sources in their order, and after them what it makes of an empty one. |
| Retrieval.KeyedIngestIs | rag/service.py:51-75 | What an ingest makes of any keyed store, source by source: the latest chunks of a replaced document, the same points otherwise. |
| Retrieval.ListUnchangedIff | rag/service.py:51-75 | A raising ingest has changed nothing of the list if and only if the list ended with exactly the chunks of the files before and held none of their sources elsewhere. |
| Retrieval.KeyedUnchangedIff | rag/service.py:51-75 | A raising ingest has changed nothing of the keyed store if and only if it held no point of a refused batch's document and, of every document ingested before, exactly its present chunks. |
| Retrieval.RaisingIngestChangesList | rag/service.py:63-72 | Two files, the second with too few vectors: the call raises and the first is in the store. |
| Retrieval.RefusedReingestHappens | rag/service.py:70-72 | A document ingested and then again with empty vectors: the call raises and the store is empty. |
| Retrieval.ListKeysUnique | rag/service.py:70-72 | Source and index identify a chunk in the list store. |
| Retrieval.Search | rag/service.py:78-113 | An unhealthy store, a blank query, a non-positive k and a threshold outside [0, 1] are told apart from an answer. |
| Retrieval.RankIs | rag/stores.py:53-55 | Of two hits the better score comes first, then the smaller source, then the earlier chunk. |
| Retrieval.SearchIsExact | rag/stores.py:47-56 | Search returns the first k of a strict order over exactly the chunks at or above the threshold, and every one left out ranks after all returned. |
| LazyCollection.CreatedAtMostOnce | rag/stores_qdrant.py:52-73 | For any threads and any interleaving, collection and index are created at most once, neither if the collection was there, and it exists once any call has returned. |
| LazyCollection.AllReturned | rag/stores_qdrant.py:52-73 | Once all calls have returned, a missing collection and its index have been created exactly once and the lock is free. |
| LazyCollection.ReadyStays | rag/stores_qdrant.py:52-56 | Once the flag is set it stays set on any schedule, and a call that enters then returns at its first action and asks the server nothing. |
| LazyCollection.SomeoneCanAct | rag/stores_qdrant.py:62-73 | No deadlock: while a call has not returned, some thread can act. |
| LazyCollection.ActionsAreFinite | rag/stores_qdrant.py:52-73 | Every action brings some thread nearer to returning. |
| LazyCollection.ActionsAreBounded | rag/stores_qdrant.py:52-73 | On any schedule n calls take at most 8 n actions between them. |
| LazyCollection.ReturnBeforeIndex | rag/stores_qdrant.py:57-61 | With two threads or more, a schedule on which a call returns before the payload index exists. |
| LazyCollection.ReturnMeansIndexIff | rag/stores_qdrant.py:57-61 | On every schedule a return implies the index of a missing collection if and only if no two threads call. |

## Left out

- SQLite, JSONL and JSON-projection files: persistence is the last encoded state, and a checkpoint store is present.
- The LangGraph library: the graph is a step relation whose updates replace whole channels.
- Crashes inside a node of the agent graph, between an external call and the next checkpoint: stops are at node
  boundaries, as the checkpointer defines them, or where a node raises.
- Event payload wording, timestamps, prompts and the texts of reasons and errors: named values or parameters.
- New ids: every uuid is a parameter, required to be new only where a lemma says so.
- Coercions of wrongly typed fields in a hand-edited checkpoint (`str()`, `int()`); malformed persisted commands are
  refused when decoded, not when applied.
- The order of keys inside artifacts: the model keeps contents, not insertion order.
- Command events (`command.rejected`, `command.skipped`) and the roster-starvation diagnostic: they change no state.
- `TaskBoard.BoardRoundTrips`: a queued command's `command_id`, `created_at` and payload fields other than `agent_id` are
  not modelled, because no decision depends on them.
- `TaskLoopRuns.EscapesIff`: exceptions of the orchestrator call itself, of the JSON reader other than a parse error, of
  the event emitter and of the store's save are not part of the model; they would leave the loop from wherever they are
  raised.
- The text that `str()` gives a value other than a string, and the order of a mapping's keys, where evidence and
  capabilities are listed from them: parameters (`Host`).
- `Sessions.ScopesOnlyNarrow`: restoring a session under another scope is the caller's doing, which the factory permits;
  `Sessions.TreeIsLawful` says exactly what it costs.
- `Turns.RunTurn`: after an exception the in-memory board is dropped with the run, so only the checkpoints of a
  raising turn are stated.
- A handler's own nested delegations appear as acts that touch the store and the bus under other ids.
- The manager publishes on the bus of the parent's kernel; parent and child are taken to share one kernel.
- Thread safety of the delegation store and the event bus: their locked operations are single steps.
- Subscribers of the event bus, which cannot affect the runtime, and freezing of kernel and registries.
- What a middleware outside the repository's five could return.
- `KernelPipeline.AgentKernel.RunTool`: the tool's name resolves; resolving an unknown one would raise in the handler.
- Condensing itself: an arbitrary function on an envelope's data that may raise.
- `Redaction.Walk`: payloads are values, so that the input is unchanged holds by construction; containers other than
  dictionaries and lists are leaves.
- The JSON library itself: an arbitrary partial function, which fails only as its callers expect.
- `GraphRuns.StepRaisesIff`: writing a tool's or a delegation's answer as JSON is taken to succeed, and reading a reply
  to fail only with a parse error. A mapping with a tuple for a key, or an integer of more than 4300 digits, would take
  the run out of the tool or the agent node by an exception.
- `GraphRuns.DriveEnds`: leaves out the same two ways to raise.
- File collection and the workspace path check before an ingest.
- `Retrieval.QdrantVectorStore.Upsert`: what the server does with a batch whose width differs from that of the existing
  collection is its own reaction, so such a batch counts as written.
- `Retrieval.PointKeyInjective`: the hash from id text to point id is taken to be injective.
- `Retrieval.SearchIsExact`: ranks by exact scores over `real`; rounding, cosine and the server's own ranking are not
  part of the model.
- `LazyCollection.CreatedAtMostOnce`: client calls succeed and no other process creates the collection meanwhile.
- Safety and sandbox code, user interface, configuration loaders, skills, lenses and the legacy checkpoint migration.
