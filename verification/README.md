# Commitarium, modelled and proved

A Dafny model of the parts of Commitarium whose guarantees span many operations and every interleaving of
them: chats that share a project's state, a run that interventions pause, autopilot's looks, and three smaller
stores and readers. Code that changes state in place is a class or a loop here too, proved equal to a function
on values; the guarantees are lemmas about those functions, over every run of their steps.

- **A project's shared state** (`SharedState`): the three-way merge with which each chat's write keeps what
  others wrote, and what every slot holds after any interleaving of reads, writes and updates.
- **Chat files** (`MessageIds`, `ChatFiles`, `ChatHistory`, `ChatIds`, `ChatOpens`): the migration of single
  conversations and the move of a chat between scopes, stopped at any file operation, the IDs of chats and messages,
  and what opening a chat step by step lets in.
- **Turns** (`Turns`, `TurnHistory`, `TurnPrompts`, `TurnRetries`, `EventHistory`): what a chat's operations do to its
  messages, its queue and the events it has yet to hear, what each turn asks and when it is retried, and where an event
  is lost.
- **Runs, sessions and interventions** (`ExecutionTables`, `Transactions`, `TransactionRows`, `ExecutionStore`,
  `InterventionRuns`, `Interventions`, `SessionEvents`, `InterventionRecords`): each transaction as a function from
  tables to tables, exactly when it commits and what it leaves, the store that carries it out row by row, the invariant
  of every reachable state, and what stands once it is recorded.
- **Autopilot** (`Proposals`, `ProposalOutcomes`, `Autopilot`, `AutopilotLook`, `AutopilotClaims`, `AutopilotOwn`,
  `AutopilotHolds`, `AutopilotWaits`, `AutopilotRuns`,
  `AutopilotHistory`, `AutopilotSafety`, `AutopilotStarts`, `AutopilotReleases`, `AutopilotSlips`,
  `AutopilotHalfMade`, `AutopilotContinues`): one look over all chats, and the runs of looks, of applying what they
  hand over, wholly, in part or not at all, and of releasing what planned early.
- **Sign-ups** (`SignUps`, `SignUpWindows`), **line readers** (`LineReader`, `Adapters`, `AgentCalls`), and **documents**
  (`Artifacts`, `ArtifactHistory`, `GoalHistory`).

`dafny verify dfyconfig.toml` checks the whole project.

## How the model reads the code

- A file is a value, written or removed in one step; a transaction is all or nothing; JSON equality is equality of
  values. Identifiers and times are numbers, zero standing for the empty one, except where their text matters
  (`MessageIds`). A prompt is the sequence of the events it tells and the messages it carries.
- Workers, blockers, exhausted recoveries, the clock and random IDs are parameters, so every answer is covered.
- `ChatIds` takes naming a chat, locking it, reading it and first writing it as one step. `ChatOpens` takes them
  apart and says exactly what that leaves out. A move or a create between the name and the read does no harm to the
  chat it stores: it is read and kept. One between the read and the first write does, and the lock does not keep it
  out, because neither takes the lock of the chat it stores.
- Between opening a chat and closing it, an operation changes its list of waiting events at most once, as every caller
  does; `EventHistory` follows the open, the operation, the two file writes and the close as steps of their own, and
  main may be opened while nothing is stored as main, and another chat stored there meanwhile.
- The intervention runs range over the steps of `InterventionRuns.Step`, under `InterventionRuns.Allowed`: request
  times increase, attempt IDs are new unless an admission is repeated, a run that rests paused is moved only as its
  chain allows, a plain resume needs the newest intervention resolved (as
  `internal/orchestration/remote_lead.go:1692-1726` checks), and a run that answers keeps its session and wakes no
  other. The store itself lets more through; `Interventions.MovePausedExact` and `Interventions.MoveSessionExact`
  show that the two conditions on moves are exact.
- Applying an action succeeds, fails after it changed the work orders, or is refused before. A create that fails so has
  made its work order, and may have started it, while its card stays with the user; a start or a close whose work order
  got there first settles.
- Autopilot's runs take one watcher that applies what a look handed over before it looks again; everybody else may
  change chats and work at any point, but keeps what was applied, and finished work stays finished. A work order that
  autopilot started to plan early goes past its plan only by a release, which reads the chats in some order of use and
  asks ImplementationHold, as `internal/orchestration/remote_lead.go:1998-2008` does before it starts the
  implementation; asking and starting are one step.

## What is not as promised

- Resolving the last intervention gives the boundary's reason back exactly when that reason is not blank
  (`Interventions.ResolveRestoresBoundary`): for a blank one the store writes a sentence of its own.
- The readers can depend on the chunking once a raw line passes the limit (`LineReader.LongBlankLineDepends`): the
  trimmed line is measured when its newline has arrived, the raw one when it has not. They do for some prefix of the
  stream exactly when a line they come to is beyond the limit, but not once trimmed (`LineReader.ChunkingExact`).
- A sign-up exactly an hour old no longer counts: the limit holds for hours that include one of their ends. With both
  ends an hour can hold twice the limit (`SignUpWindows.ClosedHourTwice`), never more (`SignUpWindows.ClosedHourIs`),
  and stays within it if and only if everybody let through found fewer than the limit an hour before or since
  (`SignUpWindows.ClosedHourExact`).
- A first write can destroy a stored chat (`ChatOpens.FirstWriteDestroys`): over every run, exactly when the read
  before it found none and a create or a move stored main in between (`ChatOpens.WriteDestroysExactly`). A chat that
  moved away after it was named is written again where it was (`ChatOpens.LeftPlaceReturns`).
- An event can be lost (`EventHistory.MovedInIsLost`): over every run, exactly when a chat moved it onto main's list
  after main's holder read that list, the holder's write changed the list without it, and nothing stored it since
  (`EventHistory.LostExactly`). It happens where main is opened before anything is stored there.
- A vision item can have two open work orders (`AutopilotHalfMade.HalfMadeSlip`): a create makes one and then fails, and
  without a goal that holds it no look finds it, so that the next create makes another. A look that begins holds all the
  open ones exactly when it finds those (`AutopilotHistory.FindsExactly`), a create is handed over exactly when no open
  claim stands for its item (`AutopilotClaims.CreateHandedExact`), and no item ever has two open ones exactly when each
  create finds the others cancelled as it makes its own (`AutopilotSafety.NeverTwoOpenExact`). Where every look finds
  them, and no close is refused, it holds over all runs (`AutopilotSafety.NeverTwoOpen`).
- A work order can be implemented before the work its start followed is finished. Two runs do it: two chats made work
  orders of one title, so that the name means another one to whoever reads the other chat first
  (`AutopilotSlips.TwoAlikeSlip`), and an older early start of the same work order, left to the user for its
  premium model, settles later and takes over (`AutopilotSlips.OldStartSlips`). It happens through no step but a release
  that comes early (`AutopilotReleases.WaitsExactly`). A release can let a planned work order pass exactly when a slot
  is free and its newest early start is loose, its name read as that of finished work in some chat that has it
  (`AutopilotReleases.ReleaseExact`); under clear names it never does before its time
  (`AutopilotReleases.StartedWorkWaits`).
- Moving a paused run on, which the store allows, can split its chain of interventions; exactly when, says
  `Interventions.MovePausedExact`.

## Model

| member | source | states |
|---|---|---|
| SharedState.MergedEntries | internal/conversations/chats.go:210-225 | key by key: an entry our side changed, added or removed since base is as ours, every other as stored now |
| SharedState.MergeEntries | internal/conversations/chats.go:210-225 | the two loops over the maps compute that merge, in whatever order the keys come |
| SharedState.MergeHelpers | internal/conversations/chats.go:228-245 | the loop over our helpers replaces changed ones in place and appends new ones, as the specification says |
| SharedState.ReplaceOrAppend | internal/conversations/chats.go:237-242 | the first helper with the ID is replaced, a new one goes last |
| SharedState.MergedHelperSlot | internal/conversations/chats.go:228-245 | by ID: a helper we changed or added is as ours, one we left out stays, and IDs stay unique |
| SharedState.ProjectFile.MergePending | internal/conversations/chats.go:197-205 | the chat's list of events is replaced when it changed from base, and the entry goes when it is empty |
| SharedState.ProjectFile.Merge | internal/conversations/chats.go:171-206 | merging field by field in place gives the specified state, whole |
| SharedState.MergeSlot | internal/conversations/chats.go:168-206 | for every scalar, entry, helper and list: what the write changed from its own base is as the write holds it, the rest as stored |
| SharedState.DisjointMergesCommute | internal/conversations/chats.go:168-206 | writes that change different slots may come in either order |
| SharedState.MergeTwice | internal/conversations/chats.go:373-416 | writing the same record twice running stores exactly what writing it once does |
| SharedState.UnchangedSlot | internal/conversations/chats.go:349-432 | over any interleaving, a slot nobody changed keeps its value |
| SharedState.LastChangeWins | internal/conversations/chats.go:349-432 | over any interleaving of reads, writes, updates and moves, a slot is as the last step that changed it from its own base left it |
| SharedState.MainMarkExactly | internal/conversations/chats.go:171-206 | over any interleaving the project says that main moved away if and only if it did since, or the project said so at the start, whatever stale copies are written |
| SharedState.MainMarkStays | internal/conversations/chats.go:1021-1026 | once it says so it always does |
| MessageIds.SplitAtLast | internal/conversations/conversations.go:819-821 | two texts equal around their last underscores have equal parts |
| MessageIds.IdPartInjective | internal/conversations/chats.go:791-796 | different scope and chat give different ID parts |
| MessageIds.MessageIdInjective | internal/conversations/conversations.go:819-821 | a message ID determines its scope, its chat and its place there |
| MessageIds.MessageIdSays | internal/conversations/chats.go:791-796 | a message ID says the scope, the chat unless it is main, whose messages keep the IDs of the single conversation, and the place from one |
| MessageIds.DecimalReads | internal/conversations/conversations.go:819-821 | a place is written in digits and read back from them |
| ChatFiles.Store.Do | internal/conversations/conversations.go:830-844 | one file operation, unless the process stopped before it |
| ChatFiles.Store.Migrate | internal/conversations/chats.go:447-493 | does the plan's operations in order, as many as the process lives for; an unreadable conversation stops the read and writes nothing |
| ChatFiles.Store.NameFirst | internal/conversations/chats.go:620-632 | main for a scope's first chat unless main moved away, otherwise a new ID |
| ChatFiles.Store.Recent | internal/conversations/chats.go:601-616 | the open chat used last; with none, main unwritten, or a new chat, created |
| ChatFiles.Store.Carry | internal/conversations/chats.go:979-1032 | the move's file operations, in order, up to where the process stops |
| ChatFiles.Store.Move | internal/conversations/chats.go:979-1032 | the same with the target scope migrated first, as reading its chats does |
| ChatHistory.MigrationRestarts | internal/conversations/chats.go:442-493 | stopped anywhere, any number of times, a rerun reaches the uninterrupted files, and then has nothing to do |
| ChatHistory.MigrationKeepsConversation | internal/conversations/chats.go:464-493 | the migrated scope holds the whole conversation as main, as old, as busy and with the turn it had, with its events, and shares what it shared |
| ChatHistory.MigrationDecides | internal/conversations/chats.go:447-463 | with a project there, what is left of the conversation is removed; without, nothing is written if and only if there is none, or it says it is another scope's |
| ChatHistory.MoveProgress | internal/conversations/chats.go:994-1030 | the files after each operation of a move |
| ChatHistory.MoveLosesNothing | internal/conversations/chats.go:979-1032 | at every prefix the chat stands whole, with all its events, in one of the scopes, nothing else is touched, and a finished move leaves it in the new one alone |
| ChatHistory.MoveArrives | internal/conversations/chats.go:990-1026 | a finished move leaves the chat idle, open and just used, as old as it was, with nothing of its last turn; a project is marked if and only if its main left, now or before |
| ChatOpens.WriteDestroysExactly | internal/conversations/chats.go:289-304 | over every run of naming, locking, reading, writing, creating and moving, a write destroys a stored chat if and only if its last read found none there and a create or move stored one in between; that one is main |
| ChatOpens.FirstWriteDestroys | internal/conversations/chats.go:994-1030 | a run in which a chat moves in as main after main was read as not there, and the first write leaves it nowhere |
| ChatOpens.LeftPlaceReturns | internal/conversations/chats.go:336-347 | a run in which a chat moves away between its name and its lock, and is written again at the place it left |
| ChatIds.StepKeepsInvariant | internal/conversations/chats.go:601-648 | create, write, move and migrate, stopped or not, keep a scope's home and put chats only at places never given before |
| ChatIds.PlacesGivenOnce | internal/conversations/chats.go:618-632 | a scope that had a chat holds main, or records that it moved, or still has the conversation main will be; a place once left is never given again |
| ChatIds.MessageIdsUnique | internal/conversations/conversations.go:819-821 | over every run no two messages of any scope and chat have the same ID |
| Turns.Chat.Send | internal/conversations/turn.go:63-109 | a seen key changes nothing; a busy chat queues; otherwise the message joins and the turn's prompt carries the kept turn and the waiting events |
| Turns.Chat.LaunchTurn | internal/conversations/turn.go:126-152 | the turn is counted, keyed and kept with its prompt |
| Turns.Chat.StartWaitingTurn | internal/conversations/events.go:656-684 | the queue joins the conversation in order, and the prompt tells the waiting events |
| Turns.Chat.Tell | internal/conversations/events.go:637-652 | every event is noted, and those that wake the assistant wait for it, news only while it drives |
| Turns.Chat.FailTurn | internal/conversations/retry.go:103-138 | a retry while one is left and can help, then a plain failure |
| Turns.Chat.RetryWhenDue | internal/conversations/retry.go:176-196 | a due retry runs the kept prompt again, and nothing else does |
| Turns.Chat.RetryAsked | internal/conversations/retry.go:200-229 | the user's retry runs the kept prompt with the events that wait |
| Turns.Chat.RetrySignIn | internal/conversations/sign_in.go:116-143 | so does the turn kept for a sign-in |
| Turns.Chat.EndTurn | internal/conversations/turn.go:280-361 | a reply, a failed login or a usage limit ends the turn; a failed login keeps it |
| TurnHistory.MessagesKeptOnce | internal/conversations/turn.go:63-109 | as a multiset, user messages and queued ones are those at the start and those accepted since |
| TurnHistory.RepeatedKeyAddsNothing | internal/conversations/turn.go:67-69 | a repeated key changes nothing, at any later state |
| TurnHistory.QueueDrainsInOrder | internal/conversations/events.go:656-684 | what left the queue, then what is in it, is what was queued, in that order |
| TurnPrompts.TurnAsks | internal/conversations/turn.go:92-117 | each operation starts the next turn exactly when it should, and the turn's prompt says what it carries of an unanswered one and then the messages that join, in order, and tells the events it takes off the list; any other operation leaves turn and prompt be |
| TurnPrompts.EachMessageIsAsked | internal/conversations/events.go:669-684 | over every run, messages that join the conversation, sent or from the queue, are the last the prompt stored with them says, in that order |
| TurnPrompts.PartsStay | internal/conversations/retry.go:180-229 | a kept prompt's parts stay in the kept one through every retry, and through messages sent while it waits for a sign-in |
| TurnPrompts.SignInKeepsTurn | internal/conversations/sign_in.go:112-143 | a turn kept for a sign-in is in every prompt until a reply, and no turn starts without it |
| TurnPrompts.AnswersStay | internal/conversations/turn.go:67-69 | a key answers at any later state as it did first, and one that names a turn with that turn |
| TurnRetries.FailedTurn | internal/conversations/retry.go:103-138 | a failed turn waits for its next retry, at once, five or thirty seconds on, or it has failed, with a note that says so |
| TurnRetries.RetriedTwice | internal/conversations/retry.go:112-126 | over every run a turn is retried by itself twice at most, and the third failure ends it |
| TurnRetries.RetryWaits | internal/conversations/retry.go:176-180 | undisturbed, a retry runs if and only if its wait since the failure is over |
| TurnRetries.EndedTurn | internal/conversations/turn.go:284-360 | a turn that ends says so in the conversation, with the reply or a note |
| TurnRetries.TellNotes | internal/conversations/events.go:643-648 | all that is observed is noted, in order |
| EventHistory.OpKeepsEvents | internal/conversations/turn.go:102-108 | every event an operation takes off the list is in the prompt it keeps |
| EventHistory.LostExactly | internal/conversations/chats.go:197-205 | over every interleaving, with stops between the two files, an event is lost, told in no stored prompt and on no list, if and only if a move put it on main's list after main's holder read that, the holder's write changed the list without it while it waited nowhere else, and nothing stored it since |
| EventHistory.NoEventLost | internal/conversations/chats.go:373-416 | where no holder's write loses it so, an event once waiting still waits somewhere or was told in a stored prompt, at any point of any run |
| EventHistory.EventsLeave | internal/conversations/chats.go:979-1032 | a list changes only in its holder's write or a move, and an event leaves it only whole to the new scope's list, told in the stored prompt, or in a write by a holder who read the list before a move put it there |
| EventHistory.MovedInIsLost | internal/conversations/events.go:745-820 | a run that loses an event: a project's main is opened while it has no chat, a chat moves in as main with its event, and what is told replaces the list |
| ExecutionTables.Latest | internal/database/intervention_store.go:319-343 | the newest intervention by request time and ID, which is unique |
| ExecutionStore.Store.QueueIntervention | internal/database/intervention_store.go:13-168 | row by row equal to the transaction, or rolled back and refused as it says |
| ExecutionStore.Store.BeginInterventionTurn | internal/database/intervention_delivery_store.go:15-166 | likewise: the four rows of an admitted answer |
| ExecutionStore.Store.CompleteIntervention | internal/database/intervention_delivery_store.go:171-292 | likewise: the answer recorded, the session at rest, the run still paused |
| ExecutionStore.Store.ResolveInterventionGuidance | internal/database/intervention_resolution_store.go:17-145 | likewise: the pause released and the action recorded together |
| ExecutionStore.Store.TransitionRun | internal/database/execution_store.go:150-251 | likewise: a pause folds the wait kind in, and a boundary queues what waited for it |
| ExecutionStore.Store.TransitionSession | internal/database/execution_store.go:436-529 | likewise: the status and the provider session, which does not change once set |
| ExecutionStore.Store.ApplyRunPause | internal/database/run_pause_store.go:12-95 | likewise: pause and resume, each action once |
| ExecutionStore.Store.AppendEvent | internal/database/execution_store.go:595-675 | likewise: the next sequence of the session, or the event that is there |
| ExecutionStore.Store.BeginAutonomousTurn | internal/database/autonomous_turn_store.go:18-165 | likewise: attempt, session and run together |
| ExecutionStore.Store.BeginParallelImplementationTurns | internal/database/parallel_implementation_store.go:16-136 | likewise: both turns or, rolled back, neither |
| ExecutionStore.Store.BeginNewSessionTurn | internal/database/new_session_turn_store.go:16-155 | likewise: session, first attempt and run together |
| TransactionRows.QueueExactly | internal/database/intervention_store.go:13-168 | a new request is taken if and only if the run goes on, every one before was answered and its agent has the one live session; which rows it leaves; a known one repeats if and only if it asks the same |
| TransactionRows.BeginExactly | internal/database/intervention_delivery_store.go:15-166 | when an answer is begun, when it is a repeat, and the four rows |
| TransactionRows.CompleteExactly | internal/database/intervention_delivery_store.go:171-292 | an answer is completed exactly by its attempt, with its effect; told again it repeats, told otherwise it conflicts |
| TransactionRows.ResolveExactly | internal/database/intervention_resolution_store.go:17-145 | exactly when an action resolves a pause, and the rows it leaves |
| TransactionRows.MoveExactly | internal/database/execution_store.go:150-251 | exactly when a run moves, what it then waits for and keeps, and the request it leaves to be answered |
| TransactionRows.SessionExactly | internal/database/execution_store.go:436-529 | exactly when a session moves, and that no other provider replaces the one it has |
| TransactionRows.PauseExactly | internal/database/run_pause_store.go:12-95 | each pause and resume of a run that goes on is applied once, by its action |
| TransactionRows.AppendExactly | internal/database/execution_store.go:595-675 | exactly when an event is stored, with the next number, last |
| TransactionRows.TurnExactly | internal/database/autonomous_turn_store.go:18-165 | exactly when a turn is admitted, when it is a repeat, and the three rows |
| TransactionRows.ParallelExactly | internal/database/parallel_implementation_store.go:17-136 | exactly when two turns are admitted together, and when they are a repeat |
| TransactionRows.NewSessionExactly | internal/database/new_session_turn_store.go:16-155 | exactly when a session begins, with its first attempt and without a provider |
| TransactionRows.MissingIsNotFound | internal/database/run_pause_store.go:12-95 | what is not whole is refused as invalid, and what is not there as not found |
| TransactionRows.QueueRefusals | internal/database/intervention_store.go:58-72 | a request is refused for the first that holds: the run has ended, its agent has not the one live session, or one before was not answered |
| TransactionRows.BeginSawAnother | internal/database/intervention_delivery_store.go:15-166 | a caller that saw another attempt than the session is on is told so, where all else would do |
| TransactionRows.TurnSawAnother | internal/database/autonomous_turn_store.go:18-165 | so is one that admits a turn |
| Interventions.StepKeepsInvariant | internal/database/intervention_store.go:61-118 | every allowed step keeps chains, answers and attempts as the invariant says |
| Interventions.OneUnanswered | internal/database/intervention_store.go:69-118 | in every reachable state a run has at most one unanswered intervention, its latest, pauses for it, and it waits for a boundary exactly while the run works |
| Interventions.AnsweringIsExclusive | internal/database/intervention_delivery_store.go:70-161 | while one is answered the run rests paused, its session alone is active on its attempt, and no other admission of the run commits |
| Interventions.ResolveRestoresBoundary | internal/database/intervention_resolution_store.go:54-98 | however long the chain, the wait kind of the last boundary comes back, and its reason exactly when not blank |
| Interventions.ResolveRestoresStart | internal/database/intervention_store.go:75-105 | a run that rested before its first boundary gets back what it rested at |
| Interventions.MoveSessionExact | internal/database/execution_store.go:436-529 | while a run answers, moving one of its sessions keeps the answer exclusive if and only if it is another one and does not become active |
| Interventions.RestIsLastBoundary | internal/database/execution_store.go:187-246 | what a run rests at is the last boundary it came to |
| Interventions.MovePausedExact | internal/database/execution_store.go:183-246 | in every reachable state, moving a run that rests paused keeps the chain's invariant if and only if it ends, works on outside a chain with nothing to come back to, or rests under a kind of its own (or stays a blocker) with a blank reason or the chain's |
| Interventions.ParallelRotatesBoth | internal/database/parallel_implementation_store.go:77-134 | both checkpoints rotate to cursor zero, both sessions are active, every other row is as it was |
| Interventions.RepeatChangesNothing | internal/database/autonomous_turn_store.go:67-72 | a committed admission repeated at any later state with the same attempts, for any reason and at any time, changes no table |
| Interventions.AdmittedOnce | internal/database/new_session_turn_store.go:37-54 | over every run an admission commits once, whatever else its repeats say, and the attempts it replaced are never held again |
| SessionEvents.EventsNumbered | internal/database/execution_store.go:624-636 | a session's events are numbered from one without a gap, whichever steps wrote them |
| SessionEvents.AppendReplays | internal/database/execution_store.go:610-622 | an appended event repeated at any later state is answered as it was, and changes nothing |
| InterventionRecords.RequestStands | internal/database/intervention_store.go:30-75 | over every run a request taken stands as it was asked, with the message it put to the session; asked again it repeats |
| InterventionRecords.AnswerStands | internal/database/intervention_delivery_store.go:190-215 | a completed answer keeps its attempt and its effect; the same completion repeats and any other is refused |
| InterventionRecords.RowsStand | internal/database/execution_store.go:436-529 | over every run actions keep their meaning, sessions their run, agent, role, provider and end, and an ended run its end |
| InterventionRecords.ActionReplays | internal/database/run_pause_store.go:25-50 | a pause or resume repeats at every later state, and any other under its ID is refused |
| InterventionRecords.ResolutionReplays | internal/database/intervention_resolution_store.go:30-60 | so does a resolution |
| Proposals.LookUpWait | internal/conversations/goal.go:718-750 | the scan over actions and titles finds what the specification says an action waits for |
| Proposals.SomeStartIsFree | internal/conversations/goal.go:718-750 | where no pending start waits step by step for itself, and each thing waited for has a pending start, some pending start is not waiting |
| Proposals.SettleStale | internal/conversations/stale.go:43-81 | exactly the cards no longer needed settle, each as its kind says, and the loop reports whether any did |
| Proposals.ResolveCard | internal/conversations/conversations.go:700-758 | the first card with the ID gets the outcome if it is pending; otherwise nothing changes |
| Proposals.OneOutcome | internal/conversations/conversations.go:719-722 | a card resolved or settled once is pending for no other outcome |
| ProposalOutcomes.SettlesExactly | internal/conversations/stale.go:23-81 | a proposed card settles if and only if a goal is on it, or its work order is where it leads, or waits on its blocker no more, which a message never minds; and what it then says |
| ProposalOutcomes.SettledOnce | internal/conversations/stale.go:43-81 | a settled card stays as it is, whatever the work and the goal do |
| ProposalOutcomes.OutcomeExactly | internal/conversations/conversations.go:716-757 | a card gets an outcome if and only if it is pending, it is recorded on that card alone, and otherwise the answer says whether there is such a card |
| AutopilotLook.Pilot.Begin | internal/conversations/goal.go:339-362 | the loops collect what is claimed, what autopilot created and what runs |
| AutopilotLook.Pilot.CountWorking | internal/conversations/goal.go:601-622 | counts the work that takes a slot, early planners left out |
| AutopilotLook.Pilot.HoldBack | internal/conversations/goal.go:451-503 | waiting work and work beyond the cap is held, kept from starting or planned early, and noted |
| AutopilotLook.Pilot.MustLeave | internal/conversations/goal.go:506-553 | exactly the user's own actions are left, and a continue that may go on is counted |
| AutopilotLook.Pilot.TakeUp | internal/conversations/goal.go:406-562 | one action taken up, branch by branch, is the specified step |
| AutopilotLook.Pilot.LookAt | internal/conversations/goal.go:304-568 | a whole chat: stale cards settle, closes go first, and the chat is written exactly when something was handed over or noted |
| AutopilotLook.UnwrittenUnchanged | internal/conversations/goal.go:563-567 | a chat that is not written is as it was stored |
| AutopilotClaims.LookIsSafe | internal/conversations/goal.go:339-398 | over all chats of a look the claims, the creates and the slots stay as the invariant says |
| AutopilotClaims.OneCreatePerItem | internal/conversations/goal.go:540-561 | one create at most per item, and none while a claimed work order is neither cancelled nor closed earlier in the look |
| AutopilotClaims.BegunClaims | internal/conversations/goal.go:342-360 | the claims a look begins with are the goal items' work orders and the applied creates', in whichever chat, and no others |
| AutopilotClaims.CreateHandedExact | internal/conversations/goal.go:540-564 | a create that may be taken up is handed over if and only if no open claim stands for its item and it asks for no premium model |
| AutopilotClaims.SlotsWithinCap | internal/conversations/goal.go:480-503 | what ran before and the slots handed out never pass the larger of the cap and what ran before |
| AutopilotClaims.HandedOnceInChat | internal/conversations/goal.go:406-411 | only untried cards are handed over, each once, and each is stored as tried |
| AutopilotOwn.TakenExactly | internal/conversations/goal.go:504-569 | an action taken up is held, and stays untried, or it is tried, and handed over if and only if it is the assistant's own to do, no call of the user's, within eight tries and unclaimed, and left to the user otherwise |
| AutopilotOwn.HandedIsItsOwn | internal/conversations/goal.go:820-831 | what a look hands over acts on work orders only that are the assistant's, were handed to it with the goal, or were made by an applied create; it throws no work away it may not, and asks for no premium model |
| AutopilotOwn.LookDecides | internal/conversations/goal.go:506-569 | in a look at a chat, what nothing holds is tried; what is the user's is not handed over, and left to them once tried; and the rest is handed over when tried, but for the limits on creates and continues |
| AutopilotOwn.LookIsItsOwn | internal/conversations/goal.go:270-286 | so it is over all chats of a look |
| AutopilotOwn.AppliesItsOwn | internal/conversations/events.go:235-256 | over every run, whatever is applied was found by a look to be the assistant's own to do |
| AutopilotOwn.UsersOrderUntouched | internal/conversations/goal.go:820-831 | over every run, a work order that no look found entrusted keeps its state through whatever autopilot applies |
| AutopilotHolds.BegunKnows | internal/conversations/goal.go:339-362 | which work orders a look knows autopilot to have created, what plans early, and how many slots are taken, by all the chats' cards |
| AutopilotHolds.PassedOverExactly | internal/conversations/goal.go:402-448 | which actions are taken up, by kind: what was asked for, and which closes |
| AutopilotHolds.HeldExactly | internal/conversations/goal.go:451-503 | an action is held if and only if it waits for other work and may not plan meanwhile, or a start finds sixteen slots taken; which creates are kept from starting, and what takes a slot |
| AutopilotHolds.TriedClaims | internal/conversations/goal.go:559-567 | what is handed over claims its item or frees its work order's, and says whether its start is kept |
| AutopilotHolds.TriedCounts | internal/conversations/goal.go:527-539 | a continue or recovery is counted if and only if it is the assistant's own, throws no work away it may not, and is within its eight |
| AutopilotHolds.HeldCard | internal/conversations/goal.go:451-503 | a held card is stored as queued, and takes nothing |
| AutopilotHolds.GoesIntoExactly | internal/conversations/goal.go:300-330 | a look goes into a chat if and only if a goal is active, the assistant builds everything, or an answer waits to be sent; any other chat only settles, and is written exactly if a card did |
| AutopilotWaits.HandedIsTimely | internal/conversations/goal.go:451-479 | a start handed over follows only finished work, or plans early while it is implemented; a create that waits is kept from starting |
| AutopilotWaits.ImplementationHold | internal/conversations/goal.go:681-706 | the scan for the latest early start, then what it waits for and the slots |
| AutopilotStarts.StepKeepsStarts | internal/conversations/goal.go:451-479 | whatever interleaves, each action handed over, and each card that started work since, followed finished or unknown work when it was handed over, or plans early |
| AutopilotReleases.StartedWorkWaits | internal/conversations/goal.go:677-706 | over every run, work that autopilot started is past planning only once what its start followed when handed over is finished, or was none the look knew, when each release finds the newest early start to be that one and its After to name one work order, by ID or by a name nothing else has |
| AutopilotReleases.WaitsExactly | internal/orchestration/remote_lead.go:1998-2008 | over every run, it is past planning too early in no state if and only if no release of it comes before what its start followed is finished |
| AutopilotReleases.ReleaseExact | internal/conversations/goal.go:681-706 | there is an order of the chats in which planned work passes if and only if a slot is free and the newest early start's name is that of finished or no work, in any one chat that has the name |
| AutopilotReleases.ClearIsTight | internal/conversations/goal.go:718-750 | a clear name is not read so while what the start follows is unfinished |
| AutopilotSlips.TwoAlikeSlip | internal/conversations/goal.go:730-747 | a run in which work passes early because two chats made work orders of one title |
| AutopilotSlips.OldStartSlips | internal/conversations/stale.go:43-81 | a run in which work passes early because an older start of it, left to the user for its premium model, settles after the newer one was applied |
| AutopilotHistory.LookKeepsInvariant | internal/conversations/goal.go:270-286 | a look at one chat keeps the invariant of the runs |
| AutopilotHistory.FindsExactly | internal/conversations/goal.go:339-360 | a look that begins holds every open work order made to its item if and only if it finds those whose creates then failed |
| AutopilotSafety.ApplyKeepsInvariant | internal/conversations/events.go:235-326 | so does applying what was handed over, failing once its work order was made or started, or being refused |
| AutopilotSafety.NeverTwoOpen | internal/conversations/goal.go:339-398 | over all looks an item never has two open work orders from autopilot's creates, where no close is refused and each look that begins finds the open ones whose creates then failed, among its goal's items or the applied creates |
| AutopilotSafety.NeverTwoOpenExact | internal/httpapi/assistant_chat.go:677-754 | over every run, no item has two open ones at any state if and only if each create that makes one, wholly or failing after, finds every other of its item cancelled |
| AutopilotHalfMade.HalfMadeSlip | internal/httpapi/assistant_chat.go:740-752 | a run in which a create fails once its work order is made, and the next one for the item makes a second open one |
| AutopilotSafety.HandedOnce | internal/conversations/goal.go:406-411 | over every run each action is handed over at most once, and stays marked as tried |
| AutopilotContinues.LookedCounts | internal/conversations/goal.go:527-539 | in one chat every continue handed over is counted, and the count stays within eight |
| AutopilotContinues.ReadIsCurrent | internal/conversations/chats.go:193-194 | the counter a look read is the one stored when it writes, whatever stale copies others wrote meanwhile |
| AutopilotContinues.ContinuesBounded | internal/conversations/goal.go:527-539 | over every run the continues and recoveries of a work order never pass eight |
| SignUps.Within | cmd/marketplace-signup/main.go:244-252 | compacting in place keeps exactly the times after the cutoff, in order |
| SignUps.Server.Expire | cmd/marketplace-signup/main.go:226-235 | every list loses what left the window, and an address with none left goes |
| SignUps.Server.Allow | cmd/marketplace-signup/main.go:221-242 | admits exactly when neither list is full, and then counts the time in both |
| SignUpWindows.RefusedWhenFull | cmd/marketplace-signup/main.go:236-238 | refused exactly when as many went through in its hour, in all or from its address, as may |
| SignUpWindows.WindowsLimited | cmd/marketplace-signup/main.go:221-242 | every hour of every run, with one of its ends, holds at most fifty, and five from one address |
| SignUpWindows.ListsAgree | cmd/marketplace-signup/main.go:226-241 | each time stands as often in the list of all as in the addresses' lists together |
| SignUpWindows.ClosedHourExact | cmd/marketplace-signup/main.go:236-238 | every hour of a run with both its ends is within a limit if and only if everybody let through found fewer an hour before or since; who finds as many takes it over |
| SignUpWindows.ClosedHourIs | cmd/marketplace-signup/main.go:244-252 | such an hour holds what the hour with one end does and what went through at the other end, and never more than twice the limit |
| SignUpWindows.ClosedHourTwice | cmd/marketplace-signup/main.go:244-252 | runs that reach twice the limit, over all addresses and from one |
| LineReader.Run | internal/claudeadapter/session.go:162-226 | the nested loops over chunks and newlines, with both size checks, are the specified reader |
| LineReader.TrimIs | internal/claudeadapter/session.go:177-184 | trimming takes off all the white space around a line and nothing else |
| LineReader.ReadIsByLine | internal/claudeadapter/session.go:162-226 | when no line the reader comes to is beyond the limit only for the space around it, reading comes to handling the stream's lines one by one |
| LineReader.ChunkingDoesNotMatter | internal/codexadapter/protocol.go:160-196 | when every raw line fits, the same output, chunked any way, is read to the same end |
| LineReader.ChunkingExact | internal/codexadapter/protocol.go:160-196 | for handlers that fail lines for other reasons than length: every prefix of a stream is read to the same end however chunked, if and only if each line the reader comes to is within the limit or beyond it even when trimmed |
| LineReader.LinesJoin | internal/claudeadapter/session.go:171-177 | the lines and the rest, put together again with their newlines, are the stream |
| LineReader.JoinedSplits | internal/claudeadapter/session.go:171-177 | lines put together split into themselves, with no rest |
| LineReader.LongBlankLineDepends | internal/claudeadapter/session.go:177-210 | beyond the limit it is not: the same spaces pass or fail with the chunking |
| Adapters.Publish | internal/claudeadapter/session.go:946-955 | events go out one by one until one finds no room |
| Adapters.ReadLine | internal/claudeadapter/session.go:186-205 | one line: translated and published, or after the result passed over if informational |
| Adapters.TerminalOnce | internal/claudeadapter/session.go:186-205 | after an accepted result nothing is published or replaced, and the reader goes on exactly past blank and informational lines |
| Adapters.SessionIgnoresChunking | internal/claudeadapter/session.go:162-226 | when every raw line fits, what a session publishes and ends with depends on its output alone |
| Adapters.SessionChunkingExact | internal/claudeadapter/session.go:162-226 | for a session, with no condition on its records: exact as above |
| Adapters.CompletesWithTerminal | internal/claudeadapter/session.go:228-267 | a session completes with a result exactly when one line of its output gave it, only blank and informational lines followed, and nothing else ended it |
| Adapters.ResultFromOneLine | internal/claudeadapter/session.go:186-205 | lines lead to a result exactly when one of them, come to before any result, gave it and the rest are passed over |
| Adapters.DispatchChunkingExact | internal/codexadapter/protocol.go:160-196 | the client's answers and notifications depend on the chunks of no prefix, exactly as above |
| Adapters.Client.Request | internal/codexadapter/protocol.go:77-100 | a request gets the next ID and waits under it |
| Adapters.Client.Dispatch | internal/codexadapter/protocol.go:210-249 | a message is queued, answers its caller, is ignored when late, or fails the client |
| Adapters.AnsweredOnce | internal/codexadapter/protocol.go:235-249 | over every run a request is answered at most once, only while its caller waits |
| AgentCalls.PublishedIs | internal/claudeadapter/session.go:946-955 | events go out from the first on, all of them if and only if each finds room, and otherwise those before the first that does not |
| AgentCalls.SessionPublishes | internal/claudeadapter/session.go:186-205 | a session publishes what its lines mean, all of it in order while it goes on, and otherwise a first part |
| AgentCalls.SessionReads | internal/claudeadapter/session.go:162-226 | a session goes on to the end of its lines if and only if each is blank, or fits and means something there is room for, and those after the result are passed over |
| AgentCalls.CompletionCauses | internal/claudeadapter/session.go:228-267 | a session completes by its first cause: stopped, its reading failed, its process lost, or a result that does not hold |
| AgentCalls.Hears | internal/codexadapter/protocol.go:210-249 | the client goes on exactly past well-formed responses and named notifications that find room; a response to a pending request becomes its answer and changes nothing else |
| AgentCalls.EachRequestOnce | internal/codexadapter/protocol.go:77-100 | over every run each request made is pending, given up or answered, and one of these only |
| AgentCalls.AnsweredExactly | internal/codexadapter/protocol.go:235-249 | a request has an answer if and only if a well-formed response to it came while it was pending, and that one |
| AgentCalls.NotificationsInOrder | internal/codexadapter/protocol.go:215-224 | the queue holds the named notifications that found room, in order |
| Artifacts.WorkflowStore.PutFeatureArtifact | internal/database/feature_artifact_store.go:17-111 | row then event, rolled back together, with every refusal |
| Artifacts.WorkflowStore.AcceptGoalAtStart | internal/database/goal_acceptance_store.go:30-96 | the feature's goal and the event together, with every refusal |
| Artifacts.WorkflowStore.GetFeatureArtifact | internal/database/feature_artifact_store.go:113-141 | the last revision, or which of the two is missing |
| ArtifactHistory.RevisionsMatchEvents | internal/database/feature_artifact_store.go:30-110 | the revisions of a kind are exactly 1 to n, matched in order with update events that carry the expected revision and the digest |
| ArtifactHistory.SequencesGapless | internal/database/feature_artifact_store.go:79-85 | a feature's events are numbered from one without a gap across all writers |
| ArtifactHistory.PutReplays | internal/database/feature_artifact_store.go:30-44 | a repeated key, at any later state, returns the revision and event it first made and changes nothing |
| ArtifactHistory.AcceptReplays | internal/database/goal_acceptance_store.go:42-51 | so does a repeated goal |
| ArtifactHistory.GetReturnsLast | internal/database/feature_artifact_store.go:113-141 | getting a document returns the row of its last update |
| GoalHistory.PutTaken | internal/database/feature_artifact_store.go:46-110 | in every reachable state a put under a new key is taken if and only if the feature has as many revisions of the kind as it expects, and what it then stores, and what it is refused as |
| GoalHistory.KeyConflicts | internal/database/feature_artifact_store.go:30-44 | a key that is taken conflicts if and only if it was of another call |
| GoalHistory.GoalTaken | internal/database/goal_acceptance_store.go:42-96 | in every reachable state a goal under a new key is taken if and only if the feature is ready and has none, and then the feature has it from that time |
| GoalHistory.GoalStands | internal/database/goal_acceptance_store.go:74-87 | over every run an accepted goal stands, with its time, until somebody edits it |
| GoalHistory.OtherGoalsRefused | internal/database/goal_acceptance_store.go:74-87 | while it stands every other acceptance is refused |
| GoalHistory.OneGoal | internal/database/goal_acceptance_store.go:42-96 | a feature is given one goal at most, as long as nobody clears it |

## Left out

- Prompt and instruction text, titles, notes for the user and the model's attachments: only what a stored prompt tells and carries is kept.
- The JSON of the files and rows, time formatting, and file system errors: a failed write is a stop before it.
- Workers, HTTP, Git, Docker, the desktop and video apps, and configuration.
- Deleting a project, and chats moved out of a project while autopilot runs in it: claims are read from the chats that are there.
- Other ways into the execution tables: CreateRun, CreateSession, BeginReplanningTurn, BeginWorkerTurn, session recovery, and session commands; sessions and first attempts appear as steps of their own.
- What happens between observe marking work as seen and tell storing its events: an event is followed from when its list is first written.
- Goal progress, priorityItems and AutopilotHandles: folds over the vision that add easy members.
- Translating an agent's records, and what a translated event says: any function of the session so far stands for it.
- LineReader.Run: trims ASCII white space only, where the source trims Unicode white space; nothing proved depends on which.
- Proposals.LookUpWait: takes titles that differ up to letter case (ASCII), because the source's answer for equal titles depends on map order.
- AutopilotReleases.ReleaseExact: takes one newest early start; where two have the newest time, the order of reading decides between them.
- AutopilotSafety.NeverTwoOpen: counts the work orders that autopilot's handed-over creates made, not those a user approves or creates for the same item.
- AutopilotContinues.ContinuesBounded: one watcher looks at one chat at a time, as the watcher's single loop does.
- Interventions.AdmittedOnce: attempt IDs are taken to be new; the source makes them random.
- ChatIds.PlacesGivenOnce: sixteen random hexadecimal digits are taken to be digits no chat had.
- Artifacts.WorkflowStore.PutFeatureArtifact: whether a document is valid JSON, and the white space of IDs, are not checked here.
- Whether a turn ever ends, and the order of a new message against older queued ones: the code promises neither.
- AutopilotLook.Pilot.TakeUp: takes distinct titles, as LookUpWait does.
- AutopilotLook.Pilot.LookAt: takes distinct titles, as LookUpWait does.
- AutopilotWaits.ImplementationHold: takes distinct titles, as LookUpWait does.
- AutopilotReleases.StartedWorkWaits: a user who has held work implemented by hand, and deleting a work order, are not steps of the runs.
- SharedState.ProjectFile.MergePending: takes a list that is absent and one that is empty for the same, where the source compares their JSON.
- ChatFiles.Store.Recent: leaves open which of two chats used at one time comes first, which the source decides by creation time and ID.
- ChatOpens.WriteDestroysExactly: scopes with a single conversation yet to be migrated are left out, and a mover that finds the chat it named gone writes nothing.
- Turns.Chat.Send: refreshing a turn that runs, archiving, and the time of use are left out.
- Turns.Chat.LaunchTurn: the provider's session and the attempt are left out.
- Turns.Chat.RetryWhenDue: a failure to ready the agent is left out.
- Turns.Chat.EndTurn: a reply's actions, notes and title are left out.
- ExecutionStore.Store.TransitionSession: the result fields and their check are left out.
- ExecutionStore.Store.AppendEvent: an event's type is kept only as from the user or not.
- Proposals.ResolveCard: an outcome's effect on helpers, projects and the goal is left out.
- Adapters.Client.Request: a completed connection and a failed write are left out.
