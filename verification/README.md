# Model of the event automation services

A Dafny model of the in-process state machines of a security-operations server written in Go, with
proofs of what they keep. It covers the agent workflow that fans a security event out into tasks,
actions, commands and executions; the deduplicating intake of pushed events and its synchronization
loop; the memory store both work on; the automation hook in front of them; the Socket.IO hub that
carries notifications; and the queue worker. `dafny verify dfyconfig.toml` checks all of it.

## How it is built

- `StoreModel.dfy` is the store as plain append-only tables, one function per critical section.
  `MemoryStore.dfy` is the class with maps of slices, counters, scans and an in-place filter, each
  method proved to be the table operation. `Users.dfy` does the same for the two user maps.
- `IpText.dfy` and `Planning.dfy` hold the text pipeline: an address is printed into a task name, the
  name is rewritten into an action name, and the address is read back into a command. `Lookups.dfy`
  writes down what has to come out of it.
- `Workflow.dfy` is the workflow as a machine that makes at most one store operation a step, so a crash is
  a run that is never stepped again and several runs may take turns. `WorkflowRows.dfy` and
  `WorkflowSafety.dfy` prove one invariant of every interleaving; `WorkflowResults.dfy`,
  `WorkflowInFull.dfy`, `WorkflowOverlap.dfy`, `WorkflowSplit.dfy`, `WorkflowRerun.dfy`,
  `WorkflowCrash.dfy`, `WorkflowMessages.dfy` and `WorkflowRestore.dfy` draw the conclusions.
  `Agents.dfy` has the loops as they are written, over the memory store, proved to do what the
  machine does when nobody interferes.
- `Ingest.dfy` and `IngestSafety.dfy` treat pushes and manual requests as calls that take turns;
  `Sync.dfy` and `SyncResults.dfy` the undisturbed call, its retry loop and the cursor;
  `Intake.dfy` what is stored of a record or a request body; `DrivingMode.dfy` and `DrivingFlag.dfy` the
  hook that runs the workflow after a push.
- `HubModel.dfy` is the hub as a machine over lock sections and channel operations, `Hub.dfy` the same on
  shared session objects, `Framing.dfy` the polling bodies, `Worker.dfy` the queue consumer.

Identifiers drawn by `newID` and `randomID` are taken to be fresh. A SHA-256 sum is any text of 64
characters. The upstream service is a sequence of answers that may be errors. What a synchronization run
fetched, the time it looks back to and what other goroutines send meanwhile are parameters.

## Where the code does not do what one might expect

- A push that was answered without an error may have created nothing: the fingerprint stays reserved after
  a failed creation, so a retry is told "duplicate" with an empty identifier
  (`SyncResults.SuccessWithoutEvent`; exactly when: `SyncResults.SuccessHasEvent`,
  `IngestSafety.AnswersNameEvents`).
- Two runs on one event can leave two sets of rows, because the check and the first insert are separate
  (`WorkflowSplit.ConcurrentRunsCanSplit`; exactly when: `WorkflowSplit.SplitsExactlyOnOverlap`; never
  without an overlap: `WorkflowOverlap.WithoutOverlapOneSet`).
- A run that was past the check marks an event as being processed that another run has finished meanwhile
  (`WorkflowCrash.FinishedEventSetBack`; exactly when: `WorkflowResults.EventStepsBackExactly`; never
  without an overlap: `WorkflowOverlap.WithoutOverlapEventClimbs`).
- Running the workflow again after a crash finishes the round only if the crash came before the first task
  was stored; otherwise it brings back messages and at most a summary (`WorkflowCrash.CrashStrands`;
  exactly when: `WorkflowCrash.RerunFinishesExactly`).
- A query may be sent about another address, or as another query, when an address is not a dotted quad or
  contains a keyword (`Planning.PlanKeepsMeaning`, `Planning.UnreadableSourceIsMisdirected`).
- With a retry limit below one every new record is saved as FAILED with no attempt and counted as pushed
  (`SyncResults.ReportIsHonest`).
- A record whose event identifier spells out the marked key of another, which has none, is taken for it and
  skipped (`SyncResults.SameRecordExact`, `SyncResults.SkippedExactly`).
- A removed session whose goroutine still holds it can join a room (`HubModel.GhostMember`; the guard that
  is missing: `HubModel.JoinKeepsAllLive`, `HubModel.RoomsHoldLiveSessions`).
- Creating a user with an identifier that is taken breaks the lookup by the first name
  (`Users.ReusedIdentifier`; exactly when: `Users.CreateKeepsInverse`).

## Model

| member | source | states |
|---|---|---|
| IpText.IpFromTextExact | internal/service/agents.go:446-455 | reading a text returns an address exactly when it is the leftmost maximal run of digits and dots that is a dotted quad (RFC 3986, section 3.2.2), and nothing exactly when no such run exists |
| IpText.QuadPrinted | internal/service/agents.go:450-450 | a token is a dotted quad exactly when it is four octets printed in decimal and joined by dots |
| IpText.QuadIsPrinted | internal/service/agents.go:450-450 | every dotted quad is the print of four octets |
| IpText.PrintedIsQuad | internal/service/agents.go:450-450 | the print of any four octets is a dotted quad |
| IpText.ScanFinds | internal/service/agents.go:446-455 | a token the scan returns is a maximal run with no earlier quad |
| IpText.ScanMissesNothing | internal/service/agents.go:446-455 | when the scan returns nothing no maximal run is a quad |
| IpText.FieldsOfConcat | internal/service/agents.go:447-449 | the tokens of two texts that do not touch in a token are the tokens of both, in order |
| IpText.IpFromFramedText | internal/service/agents.go:446-455 | a text framed by words without digits or dots reads back as the text alone |
| IpText.PrintThenRead | internal/service/agents.go:446-455 | any four octets printed into a text whose neighbouring characters are neither digits nor dots, after text with no address, are read back unchanged |
| IpText.IpCharExact | internal/service/agents.go:447-449 | a token is made of the ten digits and the dot |
| Planning.PlanShape | internal/service/agents.go:216-254 | one to three plans, one exactly when no address is found; a destination implies a source; each plan is the query intended, by name |
| Planning.ObservableIsIp | internal/service/agents.go:421-444 | a role lookup that finds an address implies that the general lookup finds one |
| Planning.StageOfName | internal/service/agents.go:272-284 | a task or action name dispatches to its own query, unless the address text itself contains an earlier keyword |
| Planning.ActionOfQuery | internal/service/agents.go:272-284 | a planned task name becomes the action name of the query it claims, around the same address text |
| Planning.CommandOfAction | internal/service/agents.go:298-342 | the action name becomes the playbook of that query with the address read back out of the name |
| Planning.FallbackCommand | internal/service/agents.go:245-252 | the fallback plan becomes the asset playbook with an empty address, not the manual branch |
| Planning.PlansCompile | internal/service/agents.go:216-342 | every planned task becomes a playbook command, so the manual branches are unreachable, for arbitrary address texts |
| Planning.PlanKeepsMeaning | internal/service/agents.go:216-342 | a plan becomes exactly the playbook and address intended if and only if its address text holds no earlier keyword and is a dotted quad (or is the event's own fallback address) |
| Planning.CanonicalAddressesSurvive | internal/service/agents.go:216-342 | canonical IPv4 source and destination: every plan becomes its own playbook about exactly its address |
| Planning.UnreadableSourceIsMisdirected | internal/service/agents.go:298-302 | a source that is not readable as a quad, listed after a destination, has its reputation query sent about the destination |
| Planning.Ipv6SourceExample | internal/service/agents.go:446-455 | the IPv6 text `ff::a` is such a source |
| Planning.RoleExact | internal/service/agents.go:421-430 | the lookup of a role answers with the first observable of type `ip` in that role that has a value, letter case aside, and with nothing exactly when there is none |
| Planning.SourceExact | internal/service/agents.go:216-221 | an event's source is the first address in the role `source`, else the first address of all, else the first one read out of message, context, title and name, in this order |
| Planning.DestinationExact | internal/service/agents.go:218-218 | its destination is the first address in the first of `destination`, `target`, `victim`, `dst` that has one |
| Lookups.PlansAreExpected | internal/service/agents.go:216-254 | the tasks planned for any event are, field by field and in order, the written-out ones: reputation and location of the source, assets of a different destination, or one blind asset query |
| Lookups.StagesAreExpected | internal/service/agents.go:272-399 | with canonical addresses, or none, action names, playbook names, numbers, codes and parameters and the verdict come out as written down for each query |
| Lookups.VerdictsFitPlaybooks | internal/service/agents.go:298-399 | for every event and plan, whatever the texts, the command is one of three playbooks and the verdict is that playbook's own, by its number; it never asks for a person |
| Lookups.OthersGoToAPerson | internal/service/agents.go:280-399 | a name without any of the three words becomes a manual command, and its verdict asks for a person unless the name is the location playbook's |
| Lookups.PriorityWeighs | internal/service/agents.go:368-377 | a task is of high or low priority exactly for the listed severities, letter case and surrounding space aside, and of medium priority otherwise |
| Domain.NormalizeFromIdempotent | internal/domain/models.go:65-86 | normalizing a sender twice changes nothing, for any text |
| Domain.NormalizeIdempotent | internal/domain/models.go:101-119 | normalizing a message twice changes nothing and does not change whether it is internal |
| Domain.RolesAreNormal | internal/domain/models.go:65-86 | the names the services use for themselves are already normal |
| Domain.SenderExact | internal/domain/models.go:65-86 | for every sender text: which of the eight senders it names, all aliases listed, or else itself, trimmed |
| Domain.AgentsExact | internal/service/agents.go:148-156 | a text names an agent exactly when it is one of the listed names of the five roles, in any case |
| Domain.InternalExact | internal/domain/models.go:116-119 | a message is internal exactly when its kind, trimmed and in small letters, is `llm_request` or ends in `_llm_request` |
| StoreModel.SelectSound | internal/store/postgres.go:341-344 | a listed row is a row of the table that belongs to the event |
| StoreModel.SelectComplete | internal/store/postgres.go:341-344 | every row of the event is listed |
| StoreModel.VisibleComplete | internal/store/memory.go:272-285 | a message that is not internal is listed |
| StoreModel.VisibleSound | internal/store/memory.go:272-285 | a listed message is stored and not internal |
| StoreModel.StatusPatchTouchesStatus | internal/store/memory.go:223-248 | the patch the workflow makes changes the status and nothing else |
| StoreModel.SenderOf | internal/domain/models.go:88-114 | the sender type and category a message is stored with when it does not say: people, the assistant and the system are told apart from agents |
| StoreModel.MessageStored | internal/store/memory.go:250-285 | a stored message is listed for its event, as the last one, exactly when it is not meant for the model; no round means round 1 |
| StoreModel.PatchesTouch | internal/store/memory.go:319-441 | each key of a task, action or command patch touches the field it names and no other |
| MemoryStores.IndexedAppend | internal/store/memory.go:293-317 | appending to an event's slice under the next counter value is appending one row to the table; every listing stays the filter of the table and row numbers stay 1..n |
| MemoryStores.IndexedUpdate | internal/store/memory.go:319-339 | changing a row inside an event's slice changes exactly that row of the table |
| MemoryStores.SelectUpdate | internal/store/memory.go:319-339 | a change at a place of the listing is a change at the row number there |
| MemoryStores.SelectOther | internal/store/memory.go:319-339 | it leaves every other event's listing alone |
| MemoryStores.IndexedCovers | internal/store/memory.go:319-339 | a scan over all slices sees every row of the table |
| MemoryStores.SelectIncreasing | internal/store/memory.go:272-285 | a listing has increasing row numbers |
| MemoryStores.SortedOnce | internal/store/memory.go:284-284 | sorting a listing by row number gives it back unchanged |
| MemoryStores.ShownIsVisible | internal/store/memory.go:272-285 | normalizing and filtering stored messages hands out the stored ones unchanged, without the internal ones |
| MemoryStores.SortByID | internal/store/memory.go:284-284 | the result is sorted by row number and a permutation of what was there |
| MemoryStores.FilterInPlace | internal/store/memory.go:277-283 | the filter that writes into the slice it reads leaves exactly the normalized messages that are not internal, in order |
| MemoryStores.MemoryStore.constructor | internal/store/memory.go:42-74 | a new store is the empty tables |
| MemoryStores.MemoryStore.GetEvent | internal/store/memory.go:205-210 | the event, or not found |
| MemoryStores.MemoryStore.CreateEvent | internal/store/memory.go:175-203 | the table operation; refused exactly when the identifier is taken |
| MemoryStores.MemoryStore.UpdateEvent | internal/store/memory.go:223-248 | exactly the patched ones of name, message, context, severity and status change, of that event only; found exactly when it exists |
| MemoryStores.MemoryStore.AddMessage | internal/store/memory.go:250-270 | appends one normalized row to the message table; refused exactly when the event is missing |
| MemoryStores.MemoryStore.ListMessages | internal/store/memory.go:272-285 | the event's visible messages in row order; the store is untouched |
| MemoryStores.MemoryStore.AddTask | internal/store/memory.go:293-317 | appends one row to the task table with the next row number and a fresh identifier unless one is given; refused exactly when the event is missing |
| MemoryStores.MemoryStore.ListTasks | internal/store/memory.go:287-291 | the rows of the event, in row order |
| MemoryStores.MemoryStore.FindTask | internal/store/memory.go:319-339 | the scan in any map order finds a row with the identifier, or there is none in the table |
| MemoryStores.MemoryStore.UpdateTask | internal/store/memory.go:319-339 | whatever the map order exactly one row with the identifier changes, or none exists; with unique identifiers it is the table update |
| MemoryStores.MemoryStore.AddAction | internal/store/memory.go:341-365 | appends one row to the action table with the next row number and a fresh identifier unless one is given; refused exactly when the event is missing |
| MemoryStores.MemoryStore.ListActions | internal/store/memory.go:389-393 | the rows of the event, in row order |
| MemoryStores.MemoryStore.FindAction | internal/store/memory.go:367-387 | the scan in any map order finds a row with the identifier, or there is none in the table |
| MemoryStores.MemoryStore.UpdateAction | internal/store/memory.go:367-387 | whatever the map order exactly one row with the identifier changes, or none exists; with unique identifiers it is the table update |
| MemoryStores.MemoryStore.AddCommand | internal/store/memory.go:395-419 | appends one row to the command table with the next row number and a fresh identifier unless one is given; refused exactly when the event is missing |
| MemoryStores.MemoryStore.ListCommands | internal/store/memory.go:443-447 | the rows of the event, in row order |
| MemoryStores.MemoryStore.FindCommand | internal/store/memory.go:421-441 | the scan in any map order finds a row with the identifier, or there is none in the table |
| MemoryStores.MemoryStore.UpdateCommand | internal/store/memory.go:421-441 | whatever the map order exactly one row with the identifier changes, or none exists; with unique identifiers it is the table update |
| MemoryStores.MemoryStore.AddExecution | internal/store/memory.go:449-473 | appends one row to the execution table; refused exactly when the event is missing |
| MemoryStores.MemoryStore.ListExecutions | internal/store/memory.go:475-479 | the rows of the event, in row order |
| MemoryStores.MemoryStore.AddSummary | internal/store/memory.go:481-499 | appends one row to the summary table; refused exactly when the event is missing |
| MemoryStores.MemoryStore.ListSummaries | internal/store/memory.go:501-505 | the rows of the event, in row order |
| MemoryStores.MemoryStore.ReserveFingerprint | internal/store/memory.go:507-515 | succeeds exactly when the fingerprint is unknown, and then reserves it unbound |
| MemoryStores.MemoryStore.BindEventMap | internal/store/memory.go:517-528 | binds the fingerprint and touches nothing else |
| MemoryStores.MemoryStore.GetEventMap | internal/store/memory.go:530-535 | the binding, empty when unknown |
| MemoryStores.MemoryStore.GetCursor | internal/store/memory.go:537-544 | the saved cursor, empty when none |
| MemoryStores.MemoryStore.SaveCursor | internal/store/memory.go:546-551 | replaces that cursor only |
| MemoryStores.MemoryStore.AlreadyPushed | internal/store/memory.go:553-558 | whether the record was saved |
| MemoryStores.MemoryStore.SavePushedEvent | internal/store/memory.go:560-569 | saves that record only |
| Workflow.AdvanceMakesProgress | internal/service/agents.go:13-182 | every step of a run comes nearer to its end, so a run that is stepped ends |
| WorkflowRows.ChainStep | internal/service/agents.go:37-123 | a step keeps the chain of copies from plan to task to action to command to execution |
| WorkflowRows.TaskStep | internal/service/agents.go:35-129 | a step changes the task table by one remembered insert or by changing rows of its own run, and their statuses are told by the stage |
| WorkflowRows.ActionStep | internal/service/agents.go:57-126 | likewise for actions |
| WorkflowRows.CommandStep | internal/service/agents.go:77-123 | likewise for commands, whose result is that of their execution |
| WorkflowRows.ExecutionStep | internal/service/agents.go:101-123 | likewise for executions |
| WorkflowSafety.TurnKeepsInv | internal/service/agents.go:13-182 | a step of one run keeps the whole invariant, for its own rows and for those of all other runs |
| WorkflowSafety.NextKeepsInv | internal/service/agents.go:13-182 | so do launching a run, registering an event and storing a message |
| WorkflowSafety.ReachableInv | internal/service/agents.go:13-182 | the invariant holds after every interleaving of any number of runs over any events, crashed runs included |
| WorkflowResults.ReferencesNeverDangle | internal/service/agents.go:57-123 | in every reachable state each execution names an existing command, it an existing action, it an existing task; all agree on event, round and copied identifiers |
| WorkflowResults.EventClimbsTheLadder | internal/service/agents.go:33-145 | at every prefix, for an event that one run at most has written for, however many were launched: later kinds of rows only when the earlier kind is complete, paired by index; a completed action implies completed commands with their execution's result, a completed task completed actions, `round_finished` completed tasks and a summary |
| WorkflowResults.StatusesNeverStepBack | internal/service/agents.go:71-129 | no task, action or command row's status ever steps back, whatever else happens in between |
| WorkflowResults.EventStepsBackExactly | internal/service/agents.go:33-33 | a turn lowers an event's status exactly when the run is about to mark as being processed an event that is stored as finished |
| WorkflowOverlap.WithoutOverlapEventClimbs | internal/service/agents.go:33-143 | without an overlap of two runs on the event its status never steps back |
| WorkflowCrash.FinishedEventSetBack | internal/service/agents.go:22-33 | it happens: of two runs on any event there at the start, one finishes it and the other's next turn sets it back |
| WorkflowResults.FinishedRunIsWhole | internal/service/agents.go:35-123 | in every reachable state a finished run whose event no other run has written for has left one task, action, command and execution per plan, paired and completed: the task is the plan, the command what the text pipeline makes of it, the execution the verdict on that command |
| WorkflowResults.FinishedRunAsksWhatWasPlanned | internal/service/agents.go:216-342 | with canonical addresses each command of a finished run is the playbook its plan intended, about exactly its address |
| WorkflowInFull.ReachableRead | internal/service/agents.go:14-21 | in every reachable state what a run works on is the event as stored, up to its status, and the round it writes is the event's, 1 for none |
| WorkflowInFull.VerdictsFollowPlaybooks | internal/service/agents.go:101-123 | in every reachable state every stored execution of any run is completed and carries the verdict of its own playbook: `suspicious`, `informational` or `asset_context_required`, by the playbook's number |
| WorkflowInFull.RowsInFull | internal/service/agents.go:36-129 | in every reachable state, for an event with one writer, the listed tasks, actions, commands and executions are, field by field, what the stored event calls for: names, descriptions, assignees, priority, round, playbook, parameter, verdict |
| WorkflowInFull.FinishedInFull | internal/service/agents.go:36-145 | a finished run has left exactly one such row of each kind per query, all completed |
| WorkflowResults.Listed | internal/store/postgres.go:341-344 | when one run owns an event's rows, the listing is that run's rows in the order it inserted them |
| WorkflowMessages.FirstPassSpeaks | internal/service/agents.go:54-142 | an undisturbed first pass appends exactly five lines: captain, manager, operator, executor, expert, each with the rows of its stage |
| WorkflowMessages.SaysTheRest | internal/service/agents.go:54-142 | from any point of a first pass, what is stored until its end is what remained to be said |
| WorkflowMessages.StoredLine | internal/service/agents.go:184-200 | an agent message is stored with its sender, kind, content and round as given |
| WorkflowRestore.RestoreSpeaks | internal/service/agents.go:158-182 | over any event with rows whose agent messages are gone, one undisturbed run says exactly: each kind of rows listed, by identifier and in order, then the last summary or a new one |
| WorkflowRestore.RestoreSaysAll | internal/service/agents.go:158-182 | from any point of restoring, what is stored until its end is what was still owed |
| WorkflowRestore.FirstPassConcludes | internal/service/agents.go:131-142 | the five lines of a first pass are all about the event and of its round, and the last concludes on the event's name, identifier and round |
| WorkflowOverlap.WithoutOverlapOneWriter | internal/service/agents.go:22-38 | if no two runs on an event are ever between the check and the first insert together, no two of them ever write |
| WorkflowOverlap.WithoutOverlapOneSet | internal/service/agents.go:22-38 | then all tasks, actions, commands and executions of the event come from one run, however many were launched |
| WorkflowOverlap.WithoutOverlapLadder | internal/service/agents.go:33-145 | then the whole ladder holds of the event at every moment, as wide as its plans |
| WorkflowOverlap.WithoutOverlapFinishedRunIsWhole | internal/service/agents.go:35-123 | then every finished run has left a whole set of rows |
| WorkflowSplit.SplitsExactlyOnOverlap | internal/service/agents.go:22-38 | in every reachable state in which all runs on an event have read its tasks and at most one has written, some schedule of turns leaves tasks of two runs in the event's listing exactly when two of the runs are between the check and the first insert |
| WorkflowSplit.OverlapSplits | internal/service/agents.go:22-38 | from any good state with one writer at most, an overlap can be scheduled into two sets, whatever else is running or yet to start |
| WorkflowSplit.BothWrite | internal/service/agents.go:22-53 | two runs anywhere between the check and the first insert of an unwritten event both come to write |
| WorkflowSplit.TwoRunsOverlap | internal/service/agents.go:13-27 | two runs launched for any event there at the start do reach such an overlap |
| WorkflowSplit.ConcurrentRunsCanSplit | internal/service/agents.go:13-53 | so some schedule of two runs leaves any such event with two sets |
| WorkflowCrash.RerunFinishesExactly | internal/service/agents.go:22-32 | in every reachable state a new undisturbed run finishes the round exactly when no run before it, crashed or not, has stored a task for the event |
| WorkflowCrash.CrashStrands | internal/service/agents.go:22-54 | a single run that crashes after storing a task leaves the event unfinished, and so does running again; some schedule does it to any event there at the start |
| WorkflowRerun.OutcomeOfRun | internal/service/agents.go:14-32 | from any store a run finishes the round exactly when its event exists without tasks and executions, does nothing exactly when agent messages are visible too, and otherwise changes only messages and summaries |
| WorkflowRerun.RunningTwiceIsRunningOnce | internal/service/agents.go:22-32 | from every store, any crash prefix included, running twice equals running once |
| WorkflowRerun.RestoreEnds | internal/service/agents.go:158-182 | restoring ends with a visible agent message and only messages and at most a summary added |
| WorkflowRerun.FirstPassEnds | internal/service/agents.go:33-145 | a first pass ends finished, with tasks and a visible agent message |
| WorkflowRerun.RowIsAgentLine | internal/service/agents.go:148-156 | an agent message survives normalization and the list filter as an agent message |
| WorkflowRerun.AnnouncedIsSeen | internal/service/agents.go:148-156 | a stored agent message makes the re-entry check succeed |
| Agents.Services.RunAgentWorkflow | internal/service/agents.go:13-146 | the loops have exactly the effect of the step machine run to its end, from whatever the store holds; an error exactly when the event is missing; identifiers stay unique |
| Agents.Services.CreateTasks | internal/service/agents.go:36-53 | one task per plan, in order |
| Agents.Services.CreateActions | internal/service/agents.go:57-73 | one action per task, each task started after its action is stored |
| Agents.Services.CreateCommands | internal/service/agents.go:77-97 | one command per action, each action started after its command is stored |
| Agents.Services.CreateExecutions | internal/service/agents.go:101-123 | one execution per command, each command completed with its execution's result |
| Agents.Services.CompleteActions | internal/service/agents.go:124-126 | every action is completed, in order |
| Agents.Services.CompleteTasks | internal/service/agents.go:127-129 | every task is completed, in order |
| Agents.Services.AddAgentMessage | internal/service/agents.go:184-200 | one message step of the run; a failure is ignored |
| Agents.Services.RestoreAgentWorkflowMessages | internal/service/agents.go:158-182 | the re-entry path of the step machine to its end |
| Agents.HasAgentWorkflowMessages | internal/service/agents.go:148-156 | true exactly when some message is from an agent after normalization |
| Agents.StaysOnTrack | internal/service/agents.go:13-182 | doing what the step machine does next leads to the same end and keeps row identifiers unique |
| Agents.ReachableIsWellKeyed | internal/service/agents.go:13-146 | in every reachable store task, action and command identifiers are unique, so `RunAgentWorkflow` may be called |
| Ingest.PayloadAddresses | internal/service/event_mapping.go:42-81 | the event made of a record has the record's source and target as its source and destination |
| Ingest.RecordAddressesReachPlaybooks | internal/service/event_mapping.go:42-81 | canonical addresses of a pushed record are exactly what the playbooks planned for its event are run with |
| Intake.PushStores | internal/service/services.go:43-76 | a record pushed with no upstream leaves exactly its event, with every field told from the record, its binding and one announcement |
| Intake.SeverityGrades | internal/service/event_mapping.go:12-17 | how the level of a record is graded |
| Intake.UpstreamNamesTheEvent | internal/service/services.go:44-60 | an accepted push answers with, and binds, the text at `event_id`, else at `id`, else at the same keys of `data`, and nothing exactly when all are empty |
| Intake.RequestStores | internal/service/services.go:130-172 | a request leaves exactly its event, key by key with the fallbacks, and one announcement; without a message nothing |
| Intake.ObservablesDecoded | internal/service/services.go:150-156 | each object among the observables, in order, gives type, value and role from its own keys; nothing else is decoded |
| Intake.RequestAddressesReachPlaybooks | internal/service/services.go:150-156 | the canonical source and destination a request names are exactly what the playbooks of its event are run with |
| Json.TextReads | internal/service/services.go:205-216 | a missing key reads as the empty text, truth values as `true` and `false` |
| Ingest.RequestIsComplete | internal/service/services.go:130-156 | the event made of a request body is stored as it is, apart from its number, its round and a drawn identifier when the body names none |
| IngestSafety.ReachableInv | internal/service/services.go:23-172 | the invariant of deduplication holds after every interleaving of pushes, manual requests and workflow steps, crashes included |
| IngestSafety.TriedAtMostOnce | internal/service/services.go:26-56 | per fingerprint at most one event is created or forwarded, and at most one push is not told "duplicate" |
| IngestSafety.BindingsNameEvents | internal/service/services.go:53-60 | without an upstream every non-empty binding names an existing event |
| IngestSafety.BindingsAreOneToOne | internal/service/services.go:53-60 | without an upstream no two fingerprints are bound to one event |
| IngestSafety.AnswersNameEvents | internal/service/services.go:23-76 | without an upstream a call that returned no error names an existing event exactly when it names any; the exception is a duplicate of a reserved, unbound fingerprint |
| IngestSafety.TurnKeepsTried | internal/service/services.go:26-59 | one turn of a call keeps the at-most-once accounting |
| IngestSafety.TurnKeepsBindings | internal/service/services.go:44-60 | one turn keeps every binding the answer of a call for that fingerprint |
| IngestSafety.TurnKeepsEvents | internal/service/services.go:56-60 | one turn keeps created events distinct and existing |
| Sync.ProcessEnds | internal/service/services.go:23-76 | the ends an undisturbed push can come to, with the whole new store |
| Sync.RequestEnds | internal/service/services.go:130-172 | the ends an undisturbed manual request can come to, with the whole new store |
| Sync.RetryEnds | internal/service/services.go:104-116 | the retry loop makes one attempt, or two when the first fails; the second is always told "duplicate" and counts as a success with no event |
| Sync.Services.ProcessLyEvent | internal/service/services.go:23-76 | the method is the call of the interleaving model taken to its end |
| Sync.Services.CreateEventFromRequest | internal/service/services.go:130-172 | the method decodes the body, with its fallbacks, and is then the manual call of the interleaving model taken to its end |
| Sync.Services.DecodeObservables | internal/service/services.go:150-156 | exactly the objects among the observables, in order |
| Sync.Services.PushWithRetries | internal/service/services.go:104-116 | the loop is the retry function |
| Sync.Services.RunSyncOnce | internal/service/services.go:78-128 | the loop over the fetched items is the batch function; the cursor is saved only after a fetch that succeeded |
| SyncResults.TriedOnceEver | internal/service/services.go:96-123 | over any sequence of runs each record enters the retry loop at most once, and its saved record never changes afterwards |
| SyncResults.RecordedByItsRun | internal/service/services.go:104-123 | a record is forever what the run that tried it saved, with 1 to min(2, that run's limit) attempts |
| SyncResults.BatchKeeps | internal/service/services.go:91-124 | over a batch the saved records are exactly the new ones, with 1 to min(2, maxRetries) attempts, and the counters count them |
| SyncResults.ReportIsHonest | internal/service/services.go:89-127 | fetched = pushed + failed + skipped; pushed is the number of SUCCESS records exactly when maxRetries is at least 1 or nothing was new; with two attempts nothing counts as failed |
| SyncResults.EveryItemCounted | internal/service/services.go:91-124 | every item is pushed, failed or skipped |
| SyncResults.NothingFailsTwice | internal/service/services.go:104-122 | with maxRetries of at least 2 failed stays 0 |
| SyncResults.RunMovesCursor | internal/service/services.go:79-95 | after a run the cursor is the greatest of its start and all non-empty times; a failed fetch changes nothing |
| SyncResults.CursorNeverGoesBack | internal/service/services.go:79-125 | over any sequence of runs the cursor never goes back in byte order |
| SyncResults.SuccessHasEvent | internal/service/services.go:106-112 | for every retry limit: when a record is saved as SUCCESS, and whether it then has an event, is decided before the call by the binding of a known fingerprint, else by whether the identifier is free |
| SyncResults.ReachableBindings | internal/service/services.go:53-60 | what that needs of the store holds in every state the interleavings reach |
| SyncResults.SuccessWithoutEvent | internal/service/services.go:26-59 | a taken identifier: the first attempt fails after reserving, the second succeeds as a duplicate, and nothing was created |
| SyncResults.SameRecordExact | internal/service/services.go:96-103 | two records share one identity exactly when their event identifiers agree, their keys agree without identifiers, or one's identifier spells out the other's marked key |
| SyncResults.SkippedExactly | internal/service/services.go:91-124 | an item of a batch is skipped exactly when it was saved before or an earlier item is the same record; any other is saved under its own identifier, or `noid:` and its key, with its key |
| SyncResults.KnownExactly | internal/service/services.go:96-103 | over any runs a record counts as known exactly when it was at the start or was fetched before, whatever became of it |
| SyncResults.OneCursor | internal/service/services.go:79-125 | a run saves the cursor `flowshadow_events` and no other |
| DrivingMode.ResponseNames | internal/httpapi/driving_mode_hooks.go:155-167 | the response to a push names the bound event, or else what the upstream reply named |
| DrivingMode.OneEventOneBinding | internal/httpapi/driving_mode_hooks.go:79-116 | any series of pushes of one fingerprint, with any paths and bodies and flag changes, creates at most one event, one binding and forwards at most once |
| DrivingMode.KnownStaysPut | internal/httpapi/driving_mode_hooks.go:79-116 | once the fingerprint is known pushes create, bind and forward nothing more |
| DrivingMode.OneSetOfRows | internal/httpapi/driving_mode_hooks.go:79-116 | in any series of pushes of any records each driven event gets at most one set of tasks, actions, commands and executions |
| DrivingMode.SettledForGood | internal/httpapi/driving_mode_hooks.go:79-116 | once the fingerprint is known and the workflow of what each request resolves to has run, no further push changes the store |
| DrivingMode.DrivenOnceIsSettled | internal/httpapi/driving_mode_hooks.go:79-116 | the first push that drives the workflow, of a new, bound or only reserved fingerprint, settles it: all later pushes that resolve to the same event leave the store as it is |
| DrivingMode.AgreeingResolve | internal/httpapi/driving_mode_hooks.go:88-104 | which later pushes resolve to the same event is told beforehand: all of them once bound or, without an upstream, when new; else those whose bodies name the same event |
| DrivingMode.KnownDriven | internal/httpapi/driving_mode_hooks.go:88-104 | a duplicate drives the bound event or, unbound, what the body names, exactly when the flag or the request asks for it |
| DrivingFlag.PushDrivesExactly | internal/httpapi/driving_mode_hooks.go:79-116 | every push in full: the workflow runs on the event meant, and the flag ends on, exactly when the flag was on or the request wants it; store and flag are the push's own otherwise |
| DrivingFlag.WantsExactly | internal/httpapi/driving_mode_hooks.go:199-240 | a request wants automation exactly when the first of seven keys with a readable value holds true, or none is readable and the path is one of two |
| DrivingFlag.NamesExactly | internal/httpapi/driving_mode_hooks.go:242-263 | an object names the text at the first of seven keys that holds one, or else what its upstream part names |
| DrivingFlag.SomethingMeant | internal/httpapi/driving_mode_hooks.go:88-92 | every push that did not fail means an event or none: the bound one, else the reply's, else the body's |
| DrivingFlag.AnswerSays | internal/service/services.go:26-76 | what a push answers, key by key, for a duplicate and for a new record |
| Users.AlwaysPointBack | internal/store/memory.go:76-173 | over every run each stored user is under its own identifier and its name leads back to it |
| Users.CreateKeepsInverse | internal/store/memory.go:76-99 | creating keeps the two maps inverse to each other exactly when the name is taken or the identifier is new |
| Users.ReusedIdentifier | internal/store/memory.go:76-99 | two users with one identifier: the first name then leads to the second user |
| Users.RunMatchesTable | internal/store/schema.go:4-7 | over every run that reuses no identifier the maps are exactly a table with unique identifiers and unique names |
| Users.LookupsAgree | internal/store/memory.go:101-117 | in matching maps every lookup answers from the table |
| Users.RowsAreUnique | internal/store/schema.go:4-7 | identifiers and names of the table are unique |
| Users.ListingIsTable | internal/store/memory.go:119-128 | a listing sorted by row number is the table in insertion order |
| Users.UserStore.CreateUser | internal/store/memory.go:76-99 | the specified new maps; refused exactly when the name is taken |
| Users.UserStore.UpdateUser | internal/store/memory.go:130-161 | only that user changes, never its name or identifier |
| Users.UserStore.DeleteUser | internal/store/memory.go:163-173 | the user and its name are gone, nothing else |
| Users.UserStore.GetUserByUsername | internal/store/memory.go:101-110 | the lookup through both maps |
| Users.UserStore.GetUser | internal/store/memory.go:112-117 | the lookup by identifier |
| Users.UserStore.ListUsers | internal/store/memory.go:119-128 | exactly the stored users, sorted by row number, whatever the map order |
| Framing.FramingRoundTrip | internal/socketio/hub.go:94-98 | a joined list of packets reaches the handler as the same list exactly when each is non-empty, trimmed and free of the separator |
| Framing.FramesAreClean | internal/socketio/hub.go:94-98 | whatever the body, the handler sees only non-empty, trimmed packets without separators |
| Strings.SplitJoin | internal/socketio/hub.go:96-108 | splitting a joined list gives the list back when no part holds the separator |
| Strings.JoinSplit | internal/socketio/hub.go:96-108 | joining a split text gives the text back |
| Strings.TrimSpaceTrims | internal/socketio/hub.go:97-97 | trimming yields a trimmed text and keeps exactly the trimmed ones |
| Strings.TrimSpaceCutsSpaces | internal/socketio/hub.go:97-97 | trimming cuts off nothing but spaces |
| Strings.SpacesByCode | internal/socketio/hub.go:97-97 | which characters are spaces, by code point |
| Strings.LetterCase | internal/service/agents.go:424-424 | which characters read as a given letter in lower-casing and in case-insensitive comparison |
| Strings.LessExact | internal/service/services.go:93-93 | texts are ordered by the first character in which they differ |
| Strings.ReplaceFirstExact | internal/service/agents.go:272-284 | replacing touches the first occurrence only and keeps what surrounds it |
| Strings.FirstNonEmptyExact | internal/service/services.go:218-225 | the first text that is not empty, and empty exactly when all are |
| HubModel.IndexAlwaysOk | internal/socketio/hub.go:306-348 | over every interleaving a member of a room has flagged it, and for live sessions the two agree |
| HubModel.NextKeepsIndex | internal/socketio/hub.go:306-348 | every step keeps that |
| HubModel.RemovedFromEveryRoom | internal/socketio/hub.go:320-331 | removing a live session leaves it in no room and changes nobody else's membership |
| HubModel.BroadcastReaches | internal/socketio/hub.go:281-291 | a broadcast is offered to exactly the live sessions that flagged the room and to those that joined after removal |
| HubModel.RoomsHoldLiveSessions | internal/socketio/hub.go:333-341 | over a whole schedule everyone in a room is live at every moment exactly when no session joins after it was removed |
| HubModel.NextKeepsAllLive | internal/socketio/hub.go:306-348 | a step keeps everyone in a room live exactly when it is not a join of a removed session |
| HubModel.JoinKeepsAllLive | internal/socketio/hub.go:333-341 | joining keeps it exactly when the session is live or was never made |
| HubModel.GhostMember | internal/socketio/hub.go:150-161 | a removed session can join: a schedule that does it |
| HubModel.AlwaysDelivers | internal/socketio/hub.go:350-374 | over every interleaving what was drained, followed by what waits, is what was accepted, in order; a packet is dropped only when 256 wait |
| HubModel.LostExactly | internal/socketio/hub.go:350-355 | a packet is lost exactly when 256 are waiting |
| SocketHub.Session.Enqueue | internal/socketio/hub.go:350-355 | the channel takes the packet unless 256 wait |
| SocketHub.Session.DrainPackets | internal/socketio/hub.go:357-374 | at most 16 packets, the oldest first, whatever is sent meanwhile; fewer only when the channel ran empty |
| SocketHub.Hub.NewSession | internal/socketio/hub.go:306-312 | one new live session without rooms |
| SocketHub.Hub.GetSession | internal/socketio/hub.go:314-318 | found exactly when live |
| SocketHub.Hub.JoinRoom | internal/socketio/hub.go:333-341 | the joining step, in both indexes |
| SocketHub.Hub.LeaveRoom | internal/socketio/hub.go:343-348 | the leaving step, in both indexes |
| SocketHub.Hub.RemoveSession | internal/socketio/hub.go:320-331 | the removing step, in any order of rooms |
| SocketHub.Hub.Broadcast | internal/socketio/hub.go:281-291 | the packet is offered to every member, in any order, and to nobody else |
| Worker.HandledExactly | internal/worker/rabbit_worker.go:93-128 | a delivery changes the store exactly when it is about an existing event and neither a notification nor an event announcement; it is put back exactly when unreadable or about a missing event |
| Worker.RecordedSays | internal/worker/rabbit_worker.go:93-128 | what a recorded delivery adds: one message about its event from its normalized source; any other adds nothing |
| Worker.RedeliveryChangesNothing | internal/worker/rabbit_worker.go:75-91 | however often and in whatever order what the services published is redelivered, the store stays and every delivery is acknowledged |
| Worker.EventWorker.HandleEventMessage | internal/worker/rabbit_worker.go:93-128 | the handler is that function |

## Left out

- Agents.Services.RunAgentWorkflow: requires that stored task, action and command identifiers are unique. They are in every reachable store (`Agents.ReachableIsWellKeyed`), since the workflow is the only caller that adds or updates such rows; over a store filled otherwise with repeated identifiers, which row an update changes depends on Go's map order, and `MemoryStores.MemoryStore.UpdateTask` states what still holds.
- WorkflowSplit.SplitsExactlyOnOverlap: is about the runs that have read the event's tasks; runs yet to read them can always come to overlap (`WorkflowSplit.TwoRunsOverlap`).
- WorkflowResults.EventClimbsTheLadder: when overlapping runs did write two sets for an event, the listing mixes them; each run's own rows then still climb (`WorkflowSafety.ReachableInv`).
- MemoryStores.MemoryStore.UpdateTask: the PostgreSQL back end also overwrites `task_assignee` on an update where the memory store does not; only the memory store is modelled.
- MemoryStores.SortByID: `sort.Slice` is modelled by an insertion sort with the same promise.
- SocketHub.Session.DrainPackets: requires what `HubModel.AlwaysDelivers` proves of every channel; the wait for the deadline is a channel that stays empty.
- Ingest.PayloadAddresses: the fingerprint is a field of the record, so records with equal fields may differ in it; how it is computed from the fields is left out.
- IngestSafety.TriedAtMostOnce: the step of one call that creates or forwards is atomic; a crash of the upstream during it is an error answer.
- Timestamps, row creation times and the ordering of events by time (`ListEvents`).
- JSON encoding: bodies and message contents are values that keep identifiers and parameters, not their wording; the announcement of an event does not repeat its name.
- The chat fields of messages (user nickname, temporary identifiers), audit logs, login and tokens.
- `Emit`, which offers a packet to every live session rather than to a room.
- Broadcasting to the hub from inside the services, and the copy of each packet written to a websocket.
- The decoding of Socket.IO events and the texts the hub answers with; ping tickers and upgrades.
- The PostgreSQL store, its schema migrations, AMQP sessions and topic matching, HTTP routing and CORS.
- The schema-driven autopilot and its inserts; only the stored flag matters here, and reading it never fails without a database.
- Language-model calls, prompts, the FlowShadow and DeepSOC clients beyond their answers.
