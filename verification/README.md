# Verified model of the run-state engine

This project models the state engine of the agent host (`internal/state`), the loop on top of it
(`internal/loop`) and the latest-result reducer (`modules/mcp-tool-state/module.c`), and proves what
they promise: what every operation keeps, what holds over whole runs, and what an observer may rely
on. Language models, tools, state modules, HTTP and the moment of cancellation are arbitrary: every
method that meets one of them takes whatever answer comes.

The parts, each with the modules that hold it:

- **Latest-result reducer.** `JsonGrammar` is the grammar of RFC 8259 (sections 2 to 7, without UTF-8
  validity) as derivations; `JsonParser` the recursive descent; `JsonParserProofs` that it accepts
  exactly the grammar; `TokenTable`, `ParserSteps` and `TokenCursors` the preorder token table;
  `ReducerSpec` the reducer on derivations with its theorems in `ReducerProofs` and, on names that do
  not decode, `ReducerNames`; `ReducerReplies` that it takes what it wrote; `Spellings` the ways to
  spell a string and a number; `ToolReducer` the
  class with the static buffers, whose methods parse, look up and write in place and are proved
  against the specification.
- **Run state.** `TaskTree` holds the tree of task records and the active stack; `RunState` the whole
  state with its journal and the invariant; `RunSteps` single steps; `Transitions` the operations and
  their runs; `Runs` the theorems over runs; `Broadcasts` one event offered to every module;
  `Answers` what an answer comes to, told by the answer alone; `Isolation` what modules can do to each
  other; `Attempts` what an attempt says; `DrainSpec` what draining host work means; `Store`
  (module `Stores`) the class whose methods follow the source's, each proved against those steps.
  `Evidence` and `Plans` are partitions, references and versioned plans; `PlanProgress` is what an
  accepted plan can be told next.
- **Plan algebra.** `PlanPatch` (atomic patches), `PatchLaws` (what a patch says and can say), `PlanIntent` (what a revision must keep),
  `Reconciliations` (accounting and proposed deltas), `ReconciledProgress` (supported progress is taken),
  `Verdicts` (what must precede a claim) and
  `Planning` (acceptance, planning operations and the bounded reconciliation loop).
- **Tool loop.** `ToolTurns` is what a batch, a turn and a history of turns are, with the bounds and
  the gate as lemmas; `ToolLoop` the class whose methods run calls, batches, turns and the loop
  against any actor.
- **Knowledge projection.** `ProjectionSpec` (coverage and pointers, RFC 6901 sections 3 and 4),
  `ProjectionGroup` (one source's queue), `Projection` (sources, shares, inventory),
  `ProjectionRounds` (selection), `ProjectionWhole` (the projection and its theorems),
  `ProjectionCoverage` (what a projection that is not truncated represents), `ProjectionFull` (what has
  room is listed, filled and selected).

A run is a list of operations (`Transitions.Op`) that begins in an initial state and in which each
operation is enabled in the state the ones before it lead to (`Transitions.Run`). Operations are what
the store commits at once: a task pushed, a mutation applied, a batch queued, a proposal judged and
revised. Nothing is assumed of the states in between: that each operation keeps the invariant is
`Transitions.OpSteps`, and the theorems of `Runs` follow by induction. A store carries the list of the
operations that led to its state as a ghost field, its class invariant says that they do lead there,
and every method ensures that the list only grew. So the theorems hold of any sequence of calls,
also of calls interrupted halfway. The planner and the tool loop
add that no revision goes past the planner (`Transitions.Judicious`), which the theorems on verdicts
need; their store is that of a run without bare revisions at all times.

How the model speaks of the source:

- A task is identified by its number in the run (the N of `run/task/N`); 0 is no task. Journal entries
  carry what the proofs need of their data.
- A context is either live, and may turn out cancelled at any check, or detached, and never is.
  Validation of task states fails only when interrupted: a well-formed task state is assumed to meet
  its schema. Likewise the planning schema is assumed to let `plan_updates` carry neither steps nor
  revision.
- What the loop reads off a response besides its calls (usable, speaking, printed markup) and what the
  runtime and the planning decoder find of the calls are given with the response (`ToolTurns.Response`).
- Patch application and schema validation are library code: a mutation is arbitrarily rejected, off
  schema, or a value that fits. Lengths of encodings are arbitrary functions.
- JSON objects are sequences of members in key order, so that equal objects are equal values; empty
  and missing lists are one thing, as after canonicalization.

What the proofs turned up about the source:

- The limit of 32 planning rejections in `internal/loop/tools.go:112-116` is never reached: after at
  most eleven the correction limit ends the operation (`ToolTurns.LoopOk`, `ToolProvider.TakeTurn`).
- `docs/general-state.md:740` speaks of ten reconciliation attempts; the code allows 32
  (`internal/loop/reconciliation.go:26`), and so does the model.
- `docs/general-state.md:137` says that a satisfied plan is preserved like a satisfied step; the code
  lets it reopen when new open steps are added (`internal/state/plan.go:127-148`), and only then
  (`Plans.PreservedExactly`; `Plans.ReopeningAccepted` is a case). What is preserved through a renewal
  is the completed steps (`Runs.HistoryKept`).
- A partition is not quite isolated from the other modules: a progress record may name a task that
  another answer to the same event has just created. `Isolation.ProgressOnNewTask` shows it, and
  `Isolation.IsolatedExactly` says for exactly which answers isolation holds.
- A preferred reference with an escape other than `~0` and `~1` is projected but does not resolve as
  evidence (`ProjectionSpec.LenientOnly`; `ProjectionWhole.EntriesResolve` says exactly which entries do).
- A server below `sources` that is an empty object yields no source, so a projection can leave it out
  and still not call itself truncated (`ProjectionCoverage.EmptyServer`). It is the only thing that can
  be missing then (`ProjectionCoverage.UntruncatedExactly`).
- Taken alone, the reducer stores a result under a name that does not decode, such as half a surrogate
  pair, and from then on events from other sources are errors (`ReducerNames.HalfPairBlocks`). Nothing
  that is stored is lost (`ReducerProofs.SequencesOnlyRise`). The host never sends such a name: it
  encodes Go strings, which cannot hold half a pair.
- Comparing step ids joined by zero bytes is exact for ids without such bytes
  (`PlanIntent.JoinIsExact`) and not for others (`PlanIntent.JoinCollides`).

## Model

| member | source | states |
|---|---|---|
| JsonParserProofs.AcceptsExactlyJson | modules/mcp-tool-state/module.c:21-54 | the parser accepts a text, with a derivation, exactly when that derivation is one of the text by the JSON grammar and is within 256 levels and 262144 tokens; no text has two |
| JsonParserProofs.CharsComplete | modules/mcp-tool-state/module.c:23-31 | scanning a string finds the end of every sequence of JSON characters |
| ToolReducer.Reducer.ScanString | modules/mcp-tool-state/module.c:23-31 | in bounds, ends where the grammar ends a string, and is bad on anything else |
| ToolReducer.Reducer.ScanNumber | modules/mcp-tool-state/module.c:34-40 | accepts exactly the numbers of the grammar, in place |
| ToolReducer.Reducer.Parse | modules/mcp-tool-state/module.c:41-54 | terminates in bounds; succeeds exactly when the grammar does, and then the token table has grown by the preorder layout of the derivation, with spans and links past each subtree |
| ToolReducer.Reducer.ParseContainer | modules/mcp-tool-state/module.c:44-51 | the loop over entries: the same for what follows an opening bracket |
| TokenCursors.LayoutAt | modules/mcp-tool-state/module.c:53-54 | the tokens of entry i are a contiguous part of the table at the place the links lead to |
| TokenCursors.EntryCursor | modules/mcp-tool-state/module.c:89-94 | from an object token the loop over links meets exactly the keys of the object, each followed by its value |
| ToolReducer.Reducer.ReadUnit | modules/mcp-tool-state/module.c:56-75 | decodes one code point: escapes, surrogate pairs and UTF-8, malformed ones bad |
| ToolReducer.Reducer.SameString | modules/mcp-tool-state/module.c:77-81 | compares two strings as decoded text up to the first difference |
| ReducerProofs.CompareIsEquality | modules/mcp-tool-state/module.c:76-86 | on strings that decode, the comparison is equality of the decoded texts |
| ToolReducer.Reducer.Field | modules/mcp-tool-state/module.c:87-91 | the value of the only key with that name; a second one, or one that cannot be compared, is bad |
| ToolReducer.Reducer.LookupKey | modules/mcp-tool-state/module.c:92-96 | the same for a key that is spelled by another token |
| ToolReducer.Reducer.SequenceOf | modules/mcp-tool-state/module.c:97-101 | the number, exactly when the value is a plain decimal below 2^64 |
| ToolReducer.Reducer.CurrentOk | modules/mcp-tool-state/module.c:106-117 | the state is accepted exactly when it holds sources of tools of valid results and nothing else |
| ToolReducer.Reducer.Append | modules/mcp-tool-state/module.c:118 | the output grows by the text, or is bad if it would be full |
| ToolReducer.Reducer.WriteTools | modules/mcp-tool-state/module.c:125-132 | the written text is that of the map with the tool replaced in place, or added at its end |
| ToolReducer.Reducer.WriteMutation | modules/mcp-tool-state/module.c:146-152 | the output is the text of the reply, or bad if it does not fit |
| ToolReducer.Reducer.ReduceTable | modules/mcp-tool-state/module.c:137-153 | the same decision as the reducer on derivations, for every branch |
| ToolReducer.Reducer.Process | modules/mcp-tool-state/module.c:133-153 | the reply to any input is a function of the input alone, whatever ran before |
| ReducerReplies.StateIsTaken | modules/mcp-tool-state/module.c:106-117 | the state of every mutation is one that the reducer accepts, whatever it was made from |
| ReducerReplies.EventsAreTaken | modules/mcp-tool-state/module.c:137-152 | for a well-formed input with such a state and an applicable event with valid parts, given by their members: the reply is a mutation if nothing is stored there or a lower sequence is, and the event is ignored otherwise |
| ReducerReplies.UpdatesAreTaken | modules/mcp-tool-state/module.c:133-153 | an event that follows a mutation, fed back: taken if its address is new or its sequence is greater, ignored otherwise, never an error |
| Spellings.SpelledReadsBack | modules/mcp-tool-state/module.c:21-33 | a text spelled in any mix of UTF-8, hexadecimal escapes with surrogate pairs, and letters is a JSON string, and decodes to that text |
| Spellings.NumberFits | modules/mcp-tool-state/module.c:34-40 | a sign, any natural number, a fraction, and an exponent in either case with either sign or none, are a number |
| Spellings.NumberShape | modules/mcp-tool-state/module.c:34-40 | a number begins and ends as it must, has no digit after a first zero and no character that is not of numbers |
| ReducerProofs.ReplacedAt | modules/mcp-tool-state/module.c:147-150 | every entry keeps its key bytes, and every entry with another key its value |
| ReducerProofs.SearchPut | modules/mcp-tool-state/module.c:125-132 | after an update, the updated key finds the new value and every other key what it found before |
| ReducerProofs.MutationUpdatesOneResult | modules/mcp-tool-state/module.c:137-152 | of every mutation: the lookup at the event's source and tool finds the new result; a lookup that meets a name of the event that does not decode fails; every other finds what it found before |
| ReducerProofs.StoredUnobscured | modules/mcp-tool-state/module.c:76-96 | a mutation never has a name that makes the lookup of a stored result fail |
| ReducerProofs.RewriteRaisesSequence | modules/mcp-tool-state/module.c:143-145 | of every mutation: a rewritten result has a greater sequence than the one it replaces, and every other sequence stays |
| ReducerProofs.SequencesOnlyRise | modules/mcp-tool-state/module.c:143-152 | over any run in which the state is fed back, a stored sequence is never lost, never falls, and rises exactly if its entry is rewritten |
| ReducerNames.HalfPairBlocks | modules/mcp-tool-state/module.c:56-153 | a JSON input whose mutation stores a result under the id `\ud800`; after it an event from any other source is an error, though before it each would be stored |
| ReducerProofs.MutationIsJson | modules/mcp-tool-state/module.c:146-152 | a mutation of well-formed input is a well-formed JSON reply |
| ToolReducer.ReplyIsJson | modules/mcp-tool-state/module.c:133-153 | the bytes of a mutation reply are a JSON text of the new state, which the parser takes again exactly when it is within its own limits |
| JsonValues.UnescapeEscape | internal/state/knowledge_projection.go:53-55 | an escaped key is one well-formed part of a pointer and reads as the key |
| JsonValues.EscapeUnescape | internal/state/plan.go:82-88 | a well-formed part is the escaped form of what it reads as |
| JsonValues.PartsOfPointer | internal/state/knowledge_projection.go:342-347 | splitting a pointer gives the parts it was joined from |
| JsonValues.AtJoin | internal/state/knowledge_projection.go:342-366 | evaluation composes over concatenation of pointers |
| Plans.AdvancedIs | internal/state/plan.go:303-317 | advancing keeps an unresolved selection, takes the first unresolved step otherwise, and none only if no step is; nothing else of the plan changes |
| Plans.StoredPlan | internal/state/plan.go:224-245 | an accepted proposal becomes the next revision, is well formed, and carries every completed step |
| Plans.StoredIs | internal/state/plan.go:224-245 | a proposal is stored as it is, under the next revision, with the step it selects while there is work left in that, or else the first open one |
| Plans.NewSelection | internal/state/plan.go:319-334 | a new selection in an accepted proposal names a step with work left, and stays |
| PlanProgress.StoredInForm | internal/state/plan.go:109-220 | every accepted plan is within the limits on its texts, lists, names and statuses, spelled out |
| PlanProgress.AcceptedAgain | internal/state/plan.go:109-220 | an accepted plan is acceptable again if and only if what it and its open work cite still resolves |
| PlanProgress.StepsReported | internal/state/plan.go:150-196 | while a plan is open, each of its steps can be told anything well formed with evidence that resolves, and each completed one can be invalidated, all together |
| PlanProgress.StepAdded | internal/state/plan.go:127-148 | new work is acceptable while there is room, also in a settled plan, which is active again then |
| PlanProgress.StepDropped | internal/state/plan.go:178-196 | open work can be dropped, unless it is all there is or selected |
| PlanProgress.PlanFinished | internal/state/plan.go:198-220 | a plan whose steps are all satisfied can be finished with an outcome and evidence that resolves |
| Plans.PreservedExactly | internal/state/plan.go:127-148 | an accepted proposal changes nothing of a satisfied plan but its status, to invalidated, if and only if it adds no unresolved step |
| Plans.ReopeningAccepted | internal/state/plan.go:127-148 | a satisfied plan and an accepted proposal that reopens it under another description, without outcome and evidence |
| TaskTree.AddedKeeps | internal/state/host.go:40-55 | queueing below the active task keeps the tree: chain, statuses, order and one task per request |
| TaskTree.ActivatedKeeps | internal/state/host.go:65-80 | activating the next pending child keeps the tree |
| TaskTree.PoppedKeeps | internal/state/tasks.go:95-122 | finishing keeps the tree and leaves everything below the finished task terminal |
| TaskTree.EndedKeeps | internal/state/tasks.go:126-158 | ending leaves every task terminal and the stack empty |
| TaskTree.TasksLaterTransitive | internal/state/tasks.go:37-158 | what later states keep of tasks composes |
| Transitions.OpSteps | internal/state/tasks.go:37-158 | each operation of a run, enabled in a state that keeps the invariant, leads to one that keeps it, and keeps finished tasks, completed steps, versions and the journal |
| Transitions.RunValid | internal/state/tasks.go:37-158 | whatever operations follow each other from an initial state, the invariant holds in the state they lead to |
| Runs.RunLater | internal/state/tasks.go:37-158 | in every run of operations, an earlier state and a later one: finished tasks, completed steps, versions and the journal stay |
| Runs.StackInRuns | internal/state/tasks.go:37-122 | in every state of a run the stack is the chain from the only root, the top runs, the rest waits, other tasks are pending below it or terminal |
| Runs.FinishedForGood | internal/state/tasks.go:95-158 | no terminal status, result or plan ever changes |
| Runs.DescendantsInRuns | internal/state/host.go:82-84 | descendants of a terminal task are terminal |
| Runs.RequestsInRuns | internal/state/host.go:21-55 | one task per partition and request identity |
| Runs.ExecutionsInRuns | internal/state/host.go:116-138 | no host task is executed twice; executions are counted and at most 32; the journal only grows |
| Runs.SiblingsInRuns | internal/state/host.go:82-84 | executed siblings ran in creation order |
| Runs.HistoryKept | internal/state/plan.go:178-196 | a completed step stays in every later plan of its task, unchanged except from satisfied to invalidated, through renewals |
| Runs.PlansInRuns | internal/state/plan.go:224-245 | the plan is the one accepted last, its revision counts the accepted revisions, satisfied steps have outcome and evidence and no gaps |
| Runs.SatisfiedOnEvidence | internal/state/plan.go:186-192 | each satisfied step has an outcome, evidence and no gaps, and first became so in a state in which all its evidence resolved |
| Runs.EvidenceInRuns | internal/state/store.go:259-290 | over a run, partition and version determine the value |
| Runs.AttemptsInRuns | internal/state/attempt.go:19-54 | the streak is the trailing run of batches without progress, each batch counted at most once, replanning asked for exactly at three |
| RunState.SelectedInTwo | internal/state/store.go:114-140 | reading the journal up to a cursor and from it reads each selected entry once |
| RunSteps.ExecutedMoves | internal/state/host.go:124-138 | an execution is new, within the budget, after its older siblings, and keeps the invariant |
| RunSteps.QueueAgentsMoves | internal/state/agent.go:10-46 | a queued batch is pending tasks with the next numbers in order, and nothing else changes |
| RunSteps.AttemptBegunSteps | internal/state/attempt.go:19-33 | a batch below a plan begins an attempt at the current step and keeps the streak |
| Attempts.BatchAttempts | internal/state/attempt.go:19-33 | the attempt is at the current step and revision, with the gaps of that step, and its results are the tasks of the batch, in order |
| Attempts.AttemptReported | internal/state/attempt.go:37-54 | a reconciliation gives the attempt its reason and outcome, once, and changes nothing else of it |
| RunSteps.AttemptDoneSteps | internal/state/attempt.go:37-54 | a reconciled batch is counted, once |
| RunSteps.RevisedSteps | internal/state/plan.go:224-245 | a revision keeps the invariant and all completed history |
| Broadcasts.HandledCalm | internal/state/store.go:206-299 | whatever a module answers, only its partition and new pending host tasks below the active one change |
| Answers.AnswersCount | internal/state/store.go:206-299 | what becomes of the partition, told by the answer alone: a mutation in order that fits is its value under the next version, updated by this event; a processed result leaves value and version; both clear failures and take the notes given; an ignored one leaves everything; anything else spoils the partition, for the first reason in order |
| Answers.MutationTaken | internal/state/store.go:251-290 | a mutation that fits, by itself, is taken in every state |
| Answers.EvidenceAfter | internal/state/plan.go:65-107 | afterwards nothing of a spoiled partition can be cited, and of a mutated one exactly what its new value holds, under the next version only |
| Answers.HeardExactly | internal/state/store.go:206-250 | what is heard is exactly a result with few, different and well-formed requests and notes, on known tasks, repeating no request with other contents |
| Answers.RequestsMade | internal/state/host.go:40-55 | of distinct requests exactly those that were not made before become tasks, pending below the causal one, numbered in order |
| DrainSpec.DrainFinishes | internal/state/host.go:82-147 | after a drain, host work that was pending below the active task or came of the drain has a result, and has failed exactly if it has an error |
| Isolation.IsolatedExactly | internal/state/store.go:202-301 | whatever the other modules answer to an event, a partition becomes what its own answer makes of it, if and only if not: the answer gets as far as the check of progress, names a task that does not exist, and no such task but those that the modules before it can make |
| Isolation.ProgressOnNewTask | internal/state/store.go:206-240 | two modules and their answers: alone the second one is refused and its partition stale, after the first one it is applied |
| Broadcasts.BroadcastCalm | internal/state/store.go:182-301 | the same for a whole broadcast |
| Stores.Store.constructor | internal/state/store.go:40-94 | the initial state of a run, valid |
| Stores.Store.JournalSince | internal/state/store.go:114-140 | the selected entries after the cursor, and the next cursor |
| Stores.Store.Push | internal/state/tasks.go:37-64 | a new root or child becomes active; refused exactly for a blank objective or a second root |
| Stores.Store.BeginCycle | internal/state/tasks.go:72-91 | counts the cycle of the run and of the active task |
| Stores.Store.Finish | internal/state/tasks.go:95-122 | the active task finishes and its parent resumes; refused exactly when nothing is active or work is pending below |
| Stores.Store.End | internal/state/tasks.go:126-158 | exactly the unfinished tasks end, in creation order |
| Stores.Store.ExistingRequest | internal/state/host.go:21-28 | the only task made for a request, if any |
| Stores.Store.CheckRequests | internal/state/host.go:29-39 | refuses a request without causal task or with an identity that has other contents |
| Stores.Store.QueueRequests | internal/state/host.go:40-55 | repeated requests are logged, others become pending tasks |
| Stores.Store.PendingChild | internal/state/host.go:56-64 | the oldest pending child, or none |
| Stores.Store.Activate | internal/state/host.go:65-80 | activates exactly a pending child of the active task |
| Stores.Store.FailPartition | internal/state/store.go:302-309 | marks one partition stale |
| Stores.Store.Handle | internal/state/store.go:206-299 | one answer: applied, ignored or refused, then its requests; the partition is what the answer makes of it (Answers.Answered), and exactly its new requests have become tasks (Answers.TasksAnswered) |
| Stores.Store.AdmitEvent | internal/state/store.go:182-301 | the event is logged and offered to every module; interrupted anywhere, the state stays valid |
| Stores.Store.DrainHostWork | internal/state/host.go:82-147 | terminates for any answers; on success the stack is as before, nothing is pending below it, only host tasks changed, those that ended have failed exactly if they have an error, and the outcome of every execution was admitted as an event of its task; refused only if other work was pending |
| Stores.Store.Exhaust | internal/state/host.go:116-123 | with the budget spent, every unfinished task has failed and keeps what it had, the finished ones stay |
| Stores.Store.Perform | internal/state/host.go:124-138 | one execution, counted and kept before anything can interrupt it; an error or an HTTP status from 400 on is an error of the task |
| Stores.Store.Execute | internal/state/host.go:124-146 | one execution of the active host task, whose outcome is admitted as an event of its own source, below it, for its request; only an interruption comes between |
| Stores.Store.Admit | internal/state/store.go:170-181 | refused, with nothing changed, for a closed or exhausted run, a bad source or an oversized payload; else exactly that event is logged first, every module is offered it, and the work it makes is drained |
| Stores.Store.QueueAgentWork | internal/state/agent.go:10-46 | the batch and its attempt, numbered in order |
| Stores.Store.ActivateAgentWork | internal/state/agent.go:47-60 | starts exactly the oldest pending call below the active task |
| Stores.Store.RecordAgentOutcome | internal/state/agent.go:62-80 | keeps an outcome once |
| Stores.Store.AdmitAgentOutcome | internal/state/agent.go:81-99 | admits exactly one event for the result, offers it to every module, and drains |
| Stores.Store.FinishAgentWork | internal/state/agent.go:100-110 | finishes a call with its outcome, failed if it has an error |
| Stores.Store.ResolveEvidence | internal/state/plan.go:65-107 | strict evaluation part by part |
| Stores.Store.CheckPlan | internal/state/plan.go:109-220 | accepts exactly the acceptable proposals, and changes nothing |
| Stores.Store.RevisePlan | internal/state/plan.go:222-245 | refused exactly if the normalized proposal is not acceptable; else the stored plan |
| Stores.Store.AdvanceCurrentStep | internal/state/plan.go:303-317 | the selection if it is unresolved, else the first unresolved step |
| Stores.Store.NormalizeCurrentStep | internal/state/plan.go:319-334 | advances a missing or finished selection, not a new one |
| Stores.Store.CompleteObjective | internal/state/plan.go:259-283 | the whole stack concludes: satisfied children complete with their outcome, others end incomplete, the root with the result |
| Stores.Store.FinishAttempt | internal/state/attempt.go:35-54 | counts a reconciled batch |
| PlanPatch.ApplyPlanPatch | internal/loop/plan_patch.go:60-185 | succeeds exactly for the patches that fit, on a copy |
| PlanPatch.SlotInRange | internal/loop/plan_patch.go:151-157 | the index into the requested order never overruns |
| PlanPatch.PlacedPermutes | internal/loop/plan_patch.go:132-158 | reordering loses, repeats and changes no step; read in order, the unresolved steps are the requested order |
| PlanPatch.PatchedStepsAre | internal/loop/plan_patch.go:92-131 | the ids are the old ones minus the removed plus the added; unmentioned steps are unchanged, updated ones merged |
| PlanPatch.PatchKeeps | internal/loop/plan_patch.go:60-185 | the revision and all fields without update are kept; resolved steps keep their slots |
| PlanPatch.PatchedCurrent | internal/loop/plan_patch.go:159-184 | the current step is unresolved, or empty because no step is |
| PatchLaws.PatchSays | internal/loop/plan_patch.go:60-185 | every update given holds of its step or of the plan, every other field stays; the current step is the one named, or the old one while it has work left, or the first with work left |
| PatchLaws.OrderFits | internal/loop/plan_patch.go:132-150 | an order fits if and only if it is a permutation of the ids of the unresolved steps |
| PatchLaws.OneStepChanged | internal/loop/plan_patch.go:92-118 | any change of one step can be said by a patch, which makes exactly that change |
| PatchLaws.OneStepRemoved | internal/loop/plan_patch.go:76-91 | an open step can be removed by a patch, unless it is all there is |
| PatchLaws.OrderCanBe | internal/loop/plan_patch.go:132-158 | open work can be put in any order |
| PlanIntent.PlanIntentChanges | internal/loop/plan_intent.go:75-124 | computes the list of changes; that it is empty exactly for kept intents is PlanIntent.IntentKeptExactly |
| PlanIntent.JoinIsExact | internal/loop/plan_intent.go:114-116 | the comparison of joined ids is exact for names |
| PlanIntent.UnexplainedKeepsIntent | internal/loop/plan_intent.go:126-134 | accepted without a reason, a revision has the old ids as a subsequence, all descriptions and criteria, gives up no open step, undoes no satisfied one, keeps a focus |
| PlanIntent.IntentKeptExactly | internal/loop/plan_intent.go:75-134 | of what is acceptable, exactly the proposals that keep the intent have no change to explain |
| PlanIntent.KeptUnreported | internal/loop/plan_intent.go:75-124 | no change is reported of an intent that is kept |
| Reconciliations.ValidateResultAccounting | internal/loop/result_accounting.go:24-83 | accepts exactly the accounts that are in order |
| Reconciliations.AccountingIsBijection | internal/loop/result_accounting.go:24-83 | accepted accounting has one entry for each distinct accepted result and no other |
| Reconciliations.ReconciliationPlan | internal/loop/reconciliation.go:310-462 | a plan, nothing, or a refusal, as the decision and the evidence warrant: what is proposed is said without its functions by ProposedCarries and ProgressArrives |
| Reconciliations.RevisedPlan | internal/loop/reconciliation.go:351-461 | a proposed plan has the same steps in order with the same descriptions and criteria; only updated steps differ, citing what they cited, what was shown as current, or what resolves below that; it is acceptable |
| Reconciliations.ReplayProposesNothing | internal/loop/reconciliation.go:419-457 | telling completed steps again with refreshed versions proposes no plan |
| Reconciliations.ProposedCarries | internal/loop/reconciliation.go:351-461 | in a revised plan the step of each update that replays nothing is exactly that update, every other step is as it was, a given focus is the focus; a progress decision changes nothing only if each update replays its step or equals it and a given focus is there already |
| Reconciliations.ProgressArrives | internal/loop/reconciliation.go:351-461 | a supported progress decision in order comes to the one plan that carries it: unchanged if it is the accepted one, revised if it is acceptable, else refused |
| Reconciliations.OneEntryEach | internal/loop/result_accounting.go:24-83 | an account with one entry for each result, each about a visible step and agreeing with the updates, is accepted |
| ReconciledProgress.ProgressIsTaken | internal/loop/reconciliation.go:351-461 | updates of open steps that cite current shown evidence are always proposed, as long as what the other open work cites resolves |
| Planning.Planner.AcceptPlanWithContext | internal/loop/planning.go:228-352 | asks for a verdict exactly when there are new claims or a reconciliation, and then does what the verdict allows: a rejection, or a failure, changes nothing but the journal, to which at most that verdict is added; refused only if not acceptable, denied by the verdict, without a verdict that is needed, or when the run is halted |
| Planning.Planner.ValidatePlanIntent | internal/loop/plan_intent.go:126-178 | passes exactly if the intent is unchanged, or a reason was given and the evaluation, now the last entry of the journal, is positive |
| Planning.Planner.AcceptPlan | internal/loop/planning.go:193-210 | accepted, an actor plan keeps the intent, or has a reason and stands after a positive evaluation in the journal; refused if what is there bars it, and else only where an evaluator has a say or the run is halted |
| Planning.Planner.AcceptReconciliationPlan | internal/loop/planning.go:212-226 | a proposed or retained plan goes ahead only with a verdict that approves continuity and purpose, and the state is exactly what that verdict allows; an admissible one is refused only by its verdict, without one, or when halted |
| Planning.Planner.ManagePlan | internal/loop/planning.go:42-136 | an accepted operation does what it says to the stack or the plan, a refused one changes no task; refused is what is barred (Planning.Barred: lineage of 8, 64 model tasks, pending work, unfit patches, omitted steps, unacceptable plans, unexplained changes), and else only what an evaluator has a say in |
| Planning.Planner.RequireSnapshotSteps | internal/loop/plan_patch.go:20-34 | a full revision names every accepted step |
| Planning.Planner.Progressed | internal/loop/reconciliation.go:292-302 | whether an accepted step differs from what it was before the batch |
| Planning.Planner.Reconcile | internal/loop/reconciliation.go:240-308 | at most 32 proposals come to a verdict, each but the last followed by a correction in the journal; given up earlier only without a decision or a verdict or when halted; a failed reconciliation changes no task or knowledge, after a successful one the plan is what its last decision proposes |
| Planning.Planner.CountBatch | internal/loop/reconciliation.go:286-304 | the batch is counted as progress exactly if an accepted step changed |
| Runs.OpGated | internal/loop/planning.go:244-343 | each operation but a bare revision keeps the journal free of claims without verdict and of reconciliations without continuity and purpose |
| Runs.GatedInRuns | internal/loop/planning.go:244-343 | so the journal of every run without bare revisions is |
| Planning.Planner.JournalGated | internal/loop/planning.go:244-343 | the operations the planner makes in its store are such a run, at any moment between its methods |
| Runs.SatisfiedOnlyOnVerdict | internal/loop/planning.go:244-343 | over every run without bare revisions, a step or plan becomes satisfied only in a revision directly after a positive verdict of the same task on exactly that claim |
| Runs.ReconciledOnlyOnVerdict | internal/loop/planning.go:334-340 | over the same runs, every revision that a reconciliation made, whether or not it claims anything, stands directly after a verdict on the same task that approves continuity and purpose |
| Verdicts.MovesGated | internal/loop/planning.go:244-343 | operations that revise no plan let no claim through |
| ToolLoop.CallDrained | internal/loop/tools.go:472-475 | admitting a result leaves the rest of the batch as it was |
| ToolLoop.ToolProvider.RunCall | internal/loop/tools.go:395-480 | one call: activated, kept, admitted and finished; nothing of this is refused |
| ToolLoop.ToolProvider.RunBatch | internal/loop/tools.go:381-480 | a batch that ends: same task active, nothing pending, every call terminal with a result that shows whether it was dispatched and failed, nothing dispatched after the first failure, admitted events the successes in order |
| ToolLoop.ToolProvider.RunAndReconcile | internal/loop/tools.go:381-487 | a batch after which the loop goes on has ended; a failure in it begins recovery and a success ends it; where batches are reconciled it has been counted, as progress exactly if a step of the plan differs from before the batch |
| ToolLoop.ToolProvider.Plan | internal/loop/tools.go:321-365 | a planning operation is accepted, or begins or keeps a correction; it is not accepted if barred, and else refused only where an evaluator has a say or the run is interrupted |
| ToolLoop.ToolProvider.Correct | internal/loop/tools.go:181-247 | a response under correction uses up an attempt or a correction; what ends the correction is a planning operation by itself, of the kind that was rejected, acceptable to the store, that keeps the rejected intent or has a reason and a positive evaluation; one that needs no evaluator always does |
| ToolLoop.ToolProvider.Screen | internal/loop/tools.go:168-282 | whether a response is taken up: not if it plans twice, fails the pending correction, mixes planning with calls, or declares a plan; a text with calls is asked about exactly once, and the answer decides |
| ToolLoop.ToolProvider.ValidateHostCorrection | internal/loop/host_correction.go:158-205 | accepts only an operation of the kind that was rejected or declared, which keeps the intent of the rejected proposal unless a reason and a positive evaluation in the journal allow the change, and after a declared intent was found represented; one that needs no evaluator is accepted |
| ToolLoop.ToolProvider.TakeTurn | internal/loop/tools.go:83-487 | on the reply the actor gives: a batch is exactly the calls of that reply, none of them planning, queued behind the gate in a turn in which no correction was due and none is left; an accepted planning operation is the only call of the reply, did what it says, and met the correction that was due; a correction that was not met stays as it was, and a planning operation that was not accepted begins one; a turn that goes on without an accepted one lowers the measure; by its cause (ToolTurns.Reacts): the objective is checked only at a plan boundary, limits stop the loop only when spent, an answer that is read with no correction due ends it, printed markup costs a correction, faulty calls are corrected or stop it, calls in order are run |
| ToolTurns.DoneOnAnswers | internal/loop/tools.go:283-295 | a turn is done only on an achieved objective or on a response without calls and markup while no correction is due; such a response, read, ends the loop at once; markup without calls costs one correction, or stops the loop when none is left |
| ToolTurns.StopsForCause | internal/loop/tools.go:168-391 | what may stop the loop on a response that is read |
| ToolTurns.HistoryEnds | internal/loop/tools.go:83-295 | over the turns of a loop: it is done exactly at the first answer that is read while no correction is due, or when the objective is found achieved |
| ToolTurns.IdleBound | internal/loop/tools.go:83-130 | in every history of linked turns, each of which keeps its measure: at every point at most 77 turns in a row without an accepted planning operation, and at most 77 and ten per accepted one in all |
| ToolTurns.OpsBehind | internal/loop/plan_gate.go:5-15 | operations that queue batches behind the gate only leave a journal in which, wherever an attempt or a call begins, the plan accepted last for its task has an unresolved current step, and the attempt is at that step and revision |
| ToolTurns.BatchesAreReplies | internal/loop/tools.go:168-391 | over the turns of a loop on a list of replies, every operation that queues a batch queues the calls of one reply, which plans nothing, in a turn that no correction was due in |
| ToolLoop.ToolProvider.Handle | internal/loop/tools.go:46-488 | on any list of replies: the turns it took form a history, one turn for each reply, from its first operation to its last; every batch in it is what its reply called for; at most 77 turns in a row without an accepted planning operation, 77 and ten per accepted one in all, and with more replies than that it has ended; it is done only on an achieved objective or on the last reply being an answer with no correction due, and on the first such answer it reads; in the journal every attempt and call it began is behind the gate |
| ProjectionSpec.LeafCovered | internal/state/knowledge_projection.go:242-293 | if everything is covered, each leaf is, whatever strict pointer leads to it |
| ProjectionSpec.PartsJoin | internal/state/knowledge_projection.go:342-366 | the parts of concatenated paths |
| ProjectionSpec.StrictPathsDiffer | internal/state/plan.go:81-88 | different strict paths name different places |
| ProjectionSpec.OtherEscapesCollide | internal/state/plan.go:83-87 | with other escapes two paths can name one place |
| ProjectionSpec.LenientOnly | internal/state/plan.go:65-107 | the path /~2 leads to a value in a partition and does not resolve as evidence there |
| ProjectionGroup.Group.Add | internal/state/knowledge_projection.go:163-194 | adds exact values only, none at, above or below another, and exactly those that have room and fit |
| ProjectionGroup.Group.Walk | internal/state/knowledge_projection.go:242-293 | if nothing more is counted as omitted, every leaf of the value is covered by entries or duplicates |
| ProjectionGroup.Group.Fill | internal/state/knowledge_projection.go:231-293 | the same for a whole source, preferred references first |
| ProjectionGroup.EntryResolves | internal/state/plan.go:65-107 | an entry resolves by the strict evaluator to its value, exactly if its path is strict |
| Projection.SourcesOf | internal/state/knowledge_projection.go:101-124 | exactly the sources of a partition: each tool of each server, servers and other members as they are, or the whole; exact values at strict paths, none inside another |
| Projection.Inventory | internal/state/knowledge_projection.go:130-153 | sources take turns while the inventory has room; their shares add up to at most two thirds of the budget |
| Projection.DuesFit | internal/state/knowledge_projection.go:146 | the nested integer divisions of the budget fit |
| Projection.ShareIsFair | internal/state/knowledge_projection.go:146 | the nested integer divisions round down once: a share is two thirds of the budget divided by partitions times sources |
| ProjectionFull.ListedUnlessFull | internal/state/knowledge_projection.go:130-153 | at its turn a source is listed, unless its path is too long or the inventory has no room |
| ProjectionFull.AllSourcesListed | internal/state/knowledge_projection.go:130-153 | if there is room for every source when it comes, none is omitted |
| ProjectionFull.FillLeavesLittle | internal/state/knowledge_projection.go:231-293 | of a current source filling leaves out a leaf only if it is too large, too far down, or the queue is full |
| ProjectionRounds.DuplicateTexts | internal/state/knowledge_projection.go:195-212 | exactly the blocks of content that repeat the structured content as text |
| ProjectionRounds.Select | internal/state/knowledge_projection.go:295-321 | the entries are those of the places that were taken at their turn, in order (owners); what is taken fits the share and is counted, what is not is counted as omitted; which places those are is LeftOutHadNoRoom and WhatFitsIsSelected |
| ProjectionFull.LeftOutHadNoRoom | internal/state/knowledge_projection.go:295-321 | of every queued entry that is not selected: at its turn the count was full, its share had no room for it, or the whole with it exceeded the budget |
| ProjectionFull.WhatFitsIsSelected | internal/state/knowledge_projection.go:295-321 | if all queued entries fit the count, their shares and the budget together, all are selected and the omitted counts are what filling left |
| ProjectionWhole.ProjectKnowledge | internal/state/knowledge_projection.go:76-331 | of every knowledge: the result is exactly the one the rounds of listing, filling and selecting determine, truncated if and only if a source was omitted or is incomplete; each entry with a strict pointer resolves to exactly its value and any other to nothing, no two entries of a partition are equal or nested, all fit two thirds of the budget and the entry limit; its owners are the places taken at their turn |
| ProjectionFull.WhatFitsIsProjected | internal/state/knowledge_projection.go:76-331 | if the partitions are current, the inventory has room for every source, each source fits its share and all fit the budget and the count together, the projection is every source as it is, complete and not truncated |
| ProjectionWhole.EntriesResolve | internal/state/knowledge_projection.go:231-293 | every entry resolves to exactly its value, given strict preferences; else exactly the strict ones do |
| ProjectionWhole.EntriesSeparate | internal/state/knowledge_projection.go:163-177 | no two entries of the whole projection are equal or nested |
| ProjectionWhole.CompleteIsComplete | internal/state/knowledge_projection.go:322-329 | a source reported complete is: every leaf lies at or below a selected entry or a recorded duplicate |
| ProjectionWhole.SharesFit | internal/state/knowledge_projection.go:295-321 | entries fit their source share and two thirds of the budget together; selected counts are the entries taken |
| ProjectionCoverage.LeafHasSource | internal/state/knowledge_projection.go:101-124 | every leaf of a partition is in one of its sources, but for a server that is an empty object |
| ProjectionCoverage.RepresentedExactly | internal/state/knowledge_projection.go:101-124 | of a projection that is not truncated: a leaf of any partition lies at or below an entry or a repeated text, if and only if it is not such a server |
| ProjectionCoverage.UntruncatedExactly | internal/state/knowledge_projection.go:322-329 | a projection that is not truncated represents every leaf of every partition, if and only if no partition has such a server |
| ProjectionCoverage.EmptyServer | internal/state/knowledge_projection.go:101-116 | of a partition with one server and no tools the projection is empty, reports no source and is not truncated, and so does not represent the server |

## Left out

- Handle: the loop has no bound in the source; here it is followed along any finite list of replies, so what is proved holds of every prefix of every execution, and whether it ever ends is not stated. The observation admitted when it returns is not modelled.
- Correct: whether rejected arguments are retained (JSON within the size limit) is an arbitrary answer, and so are the texts of diagnostics.
- IsolatedExactly: task numbers are taken to have 64 bits, so that every module can still name new requests within the length of a name.
- DuplicateTexts: parsing the text of a block is a parameter.
- ExecuteHttp: the outcome is arbitrary; redirects, headers and limits of the HTTP client are not modelled.
- MergeStep: a field that is present as JSON null counts as absent.
- ReadLow: the reducer's unchecked digits are modelled with their 32-bit wrap-around; `unit`'s other arithmetic cannot wrap.
- Blank: trims ASCII white space only.
- JournalSince: revisions carry only the plan in this journal, so their projection is the entry itself. Whether an actor or a reconciliation made a revision is recorded for the proofs; the source does not write it down.
- Decoding module results and planning arguments from bytes (duplicate and unknown fields, size limits); the conditions on decoded results are modelled.
- UTF-8 validity of the reducer's input outside compared strings, which its host checks.
- `reconciliationInput`, catalog paging, correction texts and other trimming of texts to byte budgets.
- The final encoded size of a projection: coverage counters grow after the last check, and the source promises no bound.
- Model clients, MCP sessions, the WASM runtime, configuration, prompts, tracing, diagnostics wording, timestamps and random identifiers.
- The journal entry `procedural_reconciliation`, a copy of what a reconciliation was given and answered.
- The quality of an evaluator's verdicts: only what depends on their Boolean answers is proved.
