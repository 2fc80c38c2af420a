# Pre-Active: a verified model of the durable execution protocol

Pre-Active drives language-model runs from an SQLite file: a leased event queue, run generations,
write-once model decisions, keyed transcripts, a ledger of mutating tool calls with reconciliation, and
recurring schedules. A process may die between any two durable writes, events are redelivered, and the
model may answer differently on a retry. This project models those writes one by one and proves what
their order guarantees. Three further parts are modelled on their own: the JSON Schema subset checker
and validator, the parser of the native tool-call envelope, and the character budget of the context.

`dafny verify dfyconfig.toml` checks everything.

## How it is built

- `Tables` is the durable state, one map per table with its unique keys, and one function per durable
  statement or transaction. `Protocol` is the transition system: a program counter per process, one step
  per durable statement, read, model answer or handler invocation, plus `Crash` and `Throw` at any point.
  History variables that no step reads record handler invocations, results handed back and lease events.
- `DurableStore.Store`, `EffectRegistry.ToolRegistry`, `TaskEngine.Engine` and
  `IntervalScheduler.Scheduler` are the program's classes in imperative form. The store's methods are
  proved equal to the statement functions. The other methods prove that what they did is a sequence of
  steps of the transition system (`Paths.Leads`); `DeliveryReaches`, `ResumeReaches` and `TickReaches`
  turn that into a piece of an execution, so the theorems about executions hold of these classes.
- The environments are named in each theorem's comment. (M): any number of workers, tickers, resumers and
  host calls, interleaved statement by statement (`Protocol.Execution`). (S): one live worker with crash
  and restart, and reconciliation only while no handler is in flight (`Protocol.SoloExecution`); a host's
  resume and a tick count as the worker's own work, so neither is interleaved with a delivery. (S) with
  distinct request ids: in addition the model never reuses a request id of a stored decision
  (`TranscriptRefinement.DistinctExecution`). (M, leases held): many workers, but every statement of a
  delivery is done by a process that still owns its event (`HeldLeases.HeldExecution`).
- The ledger's later UPDATEs and `update_run` carry no state guard, so some of what holds under (S) fails
  under (M). `LateWrites` says exactly which statements change a COMMITTED row or a stopped run and exactly
  when a COMMITTED row is final, `Limits` gives executions in which it goes wrong, and `HeldLeases` proves
  the step bound and complete-once for many workers whose leases last.

## Assumptions

- Canonical JSON text is an injective encoding with an inverse, and SHA-256 is injective; a digest is
  represented by the value it is taken of.
- Time is an integer number of ticks of one microsecond, the precision of the occurrence key. Schema
  numbers are integers or reals; `multipleOf` is exact divisibility.
- `re.compile` and `re.search` of the `pattern` keyword, `float()` and `json.loads` of a tool parameter
  are parameters of the model. Decimal digits of an integer parameter are the ASCII ones, and white space
  is that of the Latin range.
- The registered tools, `max_steps` and one `lease_seconds` are fixed across restarts.
- Producers outside the engine and the scheduler enqueue no `run.step` events and use no `run-step:` or
  `schedule:` dedup key. Runs are created with their initial step.
- UUIDs, the clock, the model's answer, the handler's outcome, the reconciliation evidence and exception
  texts are inputs. The SELECT by dedup key and the INSERT of an enqueue are one step; the UNIQUE index
  makes the raced INSERT give the same answer.

## Where the code and its documents differ

- The state diagram of `docs/ARCHITECTURE.md` (lines 77-93) draws reconciliation from ATTEMPTED_UNKNOWN
  only; the code reconciles an EXECUTING row as well, and so does the model (`SoloTheorems.Edge`; the edges
  are taken in `Witnesses.ExecutingReconciled`).
- A blocked run whose request id is the empty string can never be resumed: `resume_blocked_effect` treats
  it as not blocked. Such a run is reached (`Witnesses.EmptyRequestBlocks`), and it is the only failing
  case of a recovery from a COMMITTED row. A recovery from a row reconciled as no effect fails in one more
  case: stored arguments that are not an object, which `dict` does not leave as they are
  (`TaskEngine.ResumeProceeds`; `Witnesses.NoEffectReconciled` reaches both).
- A stored tool call whose arguments are not an object cannot be read back on a retry
  (`StoredDecisions.DecisionReadBack` gives the exact condition).

## Model

| member | source | states |
|---|---|---|
| DurableStore.Store.EnqueueEvent | src/pre_active/store.py:171-242 | On the old rows: a used dedup key gives back its event if kind, payload and priority are the same and is refused otherwise; else exactly one PENDING row, never claimed and available at the given time, and its journal entry are added. |
| DurableStore.Store.ClaimEvent | src/pre_active/store.py:618-668 | Claims an event that is due and under no live lease, of maximal priority and the oldest among those, with owner, lease end and attempt number; returns nothing exactly when there is none. |
| DurableStore.Store.AckEvent | src/pre_active/store.py:557-572 | Only the current owner of a CLAIMED event makes it DONE; otherwise nothing changes and it fails. |
| DurableStore.Store.FailEvent | src/pre_active/store.py:574-589 | Only the current owner puts the event back to PENDING at the retry time. |
| DurableStore.Store.InsertRun | src/pre_active/store.py:245-285 | A source event gets one run: the same request gets the same run, a different one is refused. |
| DurableStore.Store.CreateRunWithInitialStep | src/pre_active/store.py:287-315 | The run and its first `run.step` event are created together, or on any failure not at all; when it succeeds is said on the old rows. |
| DurableStore.Store.UpdateRun | src/pre_active/store.py:332-356 | Exactly the given columns change, whatever the run's status is. |
| DurableStore.Store.AdvanceRunStep | src/pre_active/store.py:358-390 | From the expected generation of a RUNNING run to the next with its successor event, or no change. |
| DurableStore.Store.BlockRunOnEffect | src/pre_active/store.py:392-410 | A RUNNING run becomes BLOCKED_EFFECT on the request, with its journal entry, or nothing changes. |
| DurableStore.Store.ResumeRunAfterEffect | src/pre_active/store.py:412-454 | A blocked run becomes RUNNING at the next generation with its event and journal entry, or no change. |
| DurableStore.Store.RecordRunStepDecision | src/pre_active/store.py:456-474 | Write-once: the first decision is stored, an equal one accepted, a different one refused. |
| DurableStore.Store.RecordRunMessage | src/pre_active/store.py:488-515 | A keyed message is appended once; an equal entry under the key is reused, a different one refused. |
| EffectRegistry.ToolRegistry.Register | src/pre_active/tools.py:270-282 | A tool is registered exactly when its name is new and non-empty and its schema is supported. |
| EffectRegistry.ToolRegistry.Admit | src/pre_active/tools.py:301-321 | A call passes exactly when the tool is known, its capability granted and its arguments satisfy the schema. |
| EffectRegistry.ToolRegistry.Execute | src/pre_active/tools.py:307-399 | The outcome from the inputs and the old row: an inadmissible call is a ToolError and leaves no row; for a mutation on a ledger in order, a COMMITTED row of the same call if and only if its stored output is replayed without the handler; an absent or no-effect row of the same call costs exactly one invocation, its output committed or its failure left ATTEMPTED_UNKNOWN; an unresolved row or another call is a ToolError with nothing written. |
| EffectRegistry.ToolRegistry.ExecuteMutation | src/pre_active/tools.py:336-399 | The ledger bracket: lookup, EXECUTING row, handler and outcome are steps of the protocol in that order, with the same exact outcome. |
| EffectRegistry.ToolRegistry.RecoverReconciled | src/pre_active/tools.py:406-440 | On a ledger in order: a COMMITTED row is answered from itself; for one reconciled as no effect the stored call is invoked exactly once and committed with the output if it is admissible and its arguments are an object, otherwise it fails with nothing written; unknown and unresolved requests are refused without a write. |
| EffectRegistry.ToolRegistry.Reconcile | src/pre_active/tools.py:442-507 | Succeeds exactly for an unresolved row, a 64-digit hex digest and a result exactly when the effect occurred; then the row gets state, result and digest and the entry is added, together; otherwise nothing changes. |
| TaskEngine.Engine.SubmitTask | src/pre_active/engine.py:90-104 | The run and its first event in one transaction, once per source event; it succeeds exactly when the source has the same run already or both identifiers are free. |
| TaskEngine.Engine.AcceptTask | src/pre_active/engine.py:145-175 | A malformed payload gets the rejection entry and no run; a well-formed one ends with the event bound to a run of the stripped task and exactly the listed capabilities if and only if that can be had; only then is the event DONE. |
| TaskEngine.Engine.Decide | src/pre_active/engine.py:200-215 | A stored decision is acted on if it can be read back, and the step goes to its retry if not; otherwise the model's answer is stored before it is acted on, and no answer goes to the retry. |
| TaskEngine.Engine.CallTool | src/pre_active/engine.py:216-273 | Message, execution, result, generation advance and acknowledgement in this order; it ends with the run at the next generation, blocked on an unresolved effect or FAILED without one, or raises with queue and runs as they were; a committed call whose messages fit is carried to the next generation without an invocation. |
| TaskEngine.Engine.Observe | src/pre_active/engine.py:261-292 | The result message, the next generation with its event at the delivered priority and the acknowledgement succeed exactly when the key is free or equal, the run is RUNNING at this generation, its next event can be had and the lease is still owned. |
| TaskEngine.Engine.HandleToolError | src/pre_active/engine.py:236-260 | By the stored row: with an unresolved effect the run is BLOCKED_EFFECT on the request; without one a ToolError makes it FAILED and the event DONE, and any other exception changes neither run nor event and goes on. |
| TaskEngine.Engine.Finish | src/pre_active/engine.py:274-290 | The final message is durable before the run is COMPLETED with the text at the next count; it succeeds exactly when the message fits and the lease is owned. |
| TaskEngine.Engine.GiveUp | src/pre_active/engine.py:293-301 | The error is noted on the run and nothing else of it; the owned event is PENDING again with no owner after the back-off of its attempts. |
| TaskEngine.Engine.Advance | src/pre_active/engine.py:180-197 | A stale or stopped run is acknowledged unchanged, one at the limit becomes FAILED, an unknown one raises; at its generation below the limit the step is closed by its stored decision, or noted and retried with back-off. |
| TaskEngine.Engine.RunOnce | src/pre_active/engine.py:137-301 | Claims a best eligible event, or does nothing exactly when there is none; performs one uninterrupted delivery of the protocol whose return value, event and run are determined by kind of event and rows; (S, distinct ids) a run whose stored decision's request is COMMITTED is carried to the next generation without the handler. |
| TaskEngine.Engine.ResumeBlockedEffect | src/pre_active/engine.py:118-135 | A statement sequence of the protocol; no write for a run that is not blocked. (S, distinct ids) On a COMMITTED request it succeeds exactly when the id is not empty; on one reconciled as no effect exactly when also the stored arguments are an object and the handler, invoked exactly once with the stored call, returns; success makes the run RUNNING at the next generation with its event. |
| TaskEngine.ResumeProceeds | src/pre_active/engine.py:118-135 | (S, distinct ids) In every reachable state a run blocked on a COMMITTED or no-effect request can be resumed, RUNNING at the next generation with its event PENDING, if and only if the request id is not empty and, for the latter, the stored arguments are an object. |
| Replay.ReplayStarts | src/pre_active/engine.py:199-273 | (S, distinct ids) When a run's decided mutation is COMMITTED already, the claim of its redelivered event finds everything that its replay needs: the call admissible, both messages free or equal, the next event free, the step below the limit. |
| Recovery.RetryWrites | src/pre_active/engine.py:127-135 | (S, distinct ids) Once the handler of a request reconciled as no effect has returned and is COMMITTED, the recovered message and the resume transaction both succeed. |
| AdmittedCalls.AlwaysAdmissible | src/pre_active/tools.py:316-373 | (S, distinct ids) Every stored decision whose request has a ledger row is admissible for its run, so replay and retry are never refused. |
| FailureLaw.FailedOnlyBy | src/pre_active/engine.py:189-260 | (M) A run becomes FAILED only if a delivery found it RUNNING at its generation and at max_steps, or a ToolError was raised around its call (refused call, read-only handler, failed mutation handler) and its handler found no open effect of the call; never by another exception. |
| TaskEngine.DeliveryReaches | src/pre_active/engine.py:137-301 | What `RunOnce` did is a piece of an execution of the whole system, whatever the other processes are at. |
| TaskEngine.ResumeReaches | src/pre_active/engine.py:118-135 | The same for `ResumeBlockedEffect`. |
| StoredDecisions.DecisionReadBack | src/pre_active/engine.py:35-65 | A retry reads back exactly the stored decision if and only if a tool call's arguments are an object. |
| StoredDecisions.StoredOnce | src/pre_active/store.py:456-474 | Comparing the stored text of decisions compares the decisions. |
| Growth.NothingRewritten | src/pre_active/store.py:171-589 | (M) Between any two points of any execution stored decisions, identities and bindings stay, transcripts and journal only grow, generations only rise, DONE rows are final. |
| QueueSafety.NoStrandedRun | src/pre_active/engine.py:180-301 | (M) In every reachable state a RUNNING run at generation s has exactly one PENDING or CLAIMED `run.step` event for s, and no event is ahead of its run. |
| QueueSafety.AnsweredOnce | src/pre_active/engine.py:145-175 | (M) A DONE `task.requested` event has its run, with the stripped task and exactly the listed capabilities, if its payload is well formed, and its EVENT_REJECTED entry if not; no event ever has two runs and no dedup key two events. |
| TaskRequests.RequestOutcome | src/pre_active/engine.py:145-175 | (M) A DONE request is rejected if and only if it is malformed; unless a host names the event as a source of its own, it has a run if and only if it is well formed. |
| LeaseSafety.LeaseDiscipline | src/pre_active/store.py:557-668 | (M) Claims with no release between are at least a lease apart; only the last claimant acknowledges or fails; DONE is last; attempts equal the EVENT_CLAIMED entries. |
| LeaseSafety.AttemptsCounted | src/pre_active/store.py:639-654 | (M) The attempts of every event, never claimed ones included, equal its EVENT_CLAIMED entries. |
| LeaseSafety.RetryRate | src/pre_active/engine.py:293-301 | (M) After k failed attempts the next claim comes at least the sum of the first k back-offs after the first, 60k - 238 seconds from k = 5 on. |
| AdmissionSafety.InvocationsAdmitted | src/pre_active/tools.py:316-440 | (M) Every handler invocation, recovered ones included, has a granted capability and schema-satisfying arguments; two mutation invocations with one request id are the same call. |
| SoloTheorems.EffectsNotRepeated | src/pre_active/tools.py:336-507 | (S) The handler of a mutation request is invoked at most once, plus once for each reconciliation that confirmed no effect. |
| SoloTheorems.ResultsStable | src/pre_active/tools.py:342-440 | (S) All successes of a mutation request, executed, replayed or recovered, give one output and digest, those of its COMMITTED row. |
| SoloTheorems.LedgerPath | src/pre_active/tools.py:336-504 | (S) Every change of a ledger row is an edge of the effect state graph. |
| SoloTheorems.CommittedIsFinal | src/pre_active/tools.py:342-392 | (S) A COMMITTED row, result and digest included, never changes again. |
| SoloTheorems.CommittedNotInvoked | src/pre_active/tools.py:342-350 | (S) Once a request is COMMITTED its handler is never invoked again. |
| SoloTheorems.DecisionFence | src/pre_active/engine.py:189-215 | (S) A run at generation s has stored decisions for exactly 0..s-1 or 0..s, all below max_steps, never rewritten, s never exceeds max_steps, and a COMPLETED run's result is the text of its last decision. |
| SoloTheorems.RecoveryBarrier | src/pre_active/engine.py:236-248 | (S) A blocked run names a ledger row that is the request of its stored decision, and no delivery is at the model or a handler for it. |
| SoloTheorems.BarrierHolds | src/pre_active/engine.py:118-135 | (S) A blocked run stays blocked on that request until a step finds it COMMITTED and makes the run RUNNING at the next generation. |
| Drain.DeliveryLowers | src/pre_active/engine.py:137-292 | (S) Every `run_once` that claims an event and raises nothing strictly lowers a potential over the live events. |
| Drain.QueueDrains | src/pre_active/engine.py:137-292 | (S) Without new submissions there are at most as many such deliveries as the potential says. |
| Drain.DrainedIsStopped | src/pre_active/store.py:358-390 | (M) With no live event left every run is COMPLETED, FAILED or BLOCKED_EFFECT. |
| TranscriptRefinement.CrashFreeRefinement | src/pre_active/engine.py:216-290 | (S, distinct ids) Every step, crash and redelivery included, is for each run a step of the machine that never crashes, or changes nothing of its story. |
| TranscriptRefinement.TranscriptShape | src/pre_active/store.py:488-515 | (S, distinct ids) Message 2k is the stored decision of step k and 2k+1 its one result, committed for a mutation; every step passed has both, the current one a prefix. |
| TranscriptRefinement.KeysOnce | src/pre_active/store.py:488-515 | (S, distinct ids) No message key occurs twice in a transcript. |
| TranscriptRefinement.StoryKeeps | src/pre_active/engine.py:118-135 | The machine that never crashes keeps the transcript's shape. |
| Schedules.NeverSkipped | src/pre_active/scheduler.py:43-82 | (M) `next_at` is always a point of its grid, and each earlier point has exactly one event with the schedule's work. |
| Schedules.NeverEarly | src/pre_active/scheduler.py:59-69 | (M) An occurrence event belongs to a grid point, was enqueued at or after it, and is the point's only event. |
| Schedules.OccurrenceToRun | src/pre_active/scheduler.py:59-69 | (M) No two runs are bound to one occurrence, and a DONE occurrence request has been answered. |
| IntervalScheduler.Scheduler.AddInterval | src/pre_active/scheduler.py:14-41 | Only a positive interval is accepted; the new row starts at first_at. |
| IntervalScheduler.Scheduler.DueRows | src/pre_active/scheduler.py:45-48 | Exactly the enabled due rows, each once, ordered by next_at. |
| IntervalScheduler.Scheduler.Collect | src/pre_active/scheduler.py:50-58 | The due points of one row that still fit, and the point after them. |
| IntervalScheduler.Scheduler.EmitRow | src/pre_active/scheduler.py:59-69 | Each occurrence of a row has its event under its own key with the schedule's work and priority 0; a new one is available at the occurrence; no other event changes. |
| IntervalScheduler.Scheduler.Tick | src/pre_active/scheduler.py:43-82 | A statement sequence of the protocol; on a consistent store it accounts for exactly min(cap, total backlog) occurrences and leaves the rest. |
| IntervalScheduler.OccurrencesCount | src/pre_active/scheduler.py:54-58 | The inner loop takes min(room, floor((now - next_at)/every) + 1) points and lowers the row's backlog by as many. |
| IntervalScheduler.Scheduler.TickRepeatedly | src/pre_active/scheduler.py:43-82 | n ticks at a fixed time leave max(0, backlog - n * cap); they empty the backlog exactly when n is at least ceil(backlog / cap). |
| IntervalScheduler.AlwaysConsistent | src/pre_active/scheduler.py:14-69 | (M) Every reachable store is consistent, which is what `Tick` asks for its accounting. |
| IntervalScheduler.TickReaches | src/pre_active/scheduler.py:43-82 | What `Tick` did is a piece of an execution of the whole system. |
| LateWrites.OnlyLateWrites | src/pre_active/tools.py:351-392 | (M) A COMMITTED row changes if and only if the statement is an unguarded write for the same request: a handler's failure, a rearming, or an output other than the stored result. |
| LateWrites.CommittedFinalExactly | src/pre_active/tools.py:336-398 | (M) A COMMITTED row never changes again if and only if no process is about to overwrite it or inside its handler. |
| LateWrites.SafeReconciliation | src/pre_active/tools.py:442-507 | (M) If no process is inside the ledger's bracket around a request when a host confirms its effect, the confirmed result is final. |
| LateWrites.OnlyLateUpdates | src/pre_active/store.py:332-356 | (M) The row of a COMPLETED or FAILED run changes if and only if the statement is an unguarded `update_run` for it whose columns differ from the stored ones. |
| HeldLeases.StepBoundHeld | src/pre_active/engine.py:189-301 | (M, leases held) While every delivery's statements are done by the owner of its event no run passes max_steps. |
| HeldLeases.StoppedStays | src/pre_active/store.py:332-356 | (M, leases held) A stopped run keeps its status, generation and result; its whole row if no exception strikes between a closing write and its acknowledgement. |
| Limits.LateHandlerOverwrites | src/pre_active/tools.py:374-392 | (M) There is an execution in which a late handler overwrites a reconciled COMMITTED result. |
| Limits.CompletedTwice | src/pre_active/store.py:332-356 | (M) There is an execution in which a run is completed twice and ends a generation beyond its last decision. |
| Witnesses.LateErrorNoted | src/pre_active/engine.py:291-294 | Even one worker that keeps its lease notes an error on a completed run when the acknowledgement raises. |
| Witnesses.EmptyRequestBlocks | src/pre_active/engine.py:118-121 | (S, distinct ids) A run blocked on the empty request id is reached, and no resume of it ever starts. |
| Witnesses.EmptyRequestCommitted | src/pre_active/engine.py:118-121 | (S, distinct ids) The same with the request COMMITTED, so recovery has something to recover and does not. |
| Witnesses.ExecutingReconciled | src/pre_active/tools.py:460-504 | (S, distinct ids) An EXECUTING row is reconciled, to COMMITTED or to RECONCILED_NO_EFFECT, in one reached step. |
| Witnesses.NoEffectReconciled | src/pre_active/tools.py:460-504 | (S, distinct ids) For every admissible mutation the state is reached in which its run is blocked and its request reconciled as no effect. |
| Witnesses.CommittedBeforeCrash | src/pre_active/tools.py:383-392 | (S, distinct ids) The state is reached in which the process died between a commit and its result message, from which the redelivery replays. |
| SchemaValidator.CheckSupportedSchema | src/pre_active/tools.py:92-148 | Accepts exactly the schemas of the supported subset, and ends on every JSON value. |
| SchemaValidator.ValidateSchemaValue | src/pre_active/tools.py:177-255 | On every supported schema, accepts a value exactly when it satisfies the schema as a relation, and never reads a malformed keyword. |
| SchemaValidator.SchemaAccepts | src/pre_active/tools.py:169-174 | The same verdict with the exception turned into false. |
| SchemaValidator.AcceptOne | src/pre_active/tools.py:196-197 | The count of accepting branches is one exactly when one branch and no other is satisfied. |
| SchemaValidator.DistinctCount | src/pre_active/tools.py:230-233 | As many different items as items exactly when no two are equal. |
| SchemaValidator.QuotientIsWhole | src/pre_active/tools.py:251-255 | The quotient test holds exactly when the number is an integer multiple of the divisor. |
| ToolTags.MatcherIsRegex | ops/windows/tool_protocol.py:13-20 | The left-to-right matcher matches exactly when the expression can be read at all, and takes the reading a backtracking engine prefers. |
| Envelope.FunctionSpecs | ops/windows/tool_protocol.py:28-42 | Succeeds exactly when all declarations are well formed with different names; each name is bound to its declaration. |
| Envelope.CoercedHasType | ops/windows/tool_protocol.py:45-98 | A coerced parameter has one of its declared types, as the registry's validator sees types. |
| Envelope.AnyCoerced | ops/windows/tool_protocol.py:49-59 | A type list takes the value of its first candidate that does not refuse. |
| Envelope.IntegersCoerced | ops/windows/tool_protocol.py:63-66 | The decimal text of any integer, signed or not, with white space around it, becomes that integer. |
| Coercions.CoercionMeaning | ops/windows/tool_protocol.py:45-98 | For every declared type, one name or a list, and any white space around the text, the coercion gives exactly what a relation between trimmed texts and values says: the text itself, numerals with sign and leading zeros, "true", "false" and "null" in any letter case, the decoder's number, object or array; a refusal exactly when there is no such value. |
| Coercions.ArgumentMeaning | ops/windows/tool_protocol.py:153-168 | A declared property gives what its type says, text when it names none; another name gives its text, or a refusal when additional properties are forbidden. |
| Envelope.GatherArguments | ops/windows/tool_protocol.py:146-168 | The loop over the parameters computes the specified arguments and stops at the first failure. |
| Envelope.GatherMeaning | ops/windows/tool_protocol.py:146-168 | There are arguments exactly when all names differ and every parameter is coerced; they map each name to its value. |
| Envelope.GatherCrash | ops/windows/tool_protocol.py:148-168 | The TypeError of an unhashable type keyword escapes exactly when that parameter is the first one to fail. |
| Envelope.ParseQwenResponse | ops/windows/tool_protocol.py:101-186 | Text is returned only without any of the six markers, trimmed and not blank; a call only for exactly one match; otherwise the specified meaning of the text. |
| EnvelopeRoundTrip.PlainTextMeaning | ops/windows/tool_protocol.py:110-118 | A response is plain text if and only if it has none of the six markers and is not blank. |
| EnvelopeRoundTrip.ParseInvertsWrite | ops/windows/tool_protocol.py:101-186 | For every tool and parameter list, with its own white space in every gap, the written envelope means exactly that tool with those parameters. |
| EnvelopeRoundTrip.CalledMeaning | ops/windows/tool_protocol.py:119-182 | A call is accepted if and only if the tool is known, the parameters are distinct and coercible and all required ones are there; its map is each parameter's coerced value and nothing else. |
| EnvelopeRoundTrip.KnownToolCalled | ops/windows/tool_protocol.py:101-186 | Hence the written envelope of such a call, and of no other, is parsed as that tool with the coerced map. |
| TypedCalls.TypedCall | ops/windows/tool_protocol.py:101-186 | A written envelope is parsed as a call if and only if the tool is known, names differ, required ones are there and each text spells a value of its declared type; the arguments are those values. |
| TypedCalls.TypedRoundTrip | ops/windows/tool_protocol.py:101-186 | Typed values written by any spelling of theirs, with any white space, come back as the arguments of the call. |
| TypedCalls.DeclarationReading | ops/windows/tool_protocol.py:134-140 | A schema, its properties and its required list count only when present and not an empty value. |
| EnvelopeRoundTrip.MarkupInSuffix | ops/windows/tool_protocol.py:124-127 | Markup after a complete envelope is rejected, whatever stands before it. |
| EnvelopeRoundTrip.TwoEnvelopesRejected | ops/windows/tool_protocol.py:120-121 | Two adjacent envelopes are rejected, whatever stands before and after them. |
| ContextBudget.ContextAssembler.Build | src/pre_active/context.py:14-37 | The joined result is at most max(max_chars, len(system) + 1) long; the system prompt is whole, the task cut only when the two required messages overflow, the memory lines are the greedy choice and are never trimmed. |
| ContextBudget.ContextAssembler.TrimRequired | src/pre_active/context.py:39-51 | Messages are dropped from the end only while the total is over the budget; then only the task is cut, to what the system prompt leaves. |
| ContextBudget.GreedyUnique | src/pre_active/context.py:25-32 | There is only one greedy choice, so `Build` is determined. |
| ContextBudget.TotalIsJoined | src/pre_active/context.py:40-42 | The budgeted total is the length of the newline-joined text. |

## Left out

- SQLite itself, WAL, schema creation and column migrations: tables are maps, transactions are atomic.
- Model inference, HTTP, the Qwen server, the provider adapter, the command line and the supervisors: plumbing around the modelled calls. `Daemon.cycle` is a tick followed by `run_once`.
- The messages sent to the model (`_messages_for_run`, `list_run_messages`, `specs`): the model's answer is an arbitrary input, so nothing proved depends on them.
- `search_memories` and memory relevance: its result is an input of `Build`.
- `to_openai_message` and the request id minted by the parser: formatting.
- Texts of error messages; rejections are one value, and the TypeError of an unhashable type keyword is kept apart from them.
- `updated_at`, and `created_at` outside `events`: no property depends on them.
- Direct use of `create_run` without the initial step, of raw `update_run` and of hand-edited tables: no action of the environment does it. One-shot schedule rows have no producer; `Tick` handles them, the theorems about executions have none.
- Truth of reconciliation evidence: the code checks its shape only.
- A handler whose result is not JSON: it leaves an EXECUTING row, as a crash at that point does.
- Floating-point rounding of times, infinities, and the length limit of Python's integer parsing.
- EffectRegistry.ToolRegistry.RecoverReconciled: does not say which exception stored arguments that are not an object raise; with or without one there is no invocation and no write.
- Envelope.IntegersCoerced: does not cover decimal digits outside ASCII, which `\d` also accepts.
- Envelope.CoercedHasType: takes the number and JSON parsers as given, so it says nothing about which texts they accept.
- StoredDecisions.DecisionReadBack: identifiers that are not text are treated as unreadable; the source converts them, but never stores them.
