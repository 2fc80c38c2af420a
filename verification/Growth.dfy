/** What every statement of every process leaves true: identities are never rewritten, histories
    only grow, a run that has left a generation never comes back to it, a lease is only touched
    by its owner or a new claimant. This is the rely and the guarantee of each process. */
module Growth {
  import opened Basics
  import opened JsonValues
  import opened Tables
  import opened Protocol

  /** The run is past generation `step`, or stopped in it. */
  predicate Left(runs: map<string, RunRow>, run: string, step: nat) {
    && run in runs
    && (runs[run].stepCount > step || (runs[run].stepCount == step && runs[run].status != RUNNING))
  }

  predicate EventKept(a: EventRow, b: EventRow) {
    && a.work == b.work && a.priority == b.priority && a.dedup == b.dedup && a.createdAt == b.createdAt
    && (a.status == DONE ==> b == a)
    && a.attempts <= b.attempts
  }

  ghost predicate EventsGrow(a: map<string, EventRow>, b: map<string, EventRow>) {
    forall e | e in a :: e in b && EventKept(a[e], b[e])
  }

  predicate RunKept(a: RunRow, b: RunRow) {
    && a.task == b.task && a.capabilities == b.capabilities && a.source == b.source
    && a.stepCount <= b.stepCount
    && (a.stepCount == b.stepCount && a.status != RUNNING ==> b.status != RUNNING)
  }

  ghost predicate RunsGrow(a: map<string, RunRow>, b: map<string, RunRow>) {
    forall r | r in a :: r in b && RunKept(a[r], b[r])
  }

  predicate EffectKept(a: EffectRow, b: EffectRow) {
    a.tool == b.tool && a.requestDigest == b.requestDigest && a.request == b.request
  }

  ghost predicate EffectsGrow(a: map<string, EffectRow>, b: map<string, EffectRow>) {
    forall q | q in a :: q in b && EffectKept(a[q], b[q])
  }

  ghost predicate MessagesGrow(a: map<string, seq<Message>>, b: map<string, seq<Message>>) {
    forall r | r in a :: r in b && a[r] <= b[r]
  }

  ghost predicate SubMap<K, V>(a: map<K, V>, b: map<K, V>) {
    forall k | k in a :: k in b && b[k] == a[k]
  }

  predicate ScheduleKept(a: ScheduleRow, b: ScheduleRow) {
    a.work == b.work && a.every == b.every
  }

  ghost predicate SchedulesGrow(a: map<string, ScheduleRow>, b: map<string, ScheduleRow>) {
    forall id | id in a :: id in b && ScheduleKept(a[id], b[id])
  }

  ghost predicate Grows(a: Database, b: Database) {
    && EventsGrow(a.events, b.events) && SubMap(a.eventKeys, b.eventKeys)
    && RunsGrow(a.runs, b.runs) && SubMap(a.runSources, b.runSources)
    && SubMap(a.decisions, b.decisions) && MessagesGrow(a.messages, b.messages)
    && EffectsGrow(a.effects, b.effects)
    && a.reconciliations <= b.reconciliations
    && SchedulesGrow(a.schedules, b.schedules)
    && a.journal <= b.journal
  }

  /** Process `p` is the only one that may touch what `p` owns, except by a new claim. */
  ghost predicate LeasesKept(p: string, a: map<string, EventRow>, b: map<string, EventRow>) {
    forall e | e in a && e in b && b[e].leaseOwner.Some? && b[e].leaseOwner != Some(p) ::
      && b[e].leaseOwner == a[e].leaseOwner && b[e].leaseUntil == a[e].leaseUntil
      && b[e].attempts == a[e].attempts
  }

  lemma GrowsReflexive(db: Database)
    ensures Grows(db, db)
  {
  }

  lemma GrowsTransitive(a: Database, b: Database, c: Database)
    requires Grows(a, b) && Grows(b, c)
    ensures Grows(a, c)
  {
  }

  lemma Compose(a: Database, b: Database, c: Option<Database>)
    requires Grows(a, b) && (c.Some? ==> Grows(b, c.value))
    ensures c.Some? ==> Grows(a, c.value)
  {
    if c.Some? { GrowsTransitive(a, b, c.value); }
  }

  // ---- one lemma per statement ----------------------------------------------------------

  lemma LogGrows(db: Database, entry: JournalEntry)
    ensures Grows(db, Log(db, entry))
  {
    GrowsReflexive(db);
    hide EventsGrow, RunsGrow, MessagesGrow, EffectsGrow, SchedulesGrow, SubMap;
  }

  lemma EnqueueGrows(db: Database, newId: string, work: Work, priority: int, dedup: Option<DedupKey>,
                     now: int, availableAt: int)
    ensures var r := Enqueue(db, newId, work, priority, dedup, now, availableAt);
      r.Inserted? ==> Grows(db, r.db)
  {
    GrowsReflexive(db);
    hide RunsGrow, MessagesGrow, EffectsGrow, SchedulesGrow;
  }

  lemma EnqueueStepGrows(db: Database, newId: string, run: string, step: nat, priority: int, now: int)
    ensures var r := EnqueueStep(db, newId, run, step, priority, now); r.Some? ==> Grows(db, r.value)
  {
    hide Grows;
    GrowsReflexive(db);
    EnqueueGrows(db, newId, RunStep(run, step), priority, Some(RunStepKey(run, step)), now, now);
    var r := Enqueue(db, newId, RunStep(run, step), priority, Some(RunStepKey(run, step)), now, now);
    if r.Inserted? {
      LogGrows(r.db, EventEnqueued(r.id, now));
      Compose(db, r.db, Some(Log(r.db, EventEnqueued(r.id, now))));
    }
  }

  lemma ClaimGrows(db: Database, id: string, worker: string, now: int, lease: int)
    requires id in db.events && db.events[id].status != DONE
    ensures Grows(db, Claim(db, id, worker, now, lease))
  {
    GrowsReflexive(db);
    hide RunsGrow, MessagesGrow, EffectsGrow, SchedulesGrow, SubMap;
  }

  lemma AcknowledgeGrows(db: Database, id: string, worker: string)
    ensures var r := Acknowledge(db, id, worker); r.Some? ==> Grows(db, r.value)
  {
    GrowsReflexive(db);
    hide RunsGrow, MessagesGrow, EffectsGrow, SchedulesGrow, SubMap;
  }

  lemma RequeueGrows(db: Database, id: string, worker: string, retryAt: int)
    ensures var r := Requeue(db, id, worker, retryAt); r.Some? ==> Grows(db, r.value)
  {
    GrowsReflexive(db);
    hide RunsGrow, MessagesGrow, EffectsGrow, SchedulesGrow, SubMap;
  }

  lemma CreateRunGrows(db: Database, newRun: string, task: string, capabilities: set<string>, source: Option<string>)
    ensures var r := CreateRun(db, newRun, task, capabilities, source); r.Some? ==> Grows(db, r.value.db)
  {
    GrowsReflexive(db);
    hide EventsGrow, MessagesGrow, EffectsGrow, SchedulesGrow;
  }

  lemma CreateGrows(db: Database, newRun: string, newEvent: string, task: string, capabilities: set<string>,
                    source: Option<string>, priority: int, now: int)
    ensures var r := CreateRunWithInitialStep(db, newRun, newEvent, task, capabilities, source, priority, now);
      r.Some? ==> Grows(db, r.value.db)
  {
    hide Grows, CreateRun;
    CreateRunGrows(db, newRun, task, capabilities, source);
    var created := CreateRun(db, newRun, task, capabilities, source);
    if created.Some? {
      EnqueueStepGrows(created.value.db, newEvent, created.value.run, 0, priority, now);
      Compose(db, created.value.db, EnqueueStep(created.value.db, newEvent, created.value.run, 0, priority, now));
    }
  }

  lemma SetRunGrows(db: Database, run: string, row: RunRow)
    requires run in db.runs && RunKept(db.runs[run], row)
    ensures Grows(db, db.(runs := db.runs[run := row]))
  {
    GrowsReflexive(db);
    hide EventsGrow, MessagesGrow, EffectsGrow, SchedulesGrow, SubMap;
  }

  lemma UpdateRunGrows(db: Database, run: string, status: Option<RunStatus>, finalText: Option<string>,
                       lastError: Option<string>, clearLastError: bool, incrementStep: bool)
    requires status != Some(RUNNING)
    ensures Grows(db, UpdateRun(db, run, status, finalText, lastError, clearLastError, incrementStep))
  {
    if run in db.runs {
      SetRunGrows(db, run, UpdateRun(db, run, status, finalText, lastError, clearLastError, incrementStep).runs[run]);
    }
  }

  lemma AdvanceGrows(db: Database, run: string, step: nat, newEvent: string, priority: int, now: int)
    ensures var r := AdvanceRunStep(db, run, step, newEvent, priority, now); r.Some? ==> Grows(db, r.value)
  {
    hide Grows;
    if run in db.runs && db.runs[run].status == RUNNING && db.runs[run].stepCount == step {
      var row := db.runs[run].(stepCount := step + 1, lastError := None);
      SetRunGrows(db, run, row);
      var db1 := db.(runs := db.runs[run := row]);
      EnqueueStepGrows(db1, newEvent, run, step + 1, priority, now);
      Compose(db, db1, EnqueueStep(db1, newEvent, run, step + 1, priority, now));
    }
  }

  lemma BlockGrows(db: Database, run: string, request: string, error: string)
    ensures var r := BlockRun(db, run, request, error); r.Some? ==> Grows(db, r.value)
  {
    GrowsReflexive(db);
    hide EventsGrow, MessagesGrow, EffectsGrow, SchedulesGrow, SubMap;
  }

  lemma ResumeGrows(db: Database, run: string, newEvent: string, priority: int, now: int)
    ensures var r := ResumeRun(db, run, newEvent, priority, now); r.Some? ==> Grows(db, r.value)
  {
    hide Grows;
    if run in db.runs && db.runs[run].status == BLOCKED_EFFECT {
      var next := db.runs[run].stepCount + 1;
      var row := db.runs[run].(status := RUNNING, blockedRequest := None, lastError := None, stepCount := next);
      SetRunGrows(db, run, row);
      var db1 := db.(runs := db.runs[run := row]);
      var db2 := Log(db1, RunEffectRecovered(run, next, now));
      LogGrows(db1, RunEffectRecovered(run, next, now));
      EnqueueStepGrows(db2, newEvent, run, next, priority, now);
      Compose(db1, db2, EnqueueStep(db2, newEvent, run, next, priority, now));
      Compose(db, db1, EnqueueStep(db2, newEvent, run, next, priority, now));
    }
  }

  lemma RecordDecisionGrows(db: Database, run: string, step: nat, decision: Decision)
    ensures var r := RecordDecision(db, run, step, decision); r.Some? ==> Grows(db, r.value)
  {
    GrowsReflexive(db);
    hide EventsGrow, RunsGrow, MessagesGrow, EffectsGrow, SchedulesGrow;
  }

  lemma RecordMessageGrows(db: Database, run: string, message: Message)
    ensures var r := RecordMessage(db, run, message); r.Some? ==> Grows(db, r.value)
  {
    GrowsReflexive(db);
    hide EventsGrow, RunsGrow, EffectsGrow, SchedulesGrow, SubMap;
  }

  lemma AdmitEffectGrows(db: Database, call: Call)
    ensures var r := AdmitEffect(db, call); r.Some? ==> Grows(db, r.value)
  {
    GrowsReflexive(db);
    hide EventsGrow, RunsGrow, MessagesGrow, SchedulesGrow, SubMap;
  }

  lemma SetEffectRowGrows(db: Database, request: string, row: EffectRow)
    requires request in db.effects && EffectKept(db.effects[request], row)
    ensures Grows(db, db.(effects := db.effects[request := row]))
  {
    GrowsReflexive(db);
    hide EventsGrow, RunsGrow, MessagesGrow, SchedulesGrow, SubMap;
  }

  lemma SetEffectGrows(db: Database, request: string, state: EffectState, result: Option<Json>)
    ensures Grows(db, SetEffect(db, request, state, result))
  {
    GrowsReflexive(db);
    if request in db.effects {
      SetEffectRowGrows(db, request, SetEffect(db, request, state, result).effects[request]);
    }
  }

  lemma MarkUnknownGrows(db: Database, request: string)
    ensures Grows(db, MarkUnknown(db, request))
  {
    GrowsReflexive(db);
    if request in db.effects {
      SetEffectRowGrows(db, request, MarkUnknown(db, request).effects[request]);
    }
  }

  lemma ReconcileGrows(db: Database, request: string, effectOccurred: bool, evidence: string, result: Option<Json>)
    ensures var r := Reconcile(db, request, effectOccurred, evidence, result); r.Some? ==> Grows(db, r.value)
  {
  }

  lemma SetNextAtGrows(db: Database, id: string, nextAt: int)
    ensures Grows(db, SetNextAt(db, id, nextAt))
  {
    GrowsReflexive(db);
    hide EventsGrow, RunsGrow, MessagesGrow, EffectsGrow, SubMap;
  }

  lemma DisableGrows(db: Database, id: string)
    ensures Grows(db, DisableSchedule(db, id))
  {
    GrowsReflexive(db);
    hide EventsGrow, RunsGrow, MessagesGrow, EffectsGrow, SubMap;
  }

  lemma AddScheduleGrows(db: Database, id: string, work: Work, every: int, firstAt: int)
    ensures var r := AddSchedule(db, id, work, every, firstAt); r.Some? ==> Grows(db, r.value)
  {
    GrowsReflexive(db);
    hide EventsGrow, RunsGrow, MessagesGrow, EffectsGrow, SubMap;
  }

  // ---- every step of every process ------------------------------------------------------

  lemma EventStepGrows(p: string, pc: PC, db: Database, h: History, i: Input)
    requires EventPhase(pc)
    ensures Grows(db, EventStep(p, pc, db, h, i).db)
  {
    hide Grows, CreateRunWithInitialStep, Acknowledge, Requeue, AddLease, Backoff;
    GrowsReflexive(db);
    match pc
    case Rejecting(v) => LogGrows(db, EventRejected(v.event, v.now));
    case Submitting(v, task, capabilities) =>
      CreateGrows(db, i.newRun, i.newEvent, task, capabilities, Some(v.event), 0, v.now);
    case Acking(v, _) => AcknowledgeGrows(db, v.event, p);
    case AckJournaling(v) => LogGrows(db, EventAcked(v.event, p, v.now));
    case Requeueing(f) => RequeueGrows(db, f.visit.event, p, f.visit.now + Backoff(f.visit.attempts));
    case RequeueJournaling(f) =>
      LogGrows(db, EventRetryScheduled(f.visit.event, p, f.visit.now + Backoff(f.visit.attempts), f.visit.now));
    case EnqueueJournaling(event, now) => LogGrows(db, EventEnqueued(event, now));
  }

  lemma DecisionStepGrows(s: Settings, pc: PC, db: Database, h: History, i: Input)
    requires DecisionPhase(pc)
    ensures Grows(db, DecisionStep(s, pc, db, h, i).db)
  {
    hide Grows, AfterLoad, Act, RecordDecision, RecordMessage;
    GrowsReflexive(db);
    if pc.FailingMaxSteps? {
      UpdateRunGrows(db, pc.run, Some(FAILED), None, Some("max_steps exceeded"), false, false);
    } else if pc.RecordingDecision? {
      RecordDecisionGrows(db, pc.frame.run, pc.frame.step, pc.decision);
    } else if pc.RecordingCall? {
      RecordMessageGrows(db, pc.frame.run, CallMessage(pc.frame, pc.call));
    } else if pc.RecordingFinal? {
      RecordMessageGrows(db, pc.frame.run, FinalMessage(pc.frame, pc.text));
    }
  }

  lemma ClosingStepGrows(pc: PC, db: Database, h: History, i: Input)
    requires ClosingPhase(pc)
    ensures Grows(db, ClosingStep(pc, db, h, i).db)
  {
    hide Grows, AdvanceRunStep, BlockRun, ResumeRun, UpdateRun;
    GrowsReflexive(db);
    match pc
    case Advancing(f) => AdvanceGrows(db, f.run, f.step, i.newEvent, f.visit.priority, f.visit.now);
    case Completing(f, text) => UpdateRunGrows(db, f.run, Some(COMPLETED), Some(text), None, true, true);
    case Blocking(f, request) => BlockGrows(db, f.run, request, i.text);
    case BlockJournaling(f, request) => LogGrows(db, RunBlockedEffect(f.run, request, f.visit.now));
    case FailingTool(f) => UpdateRunGrows(db, f.run, Some(FAILED), None, Some(i.text), false, false);
    case NotingError(f) => UpdateRunGrows(db, f.run, None, None, Some(i.text), false, false);
    case Resuming(run, now) => ResumeGrows(db, run, i.newEvent, 0, now);
  }

  lemma ToolStepGrows(s: Settings, pc: PC, db: Database, h: History, i: Input)
    requires ToolPhase(pc)
    ensures Grows(db, ToolStep(s, pc, db, h, i).db)
  {
    hide Grows, AfterLookup, AfterRecovery, AfterRaise, AdmitEffect, SetEffect, MarkUnknown, RecordMessage;
    GrowsReflexive(db);
    if pc.Admitting? {
      AdmitEffectGrows(db, pc.call);
    } else if pc.Rearming? {
      SetEffectGrows(db, pc.call.request, EXECUTING, None);
    } else if pc.Committing? {
      SetEffectGrows(db, pc.call.request, COMMITTED, Some(pc.output));
    } else if pc.MarkingUnknown? {
      MarkUnknownGrows(db, pc.call.request);
    } else if pc.Returned? && pc.caller.FromStep? {
      RecordMessageGrows(db, pc.caller.frame.run, ResultMessage(pc.caller.frame, pc.call, pc.output));
    } else if pc.Returned? {
      RecordMessageGrows(db, pc.caller.run, ReconciledMessage(pc.call, pc.output));
    }
  }

  lemma TickStepGrows(pc: PC, db: Database, h: History, i: Input)
    requires TickPhase(pc)
    ensures Grows(db, TickStep(pc, db, h, i).db)
  {
    hide Grows, Enqueue, SetNextAt, DisableSchedule, Occurrences;
    GrowsReflexive(db);
    if pc.EmitJournaling? {
      LogGrows(db, EventEnqueued(pc.event, pc.tick.now));
    } else if pc.Emitting? && pc.pending == [] {
      SetNextAtGrows(db, pc.due.id, pc.nextAt);
      DisableGrows(db, pc.due.id);
    } else if pc.Emitting? {
      var at := pc.pending[0];
      EnqueueGrows(db, i.newEvent, pc.due.row.work, 0, Some(OccurrenceKey(pc.due.id, at)), pc.tick.now, at);
    }
  }

  lemma NextGrows(s: Settings, p: string, pc: PC, db: Database, h: History, i: Input)
    ensures Grows(db, Next(s, p, pc, db, h, i).db)
  {
    hide Grows;
    hide EventStep, DecisionStep, ClosingStep, ToolStep, TickStep;
    GrowsReflexive(db);
    if EventPhase(pc) {
      EventStepGrows(p, pc, db, h, i);
    } else if DecisionPhase(pc) {
      DecisionStepGrows(s, pc, db, h, i);
    } else if ClosingPhase(pc) {
      ClosingStepGrows(pc, db, h, i);
    } else if ToolPhase(pc) {
      ToolStepGrows(s, pc, db, h, i);
    } else if TickPhase(pc) {
      TickStepGrows(pc, db, h, i);
    }
  }

  /** No action of any process or of the host breaks the guarantee. */
  lemma ApplyGrows(s: Settings, c: Config, a: Action, i: Input)
    requires Enabled(c, a, i)
    ensures Grows(c.db, Apply(s, c, a, i).db)
  {
    hide Grows, Next;
    GrowsReflexive(c.db);
    match a
    case Work(p) => NextGrows(s, p, Pc(c, p), c.db, c.hist, i);
    case ClaimNext(p) => if i.choice.Some? { ClaimGrows(c.db, i.choice.value, p, i.now, s.lease); }
    case HostEnqueue(p, work, priority, dedup, at) =>
      EnqueueGrows(c.db, i.newEvent, work, priority, dedup, i.now, if at.Some? then at.value else i.now);
    case HostSubmit(task, capabilities, source) =>
      CreateGrows(c.db, i.newRun, i.newEvent, task, capabilities, source, 0, i.now);
    case HostReconcile(request, occurred, evidence, result) =>
      ReconcileGrows(c.db, request, occurred, evidence, result);
    case AddInterval(id, work, every, firstAt) => AddScheduleGrows(c.db, id, work, every, firstAt);
    case Resume(_, _) =>
    case Tick(_, _, _) =>
    case Throw(_) =>
    case Crash(_) =>
  }

  // ---- what a phase does not touch ------------------------------------------------------

  predicate SameQueue(a: Database, b: Database) {
    && b.events == a.events && b.eventKeys == a.eventKeys && b.runs == a.runs
    && b.runSources == a.runSources && b.schedules == a.schedules && b.journal == a.journal
  }

  predicate SameLedger(a: Database, b: Database) {
    b.effects == a.effects && b.reconciliations == a.reconciliations
  }

  lemma RecordMessageFrame(db: Database, run: string, message: Message)
    ensures var r := RecordMessage(db, run, message);
      r.Some? ==>
        && SameQueue(db, r.value) && SameLedger(db, r.value) && r.value.decisions == db.decisions
        && (forall x | x != run :: Transcript(r.value, x) == Transcript(db, x))
  {
    hide FindKey;
  }

  lemma ToolMessageFrame(s: Settings, pc: PC, db: Database, h: History, i: Input)
    requires pc.Returned?
    ensures var r := ToolStep(s, pc, db, h, i);
      SameQueue(db, r.db) && r.db.decisions == db.decisions && SameLedger(db, r.db)
  {
    hide RecordMessage;
    if pc.caller.FromStep? {
      RecordMessageFrame(db, pc.caller.frame.run, ResultMessage(pc.caller.frame, pc.call, pc.output));
    } else {
      RecordMessageFrame(db, pc.caller.run, ReconciledMessage(pc.call, pc.output));
    }
  }

  lemma ToolStepFrame(s: Settings, pc: PC, db: Database, h: History, i: Input)
    requires ToolPhase(pc)
    ensures var r := ToolStep(s, pc, db, h, i);
      SameQueue(db, r.db) && r.db.decisions == db.decisions && r.db.reconciliations == db.reconciliations
  {
    hide AfterLookup, AfterRecovery, AfterRaise, RequestPayload, RecordMessage, AddCompletion, Granted, RunOf;
    if pc.Returned? {
      ToolMessageFrame(s, pc, db, h, i);
    }
  }

  lemma DecisionMessageFrame(s: Settings, pc: PC, db: Database, h: History, i: Input)
    requires pc.RecordingCall? || pc.RecordingFinal?
    ensures var r := DecisionStep(s, pc, db, h, i);
      SameQueue(db, r.db) && r.db.decisions == db.decisions && SameLedger(db, r.db)
  {
    hide RecordMessage;
    if pc.RecordingCall? {
      RecordMessageFrame(db, pc.frame.run, CallMessage(pc.frame, pc.call));
    } else {
      RecordMessageFrame(db, pc.frame.run, FinalMessage(pc.frame, pc.text));
    }
  }

  lemma DecisionStepFrame(s: Settings, pc: PC, db: Database, h: History, i: Input)
    requires DecisionPhase(pc) && !pc.FailingMaxSteps?
    ensures var r := DecisionStep(s, pc, db, h, i); SameLedger(db, r.db) && SameQueue(db, r.db)
  {
    hide AfterLoad, Act, RecordMessage, UpdateRun;
    if pc.RecordingCall? || pc.RecordingFinal? {
      DecisionMessageFrame(s, pc, db, h, i);
    }
  }

  predicate SameTranscripts(a: Database, b: Database) {
    b.decisions == a.decisions && b.messages == a.messages
  }

  predicate SameRuns(a: Database, b: Database) {
    b.runs == a.runs && b.runSources == a.runSources
  }

  lemma EnqueueFrame(db: Database, newId: string, work: Work, priority: int, dedup: Option<DedupKey>, now: int, at: int)
    ensures var r := Enqueue(db, newId, work, priority, dedup, now, at);
      r.Inserted? ==>
        && SameRuns(db, r.db) && SameTranscripts(db, r.db) && SameLedger(db, r.db)
        && r.db.schedules == db.schedules && r.db.journal == db.journal
  {
  }

  lemma EnqueueStepFrame(db: Database, newId: string, run: string, step: nat, priority: int, now: int)
    ensures var r := EnqueueStep(db, newId, run, step, priority, now);
      r.Some? ==>
        && SameRuns(db, r.value) && SameTranscripts(db, r.value) && SameLedger(db, r.value)
        && r.value.schedules == db.schedules
  {
    hide Enqueue;
    EnqueueFrame(db, newId, RunStep(run, step), priority, Some(RunStepKey(run, step)), now, now);
  }

  lemma CreateFrame(db: Database, newRun: string, newEvent: string, task: string, capabilities: set<string>,
                    source: Option<string>, priority: int, now: int)
    ensures var r := CreateRunWithInitialStep(db, newRun, newEvent, task, capabilities, source, priority, now);
      r.Some? ==>
        && SameTranscripts(db, r.value.db) && SameLedger(db, r.value.db) && r.value.db.schedules == db.schedules
        && (r.value.db.runs == db.runs
            || (newRun !in db.runs
                && r.value.db.runs == db.runs[newRun := RunRow(task, capabilities, RUNNING, 0, None, None, None, source)]))
  {
    hide EnqueueStep;
    var created := CreateRun(db, newRun, task, capabilities, source);
    if created.Some? {
      EnqueueStepFrame(created.value.db, newEvent, created.value.run, 0, priority, now);
    }
  }

  lemma AdvanceFrame(db: Database, run: string, step: nat, newEvent: string, priority: int, now: int)
    ensures var r := AdvanceRunStep(db, run, step, newEvent, priority, now);
      r.Some? ==>
        && SameTranscripts(db, r.value) && SameLedger(db, r.value) && r.value.schedules == db.schedules
        && run in db.runs && db.runs[run].status == RUNNING && db.runs[run].stepCount == step
        && r.value.runs == db.runs[run := db.runs[run].(stepCount := step + 1, lastError := None)]
  {
    hide EnqueueStep;
    if run in db.runs {
      var row := db.runs[run].(stepCount := step + 1, lastError := None);
      EnqueueStepFrame(db.(runs := db.runs[run := row]), newEvent, run, step + 1, priority, now);
    }
  }

  lemma ResumeFrame(db: Database, run: string, newEvent: string, priority: int, now: int)
    ensures var r := ResumeRun(db, run, newEvent, priority, now);
      r.Some? ==>
        && SameTranscripts(db, r.value) && SameLedger(db, r.value) && r.value.schedules == db.schedules
        && run in db.runs && db.runs[run].status == BLOCKED_EFFECT
        && r.value.runs == db.runs[run := db.runs[run].(status := RUNNING, blockedRequest := None, lastError := None,
                                                        stepCount := db.runs[run].stepCount + 1)]
  {
    hide EnqueueStep;
    if run in db.runs {
      var next := db.runs[run].stepCount + 1;
      var row := db.runs[run].(status := RUNNING, blockedRequest := None, lastError := None, stepCount := next);
      var db1 := Log(db.(runs := db.runs[run := row]), RunEffectRecovered(run, next, now));
      EnqueueStepFrame(db1, newEvent, run, next, priority, now);
    }
  }

  lemma EventStepFrame(p: string, pc: PC, db: Database, h: History, i: Input)
    requires EventPhase(pc)
    ensures var r := EventStep(p, pc, db, h, i);
      && SameTranscripts(db, r.db) && SameLedger(db, r.db) && r.db.schedules == db.schedules
      && (!pc.Submitting? ==> SameRuns(db, r.db))
      && r.hist.invocations == h.invocations && r.hist.completions == h.completions && r.hist.origins == h.origins
  {
    hide CreateRunWithInitialStep, Backoff;
    if pc.Submitting? {
      CreateFrame(db, i.newRun, i.newEvent, pc.task, pc.capabilities, Some(pc.visit.event), 0, pc.visit.now);
    }
  }

  lemma ClosingStepFrame(pc: PC, db: Database, h: History, i: Input)
    requires ClosingPhase(pc)
    ensures var r := ClosingStep(pc, db, h, i);
      SameTranscripts(db, r.db) && SameLedger(db, r.db) && r.db.schedules == db.schedules && r.hist == h
  {
    hide AdvanceRunStep, ResumeRun;
    if pc.Advancing? {
      AdvanceFrame(db, pc.frame.run, pc.frame.step, i.newEvent, pc.frame.visit.priority, pc.frame.visit.now);
    } else if pc.Resuming? {
      ResumeFrame(db, pc.run, i.newEvent, 0, pc.now);
    }
  }

  lemma RescheduleFrame(db: Database, id: string, nextAt: int)
    ensures var b := SetNextAt(db, id, nextAt); SameRuns(db, b) && SameTranscripts(db, b) && SameLedger(db, b)
    ensures var b := DisableSchedule(db, id); SameRuns(db, b) && SameTranscripts(db, b) && SameLedger(db, b)
  {
  }

  lemma TickStepFrame(pc: PC, db: Database, h: History, i: Input)
    requires TickPhase(pc)
    ensures var r := TickStep(pc, db, h, i);
      SameRuns(db, r.db) && SameTranscripts(db, r.db) && SameLedger(db, r.db) && r.hist == h
  {
    hide Enqueue, Occurrences, SetNextAt, DisableSchedule;
    if pc.Emitting? && pc.pending == [] {
      RescheduleFrame(db, pc.due.id, pc.nextAt);
    } else if pc.Emitting? {
      var at := pc.pending[0];
      EnqueueFrame(db, i.newEvent, pc.due.row.work, 0, Some(OccurrenceKey(pc.due.id, at)), pc.tick.now, at);
    }
  }

  /** Outside `execute` the ledger, the invocation log and the completions stand still. */
  lemma OutsideTools(s: Settings, p: string, pc: PC, db: Database, h: History, i: Input)
    requires !ToolPhase(pc)
    ensures var r := Next(s, p, pc, db, h, i);
      SameLedger(db, r.db) && r.hist.invocations == h.invocations && r.hist.completions == h.completions
  {
    hide EventStep, DecisionStep, ClosingStep, TickStep;
    if EventPhase(pc) {
      EventStepFrame(p, pc, db, h, i);
    } else if DecisionPhase(pc) {
      DecisionStepLedger(s, pc, db, h, i);
    } else if ClosingPhase(pc) {
      ClosingStepFrame(pc, db, h, i);
    } else if TickPhase(pc) {
      TickStepFrame(pc, db, h, i);
    }
  }

  lemma DecisionStepLedger(s: Settings, pc: PC, db: Database, h: History, i: Input)
    requires DecisionPhase(pc)
    ensures var r := DecisionStep(s, pc, db, h, i); SameLedger(db, r.db) && r.hist == h
  {
    hide AfterLoad, Act, RecordMessage;
    if pc.RecordingCall? {
      RecordMessageFrame(db, pc.frame.run, CallMessage(pc.frame, pc.call));
    } else if pc.RecordingFinal? {
      RecordMessageFrame(db, pc.frame.run, FinalMessage(pc.frame, pc.text));
    }
  }

  lemma WorkKnown(c: Config, p: string, i: Input)
    requires Enabled(c, Work(p), i)
    ensures p in c.procs && Pc(c, p) == c.procs[p]
  {
  }

  lemma StepGrows(s: Settings, c: Config, c': Config)
    requires Step(s, c, c')
    ensures Grows(c.db, c'.db)
  {
    hide Grows, Enabled, Apply;
    var a, i :| Enabled(c, a, i) && c' == Apply(s, c, a, i);
    ApplyGrows(s, c, a, i);
  }

  /** Environment (M). Nothing durable is rewritten between any two points of any execution: stored
      decisions, event and request identities and bindings stay, transcripts and the journal are
      only extended, generations only rise, and DONE rows are final. */
  lemma {:induction false} NothingRewritten(s: Settings, trace: seq<Config>, m: nat, n: nat)
    requires Execution(s, trace) && m <= n < |trace|
    ensures Grows(trace[m].db, trace[n].db)
    decreases n - m
  {
    hide Grows, Step;
    if m == n {
      GrowsReflexive(trace[m].db);
    } else {
      NothingRewritten(s, trace, m, n - 1);
      assert Step(s, trace[n - 1], trace[n]);
      StepGrows(s, trace[n - 1], trace[n]);
      GrowsTransitive(trace[m].db, trace[n - 1].db, trace[n].db);
    }
  }
}
