/** Environment (M): any number of workers, tickers, resumers and host calls, interleaved statement
    by statement, with crashes and exceptions anywhere. No RUNNING run is ever without exactly one
    live event for its generation, and every finished task request has been answered exactly once. */
module QueueSafety {
  import opened Basics
  import opened JsonValues
  import opened Tables
  import opened SchemaRules
  import opened Protocol
  import opened Growth

  // ---- invariant on the tables ----------------------------------------------------------

  ghost predicate KeysIndexed(db: Database) {
    && (forall k | k in db.eventKeys ::
          db.eventKeys[k] in db.events && db.events[db.eventKeys[k]].dedup == Some(k))
    && (forall e | e in db.events && db.events[e].dedup.Some? ::
          db.events[e].dedup.value in db.eventKeys && db.eventKeys[db.events[e].dedup.value] == e)
  }

  ghost predicate SourcesIndexed(db: Database) {
    && (forall x | x in db.runSources :: db.runSources[x] in db.runs && db.runs[db.runSources[x]].source == Some(x))
    && (forall r | r in db.runs && db.runs[r].source.Some? ::
          db.runs[r].source.value in db.runSources && db.runSources[db.runs[r].source.value] == r)
  }

  /** A `run.step` event belongs to its run, is never ahead of it, and is only DONE behind it. */
  predicate StepEventOk(runs: map<string, RunRow>, row: EventRow) {
    row.work.RunStep? ==>
      && row.dedup == Some(RunStepKey(row.work.run, row.work.step))
      && row.work.run in runs && row.work.step <= runs[row.work.run].stepCount
      && (row.status == DONE ==> Left(runs, row.work.run, row.work.step))
  }

  predicate StepKeyOk(row: EventRow) {
    row.dedup.Some? && row.dedup.value.RunStepKey? ==>
      row.work == RunStep(row.dedup.value.run, row.dedup.value.step)
  }

  ghost predicate StepEventsOk(db: Database) {
    forall e | e in db.events :: StepEventOk(db.runs, db.events[e]) && StepKeyOk(db.events[e])
  }

  ghost predicate Rejected(journal: seq<JournalEntry>, e: string) {
    exists i :: 0 <= i < |journal| && journal[i].EventRejected? && journal[i].event == e
  }

  /** The run of a well-formed request, or the journal entry of a malformed one. */
  ghost predicate Answered(db: Database, e: string, payload: map<string, Json>) {
    match AdmitTask(payload)
    case BadTask => Rejected(db.journal, e)
    case Task(task, capabilities) =>
      && e in db.runSources && db.runSources[e] in db.runs
      && db.runs[db.runSources[e]].task == task && db.runs[db.runSources[e]].capabilities == capabilities
  }

  ghost predicate TasksAnswered(db: Database) {
    forall e | e in db.events && db.events[e].status == DONE && db.events[e].work.TaskRequested? ::
      Answered(db, e, db.events[e].work.payload)
  }

  ghost predicate CoreOk(db: Database) {
    KeysIndexed(db) && SourcesIndexed(db) && StepEventsOk(db) && TasksAnswered(db)
  }

  predicate Scheduled(db: Database, r: string)
    requires r in db.runs
  {
    db.runs[r].status == RUNNING ==> RunStepKey(r, db.runs[r].stepCount) in db.eventKeys
  }

  ghost predicate AllScheduled(db: Database) {
    forall r | r in db.runs :: Scheduled(db, r)
  }

  ghost predicate SchedulesOk(schedules: map<string, ScheduleRow>) {
    forall id | id in schedules :: !schedules[id].work.RunStep?
  }

  ghost predicate QueueOk(db: Database) {
    CoreOk(db) && AllScheduled(db) && SchedulesOk(db.schedules)
  }

  // ---- invariant on the program counters ------------------------------------------------

  predicate Holds(db: Database, event: string, work: Work) {
    event in db.events && db.events[event].work == work
  }

  predicate HoldsTask(db: Database, event: string) {
    event in db.events && db.events[event].work.TaskRequested?
  }

  /** An event may be acknowledged: its run has moved on, its request is answered. */
  ghost predicate MayAck(db: Database, event: string) {
    && event in db.events
    && (db.events[event].work.RunStep? ==> Left(db.runs, db.events[event].work.run, db.events[event].work.step))
    && (db.events[event].work.TaskRequested? ==> Answered(db, event, db.events[event].work.payload))
  }

  predicate FrameHeld(db: Database, f: Frame) {
    Holds(db, f.visit.event, RunStep(f.run, f.step))
  }

  predicate FramesHeld(db: Database, pc: PC) {
    && (FramePhase(pc) ==> FrameHeld(db, pc.frame))
    && (CallPhase(pc) && pc.caller.FromStep? ==> FrameHeld(db, pc.caller.frame))
    && (pc.Acking? && pc.handler.Some? ==> FrameHeld(db, pc.handler.value))
  }

  predicate NoStepWork(t: TickState) {
    forall i | 0 <= i < |t.rows| :: !t.rows[i].row.work.RunStep?
  }

  /** What only a few program counters promise. */
  ghost predicate PcPromise(db: Database, pc: PC) {
    && (pc.Rejecting? ==> HoldsTask(db, pc.visit.event) && AdmitTask(db.events[pc.visit.event].work.payload).BadTask?)
    && (pc.Submitting? ==>
          && HoldsTask(db, pc.visit.event)
          && AdmitTask(db.events[pc.visit.event].work.payload) == Task(pc.task, pc.capabilities))
    && (pc.Loading? ==> Holds(db, pc.visit.event, RunStep(pc.run, pc.step)))
    && (pc.FailingMaxSteps? ==>
          && pc.visit.event in db.events && db.events[pc.visit.event].work.RunStep?
          && db.events[pc.visit.event].work.run == pc.run)
    && (pc.Acking? ==> MayAck(db, pc.visit.event))
    && (pc.BlockJournaling? ==> MayAck(db, pc.frame.visit.event))
    && (TickPhase(pc) ==> NoStepWork(pc.tick))
    && (pc.Emitting? || pc.EmitJournaling? ==> !pc.due.row.work.RunStep?)
  }

  ghost predicate PcOk(db: Database, pc: PC) {
    FramesHeld(db, pc) && PcPromise(db, pc)
  }

  lemma AnsweredStable(a: Database, b: Database, e: string, payload: map<string, Json>)
    requires Grows(a, b) && Answered(a, e, payload)
    ensures Answered(b, e, payload)
  {
    hide EventsGrow, MessagesGrow, EffectsGrow, SchedulesGrow, AdmitTask;
    if AdmitTask(payload).BadTask? {
      var i :| 0 <= i < |a.journal| && a.journal[i].EventRejected? && a.journal[i].event == e;
      assert b.journal[i] == a.journal[i];
    }
  }

  lemma AckLater(a: Database, b: Database, e: string)
    requires Grows(a, b) && MayAck(a, e)
    ensures MayAck(b, e)
  {
    hide MessagesGrow, EffectsGrow, SchedulesGrow, SubMap, AdmitTask, Answered;
    if a.events[e].work.TaskRequested? {
      AnsweredStable(a, b, e, a.events[e].work.payload);
    }
  }

  lemma FramesStable(a: Database, b: Database, pc: PC)
    requires Grows(a, b) && FramesHeld(a, pc)
    ensures FramesHeld(b, pc)
  {
    hide MessagesGrow, EffectsGrow, SchedulesGrow, SubMap, RunsGrow;
  }

  lemma PcStable(a: Database, b: Database, pc: PC)
    requires Grows(a, b) && PcOk(a, pc)
    ensures PcOk(b, pc)
  {
    hide MessagesGrow, EffectsGrow, SchedulesGrow, SubMap, RunsGrow, AdmitTask, MayAck, NoStepWork, FramesHeld;
    FramesStable(a, b, pc);
    if pc.Acking? {
      AckLater(a, b, pc.visit.event);
    } else if pc.BlockJournaling? {
      AckLater(a, b, pc.frame.visit.event);
    }
  }

  // ---- the invariant, statement by statement --------------------------------------------

  /** A statement that leaves the queue and the runs alone, apart from new journal entries. */
  lemma QueueUntouched(a: Database, b: Database)
    requires QueueOk(a) && a.journal <= b.journal
    requires b.events == a.events && b.eventKeys == a.eventKeys && b.runs == a.runs
    requires b.runSources == a.runSources && SchedulesOk(b.schedules)
    ensures QueueOk(b)
  {
    forall e | e in b.events && b.events[e].status == DONE && b.events[e].work.TaskRequested?
      ensures Answered(b, e, b.events[e].work.payload)
    {
      assert Answered(a, e, a.events[e].work.payload);
      RejectedStable(a, b, e);
    }
  }

  lemma RejectedStable(a: Database, b: Database, e: string)
    requires a.journal <= b.journal
    ensures Rejected(a.journal, e) ==> Rejected(b.journal, e)
  {
    if Rejected(a.journal, e) {
      var i :| 0 <= i < |a.journal| && a.journal[i].EventRejected? && a.journal[i].event == e;
      assert b.journal[i] == a.journal[i];
    }
  }

  lemma LogOk(db: Database, entry: JournalEntry)
    requires CoreOk(db)
    ensures CoreOk(Log(db, entry))
    ensures QueueOk(db) ==> QueueOk(Log(db, entry))
  {
    var b := Log(db, entry);
    forall e | e in b.events && b.events[e].status == DONE && b.events[e].work.TaskRequested?
      ensures Answered(b, e, b.events[e].work.payload)
    {
      assert Answered(db, e, db.events[e].work.payload);
      RejectedStable(db, b, e);
    }
  }

  /** A new PENDING row under a free dedup key. */
  lemma AddEventOk(db: Database, newId: string, row: EventRow, b: Database)
    requires CoreOk(db) && newId !in db.events && row.status == PENDING
    requires row.dedup.Some? ==> row.dedup.value !in db.eventKeys
    requires StepEventOk(db.runs, row) && StepKeyOk(row)
    requires b == db.(events := db.events[newId := row],
                      eventKeys := if row.dedup.Some? then db.eventKeys[row.dedup.value := newId] else db.eventKeys)
    ensures CoreOk(b)
  {
    hide AdmitTask, StepEventOk, StepKeyOk;
    forall e | e in b.events && b.events[e].status == DONE && b.events[e].work.TaskRequested?
      ensures Answered(b, e, b.events[e].work.payload)
    {
      assert Answered(db, e, db.events[e].work.payload);
    }
  }

  lemma EnqueueOk(db: Database, newId: string, work: Work, priority: int, dedup: Option<DedupKey>, now: int, at: int)
    requires QueueOk(db) && !work.RunStep? && !(dedup.Some? && dedup.value.RunStepKey?)
    ensures var r := Enqueue(db, newId, work, priority, dedup, now, at); r.Inserted? ==> QueueOk(r.db)
  {
    hide CoreOk;
    var r := Enqueue(db, newId, work, priority, dedup, now, at);
    if r.Inserted? {
      AddEventOk(db, newId, EventRow(work, priority, dedup, PENDING, at, None, None, 0, now), r.db);
    }
  }

  lemma EnqueueStepOk(db: Database, newId: string, run: string, step: nat, priority: int, now: int)
    requires CoreOk(db) && run in db.runs && step <= db.runs[run].stepCount
    ensures var r := EnqueueStep(db, newId, run, step, priority, now);
      r.Some? ==>
        && CoreOk(r.value) && RunStepKey(run, step) in r.value.eventKeys
        && SubMap(db.eventKeys, r.value.eventKeys) && r.value.runs == db.runs && r.value.schedules == db.schedules
        && r.value.runSources == db.runSources
  {
    hide CoreOk;
    var key := RunStepKey(run, step);
    var r := Enqueue(db, newId, RunStep(run, step), priority, Some(key), now, now);
    if r.Inserted? {
      AddEventOk(db, newId, EventRow(RunStep(run, step), priority, Some(key), PENDING, now, None, None, 0, now), r.db);
      LogOk(r.db, EventEnqueued(newId, now));
    }
  }

  /** An event row replaced by one with the same identity. */
  lemma SetEventOk(db: Database, e: string, row: EventRow)
    requires QueueOk(db) && e in db.events && row.work == db.events[e].work && row.dedup == db.events[e].dedup
    requires row.status == DONE ==> MayAck(db, e)
    ensures QueueOk(db.(events := db.events[e := row]))
  {
    hide AdmitTask;
    var b := db.(events := db.events[e := row]);
    forall x | x in b.events && b.events[x].status == DONE && b.events[x].work.TaskRequested?
      ensures Answered(b, x, b.events[x].work.payload)
    {
      assert x != e ==> Answered(db, x, db.events[x].work.payload);
    }
  }

  /** A run row replaced by a later one; its generation is scheduled or it is not RUNNING. */
  lemma SetRunOk(db: Database, r: string, row: RunRow)
    requires CoreOk(db) && r in db.runs && RunKept(db.runs[r], row)
    ensures var b := db.(runs := db.runs[r := row]);
      && CoreOk(b)
      && (AllScheduled(db) && (row.status == RUNNING ==> RunStepKey(r, row.stepCount) in db.eventKeys) ==> AllScheduled(b))
  {
    hide AdmitTask;
    var b := db.(runs := db.runs[r := row]);
    forall x | x in b.events && b.events[x].status == DONE && b.events[x].work.TaskRequested?
      ensures Answered(b, x, b.events[x].work.payload)
    {
      assert Answered(db, x, db.events[x].work.payload);
    }
  }

  lemma UpdateRunOk(db: Database, r: string, status: Option<RunStatus>, finalText: Option<string>,
                    lastError: Option<string>, clear: bool, increment: bool)
    requires QueueOk(db) && status != Some(RUNNING) && (increment ==> status.Some?)
    ensures QueueOk(UpdateRun(db, r, status, finalText, lastError, clear, increment))
  {
    hide CoreOk;
    if r in db.runs {
      SetRunOk(db, r, UpdateRun(db, r, status, finalText, lastError, clear, increment).runs[r]);
    }
  }

  lemma AddRunOk(db: Database, newRun: string, row: RunRow, b: Database)
    requires CoreOk(db) && newRun !in db.runs
    requires row.source.Some? ==> row.source.value !in db.runSources
    requires b == db.(runs := db.runs[newRun := row],
                      runSources := if row.source.Some? then db.runSources[row.source.value := newRun] else db.runSources)
    ensures CoreOk(b)
  {
    hide AdmitTask;
    forall x | x in b.events && b.events[x].status == DONE && b.events[x].work.TaskRequested?
      ensures Answered(b, x, b.events[x].work.payload)
    {
      assert Answered(db, x, db.events[x].work.payload);
    }
  }

  lemma CreateRunOk(db: Database, newRun: string, task: string, capabilities: set<string>, source: Option<string>)
    requires QueueOk(db)
    ensures var r := CreateRun(db, newRun, task, capabilities, source);
      r.Some? ==>
        && CoreOk(r.value.db) && SchedulesOk(r.value.db.schedules) && r.value.run in r.value.db.runs
        && (forall x | x in r.value.db.runs && x != r.value.run :: Scheduled(r.value.db, x))
        && (Scheduled(r.value.db, r.value.run) || r.value.db.runs[r.value.run].stepCount == 0)
        && (source.Some? ==> source.value in r.value.db.runSources && r.value.db.runSources[source.value] == r.value.run)
        && r.value.db.runs[r.value.run].task == task && r.value.db.runs[r.value.run].capabilities == capabilities
  {
    hide CoreOk;
    var r := CreateRun(db, newRun, task, capabilities, source);
    if r.Some? && !(source.Some? && source.value in db.runSources) {
      AddRunOk(db, newRun, RunRow(task, capabilities, RUNNING, 0, None, None, None, source), r.value.db);
    }
  }

  lemma CreateOk(db: Database, newRun: string, newEvent: string, task: string, capabilities: set<string>,
                 source: Option<string>, priority: int, now: int)
    requires QueueOk(db)
    ensures var r := CreateRunWithInitialStep(db, newRun, newEvent, task, capabilities, source, priority, now);
      r.Some? ==>
        && QueueOk(r.value.db) && r.value.run in r.value.db.runs
        && (source.Some? ==> source.value in r.value.db.runSources && r.value.db.runSources[source.value] == r.value.run)
        && r.value.db.runs[r.value.run].task == task && r.value.db.runs[r.value.run].capabilities == capabilities
  {
    hide CoreOk, CreateRun;
    CreateRunOk(db, newRun, task, capabilities, source);
    var created := CreateRun(db, newRun, task, capabilities, source);
    if created.Some? {
      EnqueueStepOk(created.value.db, newEvent, created.value.run, 0, priority, now);
    }
  }

  lemma AdvanceOk(db: Database, r: string, step: nat, newEvent: string, priority: int, now: int)
    requires QueueOk(db)
    ensures var b := AdvanceRunStep(db, r, step, newEvent, priority, now);
      b.Some? ==> QueueOk(b.value) && Left(b.value.runs, r, step)
  {
    hide CoreOk;
    if r in db.runs && db.runs[r].status == RUNNING && db.runs[r].stepCount == step {
      var row := db.runs[r].(stepCount := step + 1, lastError := None);
      var db1 := db.(runs := db.runs[r := row]);
      SetRunOk(db, r, row);
      EnqueueStepOk(db1, newEvent, r, step + 1, priority, now);
    }
  }

  lemma ResumeOk(db: Database, r: string, newEvent: string, priority: int, now: int)
    requires QueueOk(db)
    ensures var b := ResumeRun(db, r, newEvent, priority, now); b.Some? ==> QueueOk(b.value)
  {
    hide CoreOk;
    if r in db.runs && db.runs[r].status == BLOCKED_EFFECT {
      var next := db.runs[r].stepCount + 1;
      var row := db.runs[r].(status := RUNNING, blockedRequest := None, lastError := None, stepCount := next);
      var db1 := db.(runs := db.runs[r := row]);
      SetRunOk(db, r, row);
      LogOk(db1, RunEffectRecovered(r, next, now));
      EnqueueStepOk(Log(db1, RunEffectRecovered(r, next, now)), newEvent, r, next, priority, now);
    }
  }

  // ---- the invariant, process step by process step --------------------------------------

  lemma EventStepDb(p: string, pc: PC, db: Database, h: History, i: Input)
    requires EventPhase(pc) && QueueOk(db) && PcOk(db, pc)
    ensures QueueOk(EventStep(p, pc, db, h, i).db)
  {
    hide CoreOk, AllScheduled, SchedulesOk, CreateRunWithInitialStep, AdmitTask, Log, MayAck, FramesHeld;
    match pc
    case Rejecting(v) => LogOk(db, EventRejected(v.event, v.now));
    case Submitting(v, task, capabilities) =>
      CreateOk(db, i.newRun, i.newEvent, task, capabilities, Some(v.event), 0, v.now);
    case Acking(v, _) =>
      if Owns(db, v.event, p) {
        SetEventOk(db, v.event, db.events[v.event].(status := DONE, leaseOwner := None, leaseUntil := None));
      }
    case AckJournaling(v) => LogOk(db, EventAcked(v.event, p, v.now));
    case Requeueing(f) =>
      var retryAt := f.visit.now + Backoff(f.visit.attempts);
      if Owns(db, f.visit.event, p) {
        SetEventOk(db, f.visit.event, db.events[f.visit.event].(
          status := PENDING, leaseOwner := None, leaseUntil := None, availableAt := retryAt));
      }
    case RequeueJournaling(f) =>
      LogOk(db, EventRetryScheduled(f.visit.event, p, f.visit.now + Backoff(f.visit.attempts), f.visit.now));
    case EnqueueJournaling(event, now) => LogOk(db, EventEnqueued(event, now));
  }

  lemma EventIdentity(a: Database, b: Database, e: string)
    requires Grows(a, b) && e in a.events
    ensures e in b.events && b.events[e].work == a.events[e].work
  {
  }

  lemma AnswerPc(p: string, pc: PC, db: Database, h: History, i: Input)
    requires (pc.Rejecting? || pc.Submitting?) && QueueOk(db) && PcOk(db, pc)
    ensures var r := EventStep(p, pc, db, h, i); PcOk(r.db, r.pc)
  {
    hide CoreOk, AllScheduled, SchedulesOk, CreateRunWithInitialStep, AdmitTask, Grows;
    var r := EventStep(p, pc, db, h, i);
    match pc
    case Rejecting(v) => assert r.db.journal[|db.journal|] == EventRejected(v.event, v.now);
    case Submitting(v, task, capabilities) =>
      CreateGrows(db, i.newRun, i.newEvent, task, capabilities, Some(v.event), 0, v.now);
      CreateOk(db, i.newRun, i.newEvent, task, capabilities, Some(v.event), 0, v.now);
      if r.pc.Acking? {
        EventIdentity(db, r.db, v.event);
      }
  }

  lemma EventStepPc(p: string, pc: PC, db: Database, h: History, i: Input)
    requires EventPhase(pc) && QueueOk(db) && PcOk(db, pc)
    ensures var r := EventStep(p, pc, db, h, i); PcOk(r.db, r.pc)
  {
    hide QueueOk, CreateRunWithInitialStep, AdmitTask, Acknowledge, Requeue, Grows, MayAck, Log;
    if pc.Rejecting? || pc.Submitting? {
      AnswerPc(p, pc, db, h, i);
    } else {
      var r := EventStep(p, pc, db, h, i);
      EventStepGrows(p, pc, db, h, i);
      FramesStable(db, r.db, pc);
    }
  }

  lemma NoteErrorOk(db: Database, r: string, error: string)
    requires QueueOk(db)
    ensures QueueOk(NoteError(db, r, error))
  {
    hide CoreOk;
    if r in db.runs {
      SetRunOk(db, r, NoteError(db, r, error).runs[r]);
    }
  }

  lemma MaxStepsDb(s: Settings, pc: PC, db: Database, h: History, i: Input)
    requires pc.FailingMaxSteps? && QueueOk(db)
    ensures QueueOk(DecisionStep(s, pc, db, h, i).db)
  {
    hide QueueOk, UpdateRun;
    UpdateRunOk(db, pc.run, Some(FAILED), None, Some("max_steps exceeded"), false, false);
  }

  lemma DecisionStepDb(s: Settings, pc: PC, db: Database, h: History, i: Input)
    requires DecisionPhase(pc) && QueueOk(db)
    ensures QueueOk(DecisionStep(s, pc, db, h, i).db)
  {
    hide CoreOk, AllScheduled, SchedulesOk, DecisionStep, UpdateRun;
    if pc.FailingMaxSteps? {
      MaxStepsDb(s, pc, db, h, i);
    } else {
      DecisionStepFrame(s, pc, db, h, i);
      QueueUntouched(db, DecisionStep(s, pc, db, h, i).db);
    }
  }

  /** Loading a run and finding it elsewhere, stopped, or over its step limit. */
  lemma LoadingPc(s: Settings, pc: PC, db: Database, h: History, i: Input)
    requires (pc.Loading? || pc.FailingMaxSteps?) && QueueOk(db) && PcOk(db, pc)
    ensures var r := DecisionStep(s, pc, db, h, i); PcOk(r.db, r.pc)
  {
    hide AllScheduled, SchedulesOk, AdmitTask, KeysIndexed, SourcesIndexed, TasksAnswered, Answered;
    assert StepEventOk(db.runs, db.events[pc.visit.event]);
  }

  lemma DecisionStepPc(s: Settings, pc: PC, db: Database, h: History, i: Input)
    requires DecisionPhase(pc) && QueueOk(db) && PcOk(db, pc)
    ensures var r := DecisionStep(s, pc, db, h, i); PcOk(r.db, r.pc)
  {
    hide QueueOk, AdmitTask, RecordDecision, RecordMessage, Grows, MayAck;
    if pc.Loading? || pc.FailingMaxSteps? {
      LoadingPc(s, pc, db, h, i);
    } else {
      DecisionStepGrows(s, pc, db, h, i);
      FramesStable(db, DecisionStep(s, pc, db, h, i).db, pc);
    }
  }

  lemma ClosingStepDb(pc: PC, db: Database, h: History, i: Input)
    requires ClosingPhase(pc) && QueueOk(db)
    ensures QueueOk(ClosingStep(pc, db, h, i).db)
  {
    hide QueueOk, AdvanceRunStep, ResumeRun, UpdateRun, BlockRun, Log;
    match pc
    case Advancing(f) => AdvanceOk(db, f.run, f.step, i.newEvent, f.visit.priority, f.visit.now);
    case Completing(f, text) => UpdateRunOk(db, f.run, Some(COMPLETED), Some(text), None, true, true);
    case Blocking(f, request) => BlockOk(db, f.run, request, i.text);
    case BlockJournaling(f, request) => LogQueue(db, RunBlockedEffect(f.run, request, f.visit.now));
    case FailingTool(f) => UpdateRunOk(db, f.run, Some(FAILED), None, Some(i.text), false, false);
    case NotingError(f) => NoteErrorOk(db, f.run, i.text);
    case Resuming(run, now) => ResumeOk(db, run, i.newEvent, 0, now);
  }

  /** A closing update takes the run out of the generation it is in. */
  lemma StatusLeaves(db: Database, r: string, step: nat, text: string, request: string)
    requires r in db.runs && step <= db.runs[r].stepCount
    ensures Left(CompleteRun(db, r, text).runs, r, step) && Left(FailRun(db, r, text).runs, r, step)
    ensures var b := BlockRun(db, r, request, text); b.Some? ==> Left(b.value.runs, r, step)
  {
  }

  /** After the closing statement the run has left the event's generation. */
  lemma ClosingLeaves(pc: PC, db: Database, h: History, i: Input)
    requires ClosingPhase(pc) && FramePhase(pc) && QueueOk(db) && FramesHeld(db, pc) && !pc.BlockJournaling?
    ensures var r := ClosingStep(pc, db, h, i);
      (r.pc.Acking? || r.pc.BlockJournaling?) ==> MayAck(r.db, pc.frame.visit.event)
  {
    hide AllScheduled, SchedulesOk, Answered, KeysIndexed, SourcesIndexed, TasksAnswered;
    hide Grows, AdvanceRunStep, UpdateRun, BlockRun, Left;
    var r := ClosingStep(pc, db, h, i);
    var f := pc.frame;
    assert StepEventOk(db.runs, db.events[f.visit.event]);
    ClosingStepGrows(pc, db, h, i);
    EventIdentity(db, r.db, f.visit.event);
    AdvanceOk(db, f.run, f.step, i.newEvent, f.visit.priority, f.visit.now);
    StatusLeaves(db, f.run, f.step, if pc.Completing? then pc.text else i.text, if pc.Blocking? then pc.request else "");
  }

  lemma ClosingStepPc(pc: PC, db: Database, h: History, i: Input)
    requires ClosingPhase(pc) && QueueOk(db) && PcOk(db, pc)
    ensures var r := ClosingStep(pc, db, h, i); PcOk(r.db, r.pc)
  {
    hide QueueOk, AdvanceRunStep, ResumeRun, UpdateRun, BlockRun, Log, MayAck, Grows;
    var r := ClosingStep(pc, db, h, i);
    ClosingStepGrows(pc, db, h, i);
    FramesStable(db, r.db, pc);
    if pc.BlockJournaling? {
      AckLater(db, r.db, pc.frame.visit.event);
    } else if FramePhase(pc) {
      ClosingLeaves(pc, db, h, i);
    }
  }

  lemma LogQueue(db: Database, entry: JournalEntry)
    requires QueueOk(db)
    ensures QueueOk(Log(db, entry))
  {
    hide CoreOk;
    LogOk(db, entry);
  }

  lemma BlockOk(db: Database, r: string, request: string, error: string)
    requires QueueOk(db)
    ensures var b := BlockRun(db, r, request, error); b.Some? ==> QueueOk(b.value)
  {
    hide CoreOk;
    var b := BlockRun(db, r, request, error);
    if b.Some? {
      SetRunOk(db, r, b.value.runs[r]);
    }
  }

  lemma ToolStepDb(s: Settings, pc: PC, db: Database, h: History, i: Input)
    requires ToolPhase(pc) && QueueOk(db)
    ensures QueueOk(ToolStep(s, pc, db, h, i).db)
  {
    hide CoreOk, AllScheduled, SchedulesOk, ToolStep;
    ToolStepFrame(s, pc, db, h, i);
    QueueUntouched(db, ToolStep(s, pc, db, h, i).db);
  }

  lemma ToolStepPc(s: Settings, pc: PC, db: Database, h: History, i: Input)
    requires ToolPhase(pc) && PcOk(db, pc)
    ensures var r := ToolStep(s, pc, db, h, i); PcOk(r.db, r.pc)
  {
    hide Admissible, AdmitEffect, SetEffect, MarkUnknown, RecordMessage, AddCompletion, MayAck, Grows, StoredCall;
    ToolStepGrows(s, pc, db, h, i);
    FramesStable(db, ToolStep(s, pc, db, h, i).db, pc);
  }

  lemma TickStepDb(pc: PC, db: Database, h: History, i: Input)
    requires TickPhase(pc) && QueueOk(db) && PcOk(db, pc)
    ensures QueueOk(TickStep(pc, db, h, i).db)
  {
    hide QueueOk, Enqueue, Occurrences, SetNextAt, DisableSchedule, Log, FramesHeld;
    if pc.EmitJournaling? {
      LogQueue(db, EventEnqueued(pc.event, pc.tick.now));
    } else if pc.Emitting? && pc.pending == [] {
      RescheduleOk(db, pc.due.id, pc.nextAt);
    } else if pc.Emitting? {
      var at := pc.pending[0];
      EnqueueOk(db, i.newEvent, pc.due.row.work, 0, Some(OccurrenceKey(pc.due.id, at)), pc.tick.now, at);
    }
  }

  lemma RescheduleOk(db: Database, id: string, nextAt: int)
    requires QueueOk(db)
    ensures QueueOk(SetNextAt(db, id, nextAt)) && QueueOk(DisableSchedule(db, id))
  {
    hide CoreOk, AllScheduled;
    QueueUntouched(db, SetNextAt(db, id, nextAt));
    QueueUntouched(db, DisableSchedule(db, id));
  }

  lemma TickStepPc(pc: PC, db: Database, h: History, i: Input)
    requires TickPhase(pc) && PcOk(db, pc)
    ensures var r := TickStep(pc, db, h, i); PcOk(r.db, r.pc)
  {
    hide Enqueue, Occurrences, SetNextAt, DisableSchedule;
  }

  lemma NextQueueOk(s: Settings, p: string, pc: PC, db: Database, h: History, i: Input)
    requires QueueOk(db) && PcOk(db, pc)
    ensures var r := Next(s, p, pc, db, h, i); QueueOk(r.db) && PcOk(r.db, r.pc)
  {
    hide QueueOk, EventStep, DecisionStep, ClosingStep, ToolStep, TickStep;
    if EventPhase(pc) {
      EventStepDb(p, pc, db, h, i);
      EventStepPc(p, pc, db, h, i);
    } else if DecisionPhase(pc) {
      DecisionStepDb(s, pc, db, h, i);
      DecisionStepPc(s, pc, db, h, i);
    } else if ClosingPhase(pc) {
      ClosingStepDb(pc, db, h, i);
      ClosingStepPc(pc, db, h, i);
    } else if ToolPhase(pc) {
      ToolStepDb(s, pc, db, h, i);
      ToolStepPc(s, pc, db, h, i);
    } else if TickPhase(pc) {
      TickStepDb(pc, db, h, i);
      TickStepPc(pc, db, h, i);
    }
  }

  // ---- the invariant of the whole system ------------------------------------------------

  ghost predicate QueueInv(c: Config) {
    QueueOk(c.db) && forall p | p in c.procs :: PcOk(c.db, c.procs[p])
  }

  /** Replacing one program counter, or none, while the tables grow. */
  lemma OthersStable(c: Config, c': Config, p: string)
    requires QueueInv(c) && QueueOk(c'.db) && Grows(c.db, c'.db)
    requires forall q | q in c'.procs && q != p :: q in c.procs && c'.procs[q] == c.procs[q]
    requires p in c'.procs ==> PcOk(c'.db, c'.procs[p])
    ensures QueueInv(c')
  {
    hide QueueOk, Grows, PcOk;
    forall q | q in c'.procs
      ensures PcOk(c'.db, c'.procs[q])
    {
      if q != p {
        PcStable(c.db, c'.db, c.procs[q]);
      }
    }
  }

  lemma UnwindOk(db: Database, pc: PC)
    requires PcOk(db, pc)
    ensures PcOk(db, Unwind(pc))
  {
    hide MayAck, AdmitTask, NoStepWork, FrameHeld;
  }

  lemma DispatchOk(db: Database, event: string, v: Visit)
    requires QueueOk(db) && event in db.events && v.event == event && db.events[event].status != DONE
    ensures PcOk(db, Dispatch(v, db.events[event].work))
  {
    hide CoreOk, AdmitTask;
  }

  lemma ClaimOk(s: Settings, c: Config, p: string, i: Input)
    requires QueueInv(c) && Enabled(c, ClaimNext(p), i) && i.choice.Some?
    ensures QueueInv(ApplyClaim(s, c, p, i))
  {
    hide CoreOk, AllScheduled, SchedulesOk, PcOk, Grows;
    var id := i.choice.value;
    var db := c.db;
    var row := db.events[id];
    var claimed := row.(status := CLAIMED, leaseOwner := Some(p), leaseUntil := Some(i.now + s.lease), attempts := row.attempts + 1);
    ClaimGrows(db, id, p, i.now, s.lease);
    SetEventOk(db, id, claimed);
    LogOk(db.(events := db.events[id := claimed]), EventClaimed(id, p, row.attempts + 1, i.now + s.lease, i.now));
    var c' := ApplyClaim(s, c, p, i);
    DispatchOk(c'.db, id, Visit(id, row.priority, row.attempts + 1, i.now));
    OthersStable(c, c', p);
  }

  lemma HostEnqueueOk(s: Settings, c: Config, a: Action, i: Input)
    requires a.HostEnqueue? && QueueInv(c) && Enabled(c, a, i)
    ensures QueueInv(Apply(s, c, a, i))
  {
    hide QueueOk, PcOk, Grows, Enqueue;
    GrowsReflexive(c.db);
    var at := if a.availableAt.Some? then a.availableAt.value else i.now;
    EnqueueGrows(c.db, i.newEvent, a.work, a.priority, a.dedup, i.now, at);
    EnqueueOk(c.db, i.newEvent, a.work, a.priority, a.dedup, i.now, at);
    IdlePcOk(Apply(s, c, a, i).db, i);
    OthersStable(c, Apply(s, c, a, i), a.p);
  }

  lemma IdlePcOk(db: Database, i: Input)
    ensures PcOk(db, Idle) && PcOk(db, Aborted)
    ensures forall event :: PcOk(db, EnqueueJournaling(event, i.now))
    ensures forall r, caps, q :: PcOk(db, Recovering(r, i.now, caps, q))
  {
  }

  /** Host calls that are one transaction and move no program counter. */
  lemma HostTransactionOk(s: Settings, c: Config, a: Action, i: Input)
    requires a.HostSubmit? || a.HostReconcile? || a.AddInterval?
    requires QueueInv(c) && Enabled(c, a, i)
    ensures QueueInv(Apply(s, c, a, i))
  {
    hide CoreOk, AllScheduled, PcOk, Grows, CreateRunWithInitialStep, Next;
    var c' := Apply(s, c, a, i);
    ApplyGrows(s, c, a, i);
    if a.HostSubmit? {
      CreateOk(c.db, i.newRun, i.newEvent, a.task, a.capabilities, a.source, 0, i.now);
    } else {
      QueueUntouched(c.db, c'.db);
    }
    forall p | p in c'.procs
      ensures PcOk(c'.db, c'.procs[p])
    {
      PcStable(c.db, c'.db, c.procs[p]);
    }
  }

  lemma TickStartOk(s: Settings, c: Config, a: Action, i: Input)
    requires a.Tick? && QueueInv(c) && Enabled(c, a, i)
    ensures QueueInv(Apply(s, c, a, i))
  {
    hide CoreOk, AllScheduled, Grows;
    GrowsReflexive(c.db);
    assert PcOk(c.db, Ticking(TickState(i.now, a.cap, 0, a.rows)));
    OthersStable(c, Apply(s, c, a, i), a.p);
  }

  lemma ApplyQueueInv(s: Settings, c: Config, a: Action, i: Input)
    requires QueueInv(c) && Enabled(c, a, i)
    ensures QueueInv(Apply(s, c, a, i))
  {
    hide QueueOk, PcOk, Grows, Next, Unwind, ApplyClaim, Enqueue;
    GrowsReflexive(c.db);
    IdlePcOk(c.db, i);
    match a
    case Work(p) =>
      NextQueueOk(s, p, Pc(c, p), c.db, c.hist, i);
      NextGrows(s, p, Pc(c, p), c.db, c.hist, i);
      OthersStable(c, Apply(s, c, a, i), p);
    case ClaimNext(p) =>
      if i.choice.Some? {
        ClaimOk(s, c, p, i);
      } else {
        assert ApplyClaim(s, c, p, i) == c by { ClaimNothing(s, c, p, i); }
      }
    case Resume(p, run) => OthersStable(c, Apply(s, c, a, i), p);
    case Tick(_, _, _) => TickStartOk(s, c, a, i);
    case HostEnqueue(_, _, _, _, _) => HostEnqueueOk(s, c, a, i);
    case Throw(p) =>
      UnwindOk(c.db, Pc(c, p));
      OthersStable(c, Apply(s, c, a, i), p);
    case Crash(p) => OthersStable(c, Apply(s, c, a, i), p);
    case HostSubmit(_, _, _) => HostTransactionOk(s, c, a, i);
    case HostReconcile(_, _, _, _) => HostTransactionOk(s, c, a, i);
    case AddInterval(_, _, _, _) => HostTransactionOk(s, c, a, i);
  }

  lemma ClaimNothing(s: Settings, c: Config, p: string, i: Input)
    requires i.choice.None?
    ensures ApplyClaim(s, c, p, i) == c
  {
  }

  lemma {:induction false} ExecutionInv(s: Settings, trace: seq<Config>, n: nat)
    requires Execution(s, trace) && n < |trace|
    ensures QueueInv(trace[n])
  {
    hide Step, QueueInv;
    if n == 0 {
      assert QueueInv(INITIAL_CONFIG) by { InitialInv(); }
    } else {
      ExecutionInv(s, trace, n - 1);
      assert Step(s, trace[n - 1], trace[n]);
      StepInv(s, trace[n - 1], trace[n]);
    }
  }

  lemma InitialInv()
    ensures QueueInv(INITIAL_CONFIG)
  {
  }

  lemma StepInv(s: Settings, c: Config, c': Config)
    requires QueueInv(c) && Step(s, c, c')
    ensures QueueInv(c')
  {
    hide QueueInv, Apply, Enabled;
    var a, i :| Enabled(c, a, i) && c' == Apply(s, c, a, i);
    ApplyQueueInv(s, c, a, i);
  }

  // ---- what it says ---------------------------------------------------------------------

  ghost predicate Live(db: Database, e: string, run: string, step: nat) {
    Holds(db, e, RunStep(run, step)) && db.events[e].status != DONE
  }

  /** No stranded run: in every reachable state, crash states included, a RUNNING run at
      generation s has exactly one PENDING or CLAIMED `run.step` event for s, and no event of any
      run is ahead of the run. */
  lemma NoStrandedRun(s: Settings, trace: seq<Config>, n: nat, run: string)
    requires Execution(s, trace) && n < |trace| && run in trace[n].db.runs
    ensures var db := trace[n].db; var row := db.runs[run];
      && (row.status == RUNNING ==>
            exists e :: Live(db, e, run, row.stepCount)
                        && forall e' | Live(db, e', run, row.stepCount) :: e' == e)
      && (forall e | e in db.events && db.events[e].work.RunStep? && db.events[e].work.run == run ::
            db.events[e].work.step <= row.stepCount)
  {
    hide Execution;
    ExecutionInv(s, trace, n);
    var db := trace[n].db;
    var row := db.runs[run];
    assert forall e | e in db.events :: StepEventOk(db.runs, db.events[e]);
    if row.status == RUNNING {
      assert Scheduled(db, run);
      var e := db.eventKeys[RunStepKey(run, row.stepCount)];
      assert StepKeyOk(db.events[e]) && StepEventOk(db.runs, db.events[e]);
      assert Live(db, e, run, row.stepCount);
      forall e' | Live(db, e', run, row.stepCount)
        ensures e' == e
      {
        assert StepEventOk(db.runs, db.events[e']);
      }
    }
  }

  // ---- what a request asks for ----------------------------------------------------------

  /** The task is text that is not blank, and the capabilities, if given, are a list of strings. */
  predicate WellFormed(payload: map<string, Json>) {
    && "task" in payload && payload["task"].Str? && Strip(payload["task"].s) != ""
    && ("capabilities" in payload ==>
          payload["capabilities"].Arr? && forall j | j in payload["capabilities"].items :: j.Str?)
  }

  /** The request lists the capability `x`. */
  predicate Asks(payload: map<string, Json>, x: string) {
    "capabilities" in payload && payload["capabilities"].Arr? && Str(x) in payload["capabilities"].items
  }

  /** The run does the request's task, with the capabilities it lists and no others. */
  ghost predicate Fulfils(row: RunRow, payload: map<string, Json>)
    requires WellFormed(payload)
  {
    row.task == Strip(payload["task"].s) && forall x :: x in row.capabilities <==> Asks(payload, x)
  }

  lemma AdmitMeaning(payload: map<string, Json>)
    ensures AdmitTask(payload).Task? <==> WellFormed(payload)
    ensures WellFormed(payload) ==>
      && AdmitTask(payload).task == Strip(payload["task"].s)
      && forall x :: x in AdmitTask(payload).capabilities <==> Asks(payload, x)
  {
    var capabilities := if "capabilities" in payload then payload["capabilities"] else Arr([]);
    if capabilities.Arr? {
      assert StringArray(capabilities) <==> forall j | j in capabilities.items :: j.Str?;
    }
  }

  /** Exactly once from request to run: a DONE request that is well formed has exactly one run bound to
      it, with its stripped task and exactly the capabilities it lists; a DONE request that is not has its
      EVENT_REJECTED entry. No dedup key, hence no schedule occurrence, has two events, and no
      request has two runs, finished or not. */
  lemma AnsweredOnce(s: Settings, trace: seq<Config>, n: nat, e: string)
    requires Execution(s, trace) && n < |trace|
    requires e in trace[n].db.events && trace[n].db.events[e].work.TaskRequested?
    ensures var db := trace[n].db; var row := db.events[e];
      row.status == DONE ==>
        if WellFormed(row.work.payload)
        then exists r :: r in db.runs && db.runs[r].source == Some(e) && Fulfils(db.runs[r], row.work.payload)
        else Rejected(db.journal, e)
    ensures forall r, r' | r in trace[n].db.runs && r' in trace[n].db.runs
                           && trace[n].db.runs[r].source == Some(e) && trace[n].db.runs[r'].source == Some(e) :: r == r'
    ensures forall e' | e' in trace[n].db.events && trace[n].db.events[e].dedup.Some?
                        && trace[n].db.events[e'].dedup == trace[n].db.events[e].dedup :: e' == e
  {
    hide Execution, AdmitTask, Scheduled, PcOk, WellFormed, Asks;
    ExecutionInv(s, trace, n);
    var db := trace[n].db;
    AdmitMeaning(db.events[e].work.payload);
    if db.events[e].status == DONE && WellFormed(db.events[e].work.payload) {
      assert Answered(db, e, db.events[e].work.payload);
      var r := db.runSources[e];
      assert r in db.runs && db.runs[r].source == Some(e);
    }
  }
}
