/** The `Engine` class. `RunOnce` performs the durable writes in the source's order, with its two
    nested exception handlers; each method proves that what it did is a statement sequence of the
    protocol, so every theorem about executions holds of the stores it leaves behind. */
module TaskEngine {
  import opened Basics
  import opened JsonValues
  import opened Tables
  import opened StoredDecisions
  import opened Protocol
  import opened Growth
  import opened AdmissionSafety
  import opened SoloInvariant
  import opened Paths
  import opened DurableStore
  import opened EffectRegistry
  import opened Recovery
  import opened Replay
  import opened QueueSafety

  /** What one call meets outside: clock, UUIDs, the model, the handler, the text of an exception. */
  datatype Surroundings = Surroundings(now: int, newRun: string, newEvent: string, reply: Reply, outcome: Outcome, text: string)

  /** `None`, the run identifier, or the exception that leaves `run_once`. */
  datatype Turn = NoEvent | Finished(run: Option<string>) | Threw

  function Facing(env: Surroundings): Input {
    Input(env.now, env.newRun, env.newEvent, None, env.reply, env.outcome, env.text)
  }

  /** The event is DONE and nothing else of the queue, the runs or the ledger has changed. */
  predicate Done(a: Database, b: Database, e: string) {
    && e in a.events && b.events == a.events[e := a.events[e].(status := DONE, leaseOwner := None, leaseUntil := None)]
    && b.eventKeys == a.eventKeys && SameRuns(a, b) && SameTranscripts(a, b) && SameLedger(a, b)
  }

  predicate IsDone(db: Database, e: string) {
    e in db.events && db.events[e].status == DONE
  }

  /** A statement raised: the queue and the runs are as they were, as long as the lease is held. */
  predicate Unclosed(a: Database, b: Database, f: Frame, worker: string) {
    Owns(a, f.visit.event, worker) ==> b.events == a.events && b.eventKeys == a.eventKeys && b.runs == a.runs
  }

  /** The error is noted on the run, and nothing else of it; the event waits for its retry. */
  predicate WillRetry(a: Database, b: Database, f: Frame, error: string) {
    && f.visit.event in a.events
    && b.events == a.events[f.visit.event := a.events[f.visit.event].(
         status := PENDING, leaseOwner := None, leaseUntil := None, availableAt := f.visit.now + Backoff(f.visit.attempts))]
    && b.runs == if f.run in a.runs then a.runs[f.run := a.runs[f.run].(lastError := Some(error))] else a.runs
  }

  /** The run is RUNNING at this generation. */
  predicate AtStep(db: Database, run: string, step: nat) {
    run in db.runs && db.runs[run].status == RUNNING && db.runs[run].stepCount == step
  }

  /** The run is at its next generation; a free event key has been given its event. */
  predicate Advanced(a: Database, b: Database, f: Frame, newEvent: string) {
    && f.run in a.runs && f.run in b.runs
    && b.runs[f.run] == a.runs[f.run].(stepCount := f.step + 1, lastError := None)
    && (RunStepKey(f.run, f.step + 1) !in a.eventKeys && newEvent !in a.events && f.visit.event in a.events ==>
          && newEvent in b.events
          && b.events[newEvent] == EventRow(RunStep(f.run, f.step + 1), f.visit.priority, Some(RunStepKey(f.run, f.step + 1)),
                                            PENDING, f.visit.now, None, None, 0, f.visit.now))
  }

  /** Where a finished tool call leaves its run: at the next generation, blocked on an effect whose row is
      unresolved, or FAILED when there is no such row. */
  predicate CallClosed(a: Database, b: Database, f: Frame, call: Call, newEvent: string, error: string) {
    var unresolved := call.request in b.effects && b.effects[call.request].state in {EXECUTING, ATTEMPTED_UNKNOWN};
    || Advanced(a, b, f, newEvent)
    || (unresolved && f.run in a.runs && b.runs == a.runs[f.run := a.runs[f.run].(
          status := BLOCKED_EFFECT, blockedRequest := Some(call.request), lastError := Some(error))])
    || (!unresolved && f.run in a.runs && b.runs == a.runs[f.run := a.runs[f.run].(status := FAILED, lastError := Some(error))])
  }

  /** Where a finished step leaves its run, by its stored decision. */
  predicate StepClosed(a: Database, b: Database, f: Frame, newEvent: string, error: string) {
    && StepId(f.run, f.step) in b.decisions && f.run in a.runs
    && match b.decisions[StepId(f.run, f.step)]
       case ToolCall(call) => CallClosed(a, b, f, call, newEvent, error)
       case FinalText(text) => b.runs == a.runs[f.run := a.runs[f.run].(
         status := COMPLETED, finalText := Some(text), lastError := None, stepCount := a.runs[f.run].stepCount + 1)]
  }

  lemma CallClosedSame(a: Database, middle: Database, b: Database, f: Frame, call: Call, newEvent: string, error: string, worker: string)
    requires SameQueue(a, middle)
    ensures CallClosed(middle, b, f, call, newEvent, error) || Advanced(middle, b, f, newEvent) ==> CallClosed(a, b, f, call, newEvent, error)
    ensures Unclosed(middle, b, f, worker) ==> Unclosed(a, b, f, worker)
  {
  }

  lemma StepClosedSame(a: Database, middle: Database, b: Database, f: Frame, newEvent: string, error: string)
    requires SameQueue(a, middle) && StepClosed(middle, b, f, newEvent, error)
    ensures StepClosed(a, b, f, newEvent, error)
  {
  }

  /** What a delivered `run.step` event comes to, on the rows right after its claim: an unknown run is an
      exception; a stale step or a stopped run is only acknowledged; at `max_steps` the run is FAILED; a
      step is closed by its stored decision, or noted on the run and retried with back-off. */
  predicate StepOutcome(a: Database, b: Database, f: Frame, maxSteps: nat, turn: Turn, newEvent: string, error: string) {
    && (turn.Finished? ==> turn.run == Some(f.run) && IsDone(b, f.visit.event))
    && (f.run !in a.runs ==> turn.Threw? && b == a)
    && (f.run in a.runs && !AtStep(a, f.run, f.step) ==> turn.Finished? && SameRuns(a, b))
    && (AtStep(a, f.run, f.step) && f.step >= maxSteps ==>
          turn.Finished? && b.runs == a.runs[f.run := a.runs[f.run].(status := FAILED, lastError := Some("max_steps exceeded"))])
    && (AtStep(a, f.run, f.step) && f.step < maxSteps ==>
          if turn.Finished? then StepClosed(a, b, f, newEvent, error) else WillRetry(a, b, f, error))
  }

  /** What a delivered request comes to. */
  ghost predicate RequestOutcome(a: Database, b: Database, v: Visit, payload: map<string, Json>, turn: Turn, newRun: string,
                                 newEvent: string, worker: string) {
    && (turn.Finished? ==> IsDone(b, v.event))
    && (if WellFormed(payload) then
          && (turn.Finished? <==> Bindable(a, payload, v.event, newRun, newEvent))
          && (turn.Finished? ==>
                && turn.run.Some? && v.event in b.runSources && b.runSources[v.event] == turn.run.value
                && turn.run.value in b.runs && Fulfils(b.runs[turn.run.value], payload))
        else
          && turn == Finished(None) && SameRuns(a, b)
          && b.journal == a.journal + [EventRejected(v.event, v.now), EventAcked(v.event, worker, v.now)])
  }

  // ---- single statements ----------------------------------------------------------------

  lemma EventOne(s: Settings, p: string, pc: PC, db: Database, h: History, env: Surroundings)
    requires EventPhase(pc)
    ensures Leads(s, p, Result(pc, db, h), EventStep(p, pc, db, h, Facing(env)))
  {
    hide Leads, EventStep, DecisionStep, ClosingStep, ToolStep, TickStep;
    One(s, p, Result(pc, db, h), Facing(env));
  }

  lemma DecisionOne(s: Settings, p: string, pc: PC, db: Database, h: History, env: Surroundings)
    requires DecisionPhase(pc)
    ensures Leads(s, p, Result(pc, db, h), DecisionStep(s, pc, db, h, Facing(env)))
  {
    hide Leads, EventStep, DecisionStep, ClosingStep, ToolStep, TickStep;
    One(s, p, Result(pc, db, h), Facing(env));
  }

  lemma ClosingOne(s: Settings, p: string, pc: PC, db: Database, h: History, env: Surroundings)
    requires ClosingPhase(pc)
    ensures Leads(s, p, Result(pc, db, h), ClosingStep(pc, db, h, Facing(env)))
  {
    hide Leads, EventStep, DecisionStep, ClosingStep, ToolStep, TickStep;
    One(s, p, Result(pc, db, h), Facing(env));
  }

  /** Acknowledgement and its journal entry. */
  lemma AckPath(s: Settings, p: string, v: Visit, handler: Option<Frame>, db: Database, h: History, env: Surroundings)
    ensures Leads(s, p, Result(Acking(v, handler), db, h),
                  match Acknowledge(db, v.event, p)
                  case Some(db') => Result(Idle, Log(db', EventAcked(v.event, p, v.now)), AddLease(h, v.event, Acked(p)))
                  case None => Result(if handler.Some? then NotingError(handler.value) else Aborted, db, h))
  {
    hide Leads, Acknowledge, Log, AddLease;
    EventOne(s, p, Acking(v, handler), db, h, env);
    match Acknowledge(db, v.event, p)
    case Some(db') =>
      var h' := AddLease(h, v.event, Acked(p));
      EventOne(s, p, AckJournaling(v), db', h', env);
      Then(s, p, Result(Acking(v, handler), db, h), Result(AckJournaling(v), db', h'),
           Result(Idle, Log(db', EventAcked(v.event, p, v.now)), h'));
    case None =>
  }

  /** `last_error`, the retry, its journal entry, and the exception goes on. */
  lemma FailPath(s: Settings, p: string, f: Frame, db: Database, h: History, env: Surroundings)
    ensures var db1 := NoteError(db, f.run, env.text);
      var retryAt := f.visit.now + Backoff(f.visit.attempts);
      Leads(s, p, Result(NotingError(f), db, h),
            match Requeue(db1, f.visit.event, p, retryAt)
            case Some(db2) => Result(Aborted, Log(db2, EventRetryScheduled(f.visit.event, p, retryAt, f.visit.now)),
                                     AddLease(h, f.visit.event, Retried(p, retryAt, f.visit.attempts)))
            case None => Result(Aborted, db1, h))
  {
    hide Leads, UpdateRun, Requeue, Log, AddLease, Backoff;
    var db1 := NoteError(db, f.run, env.text);
    var retryAt := f.visit.now + Backoff(f.visit.attempts);
    var start := Result(NotingError(f), db, h);
    ClosingOne(s, p, NotingError(f), db, h, env);
    EventOne(s, p, Requeueing(f), db1, h, env);
    match Requeue(db1, f.visit.event, p, retryAt)
    case Some(db2) =>
      var h' := AddLease(h, f.visit.event, Retried(p, retryAt, f.visit.attempts));
      EventOne(s, p, RequeueJournaling(f), db2, h', env);
      Then(s, p, start, Result(Requeueing(f), db1, h), Result(RequeueJournaling(f), db2, h'));
      Then(s, p, start, Result(RequeueJournaling(f), db2, h'),
           Result(Aborted, Log(db2, EventRetryScheduled(f.visit.event, p, retryAt, f.visit.now)), h'));
    case None => Then(s, p, start, Result(Requeueing(f), db1, h), Result(Aborted, db1, h));
  }

  /** The block and its journal entry. */
  lemma BlockPath(s: Settings, p: string, f: Frame, request: string, db: Database, h: History, env: Surroundings)
    ensures Leads(s, p, Result(Blocking(f, request), db, h),
                  match BlockRun(db, f.run, request, env.text)
                  case Some(db') => Result(Acking(f.visit, Some(f)), Log(db', RunBlockedEffect(f.run, request, f.visit.now)), h)
                  case None => Result(NotingError(f), db, h))
  {
    hide Leads, BlockRun, Log;
    ClosingOne(s, p, Blocking(f, request), db, h, env);
    match BlockRun(db, f.run, request, env.text)
    case Some(db') =>
      ClosingOne(s, p, BlockJournaling(f, request), db', h, env);
      Then(s, p, Result(Blocking(f, request), db, h), Result(BlockJournaling(f, request), db', h),
           Result(Acking(f.visit, Some(f)), Log(db', RunBlockedEffect(f.run, request, f.visit.now)), h));
    case None =>
  }

  lemma RecordResultOne(s: Settings, p: string, f: Frame, call: Call, output: Json, db: Database, h: History, env: Surroundings)
    ensures Leads(s, p, Result(Returned(FromStep(f), call, output), db, h),
                  Settle(RecordMessage(db, f.run, ResultMessage(f, call, output)), db, h, Advancing(f), NotingError(f)))
  {
    hide Leads, RecordMessage;
    ToolOne(s, p, Returned(FromStep(f), call, output), db, h, env.outcome);
  }

  lemma RecordReconciledOne(s: Settings, p: string, run: string, now: int, granted: set<string>, call: Call, output: Json,
                            db: Database, h: History, env: Surroundings)
    ensures Leads(s, p, Result(Returned(FromResume(run, now, granted), call, output), db, h),
                  Settle(RecordMessage(db, run, ReconciledMessage(call, output)), db, h, Resuming(run, now), Aborted))
  {
    hide Leads, RecordMessage;
    ToolOne(s, p, Returned(FromResume(run, now, granted), call, output), db, h, env.outcome);
  }

  lemma DecideOne(s: Settings, p: string, f: Frame, db: Database, h: History, env: Surroundings)
    ensures var id := StepId(f.run, f.step);
      Leads(s, p, Result(Deciding(f), db, h), Result(if id in db.decisions then Reread(f, db.decisions[id]) else Asking(f), db, h))
  {
    hide Leads, Reread;
    DecisionOne(s, p, Deciding(f), db, h, env);
  }

  lemma AskOne(s: Settings, p: string, f: Frame, db: Database, h: History, env: Surroundings)
    ensures Leads(s, p, Result(Asking(f), db, h),
                  Result(if env.reply.Answer? then RecordingDecision(f, env.reply.decision) else NotingError(f), db, h))
  {
    hide Leads;
    DecisionOne(s, p, Asking(f), db, h, env);
  }

  lemma RecordDecisionOne(s: Settings, p: string, f: Frame, d: Decision, db: Database, h: History, env: Surroundings)
    ensures Leads(s, p, Result(RecordingDecision(f, d), db, h),
                  Settle(RecordDecision(db, f.run, f.step, d), db, h, Act(f, d), NotingError(f)))
  {
    hide Leads, Act, RecordDecision;
    DecisionOne(s, p, RecordingDecision(f, d), db, h, env);
  }

  lemma RecordCallOne(s: Settings, p: string, f: Frame, call: Call, db: Database, h: History, env: Surroundings)
    ensures Leads(s, p, Result(RecordingCall(f, call), db, h),
                  Settle(RecordMessage(db, f.run, CallMessage(f, call)), db, h, Executing(FromStep(f), call), NotingError(f)))
  {
    hide Leads, RecordMessage;
    DecisionOne(s, p, RecordingCall(f, call), db, h, env);
  }

  lemma RecordFinalOne(s: Settings, p: string, f: Frame, text: string, db: Database, h: History, env: Surroundings)
    ensures Leads(s, p, Result(RecordingFinal(f, text), db, h),
                  Settle(RecordMessage(db, f.run, FinalMessage(f, text)), db, h, Completing(f, text), NotingError(f)))
  {
    hide Leads, RecordMessage;
    DecisionOne(s, p, RecordingFinal(f, text), db, h, env);
  }

  /** The database and history right after a claim, with the process at its first statement. */
  function AfterClaim(s: Settings, db: Database, h: History, p: string, e: Event, now: int): Result
    requires e.id in db.events
  {
    Result(Dispatch(Visit(e.id, e.priority, e.attempts, now), e.work), Claim(db, e.id, p, now, s.lease),
           AddLease(h, e.id, Claimed(p, now, now + s.lease, e.attempts)))
  }

  /** A delivery of the class is a delivery of the system. */
  lemma DeliveryReaches(s: Settings, c: Config, p: string, e: Event, now: int, b: Result)
    requires Pc(c, p).Idle? && BestEligible(c.db, e.id, now)
    requires e == Event(e.id, c.db.events[e.id].work, c.db.events[e.id].priority, c.db.events[e.id].attempts + 1)
    requires Leads(s, p, AfterClaim(s, c.db, c.hist, p, e, now), b)
    ensures Reaches(s, c, At(c.procs, p, b))
  {
    hide Leads, Step;
    var a := AfterClaim(s, c.db, c.hist, p, e, now);
    LeadsReaches(s, c.procs, p, a, b);
    ClaimIsStep(s, c, p, e, now);
    ReachesOn(s, c, At(c.procs, p, a), At(c.procs, p, b));
  }

  lemma ClaimIsStep(s: Settings, c: Config, p: string, e: Event, now: int)
    requires Pc(c, p).Idle? && BestEligible(c.db, e.id, now)
    requires e == Event(e.id, c.db.events[e.id].work, c.db.events[e.id].priority, c.db.events[e.id].attempts + 1)
    ensures Step(s, c, At(c.procs, p, AfterClaim(s, c.db, c.hist, p, e, now)))
  {
    hide Dispatch, Next, BestEligible;
    var i := Input(now, "", "", Some(e.id), NoAnswer, Failure(false), "");
    assert e.id in c.db.events by { Known(c.db, e.id, now); }
    assert Enabled(c, ClaimNext(p), i);
    assert At(c.procs, p, AfterClaim(s, c.db, c.hist, p, e, now)) == Apply(s, c, ClaimNext(p), i);
  }

  /** A resume of the class is a resume of the system. */
  lemma ResumeReaches(s: Settings, c: Config, p: string, run: string, now: int, b: Result)
    requires Pc(c, p).Idle? && Leads(s, p, Result(StartResume(c, p, run, now), c.db, c.hist), b)
    ensures Reaches(s, c, At(c.procs, p, b))
  {
    hide Leads, Step, StartResume;
    var a := Result(StartResume(c, p, run, now), c.db, c.hist);
    LeadsReaches(s, c.procs, p, a, b);
    assert Step(s, c, At(c.procs, p, a)) by { ResumeIsStep(s, c, p, run, now); }
    ReachesOn(s, c, At(c.procs, p, a), At(c.procs, p, b));
  }

  lemma ResumeIsStep(s: Settings, c: Config, p: string, run: string, now: int)
    requires Pc(c, p).Idle?
    ensures Step(s, c, At(c.procs, p, Result(StartResume(c, p, run, now), c.db, c.hist)))
  {
    hide Next, StartResume;
    var i := Input(now, "", "", None, NoAnswer, Failure(false), "");
    assert Enabled(c, Resume(p, run), i);
    assert At(c.procs, p, Result(StartResume(c, p, run, now), c.db, c.hist)) == Apply(s, c, Resume(p, run), i);
  }

  /** The resume of `p`, uninterrupted, ends idle with the run RUNNING at the next generation. */
  ghost predicate Proceeds(s: Settings, c: Config, p: string, run: string, now: int, newEvent: string) {
    exists b: Result :: Leads(s, p, Result(StartResume(c, p, run, now), c.db, c.hist), b) && b.pc.Idle?
                        && Resumed(c.db, b.db, run, newEvent)
  }

  /** The statements of a recovery from a COMMITTED row. */
  lemma RecoveryPath(s: Settings, c: Config, p: string, run: string, now: int, newEvent: string)
    requires Resumable(s, c, run) && newEvent !in c.db.events && c.db.runs[run].blockedRequest != Some("")
    ensures Proceeds(s, c, p, run, now, newEvent)
  {
    hide Leads, Resumable, Resumed, StoredCall, RecordMessage, ResumeRun, AddCompletion;
    BlockedCommitted(s, c, run);
    RecoveryWrites(s, c, run, newEvent, now);
    var env := Surroundings(now, "", newEvent, NoAnswer, Failure(false), "");
    var q := c.db.runs[run].blockedRequest.value;
    var granted := c.db.runs[run].capabilities;
    var row := c.db.effects[q];
    var k := FromResume(run, now, granted);
    var call, output := StoredCall(q, row.request), row.result.value;
    assert call.(tool := row.tool) == call;
    var a := Result(Recovering(run, now, granted, q), c.db, c.hist);
    var h := AddCompletion(c.hist, q, output);
    var db1 := RecordMessage(c.db, run, ReconciledMessage(call, output)).value;
    var b := Result(Idle, ResumeRun(db1, run, newEvent, 0, now).value, h);
    RecoverOne(s, p, run, now, granted, q, c.db, c.hist);
    RecordReconciledOne(s, p, run, now, granted, call, output, c.db, h, env);
    Then(s, p, a, Result(Returned(k, call, output), c.db, h), Result(Resuming(run, now), db1, h));
    ClosingOne(s, p, Resuming(run, now), db1, h, env);
    Then(s, p, a, Result(Resuming(run, now), db1, h), b);
  }

  /** An aborted process writes nothing. */
  lemma AbortedStays(s: Settings, p: string, a: Result, b: Result)
    requires a.pc.Aborted? && Leads(s, p, a, b)
    ensures b.db == a.db
  {
    hide EventStep, DecisionStep, ClosingStep, ToolStep, TickStep;
    var n: nat :| LeadsIn(s, p, a, b, n);
    if n > 0 {
      var i: Input :| LeadsIn(s, p, Next(s, p, a.pc, a.db, a.hist, i), b, n - 1);
      assert Next(s, p, a.pc, a.db, a.hist, i) == Result(Idle, a.db, a.hist);
    }
  }

  /** The statements of a recovery from a row reconciled as having had no effect: the stored call is
      executed again, and its handler returns. */
  lemma RetryPath(s: Settings, c: Config, p: string, run: string, now: int, newEvent: string, output: Json)
    requires Retryable(s, c, run) && newEvent !in c.db.events && c.db.runs[run].blockedRequest != Some("")
    requires WaitingFor(c.db, run).arguments.Obj?
    ensures Proceeds(s, c, p, run, now, newEvent)
  {
    hide Leads, Retryable, Resumed, StoredCall, RecordMessage, ResumeRun, HandlerHistory, AfterHandler, SetEffect, Handled;
    hide Admissible, LedgerOk, SameRequest, AdmitEffect;
    RetryCall(s, c, run);
    var env := Surroundings(now, "", newEvent, NoAnswer, Failure(false), "");
    var q, granted := c.db.runs[run].blockedRequest.value, c.db.runs[run].capabilities;
    var k := FromResume(run, now, granted);
    var call := WaitingFor(c.db, run);
    var a := Result(Recovering(run, now, granted, q), c.db, c.hist);
    RetryExecution(s, p, k, call, c.db, c.hist, output);
    RecoverOne(s, p, run, now, granted, q, c.db, c.hist);
    var db1 := AfterHandler(SetEffect(c.db, q, EXECUTING, None), call, Output(output));
    HandledAfter(c.db, call, Output(output));
    RetryWrites(s, c, run, db1, output, newEvent, now);
    var h := HandlerHistory(k, call, Output(output), c.hist);
    Then(s, p, a, Result(Executing(k, call), c.db, c.hist), Result(Returned(k, call, output), db1, h));
    RecordReconciledOne(s, p, run, now, granted, call, output, db1, h, env);
    var db2 := RecordMessage(db1, run, ReconciledMessage(call, output)).value;
    Then(s, p, a, Result(Returned(k, call, output), db1, h), Result(Resuming(run, now), db2, h));
    ClosingOne(s, p, Resuming(run, now), db2, h, env);
    Then(s, p, a, Result(Resuming(run, now), db2, h), Result(Idle, ResumeRun(db2, run, newEvent, 0, now).value, h));
  }

  lemma RetryExecution(s: Settings, p: string, k: Caller, call: Call, db: Database, h: History, output: Json)
    requires LedgerOk(s, db) && Admissible(s, call, Granted(k)) && s.tools[call.tool].mutation
    requires call.request in db.effects && db.effects[call.request].state == RECONCILED_NO_EFFECT
    requires SameRequest(db.effects[call.request], call)
    ensures Leads(s, p, Result(Executing(k, call), db, h),
                  Result(Returned(k, call, output), AfterHandler(SetEffect(db, call.request, EXECUTING, None), call, Output(output)),
                         HandlerHistory(k, call, Output(output), h)))
  {
    hide Leads, AfterHandler, HandlerHistory, SetEffect, LedgerOk, SameRequest, Admissible;
    DigestIdentifies(s, db, call);
    var a := Result(Executing(k, call), db, h);
    var armed := Result(Invoking(k, call, true), SetEffect(db, call.request, EXECUTING, None), h);
    LookupOne(s, p, k, call, db, h);
    RearmOne(s, p, k, call, db, h);
    Then(s, p, a, Result(Rearming(k, call), db, h), armed);
    MutationPath(s, p, k, call, armed.db, h, Output(output));
    Then(s, p, a, armed, Result(Returned(k, call, output), AfterHandler(armed.db, call, Output(output)),
                                HandlerHistory(k, call, Output(output), h)));
  }

  /** A recovery that finds stored arguments which are not an object writes nothing. */
  lemma UnreadableStays(s: Settings, c: Config, p: string, run: string, now: int, b: Result)
    requires run in c.db.runs && c.db.runs[run].status == BLOCKED_EFFECT && c.db.runs[run].blockedRequest.Some?
    requires c.db.runs[run].blockedRequest != Some("") && c.db.runs[run].blockedRequest.value in c.db.effects
    requires c.db.effects[c.db.runs[run].blockedRequest.value].state == RECONCILED_NO_EFFECT
    requires !WaitingFor(c.db, run).arguments.Obj?
    requires Leads(s, p, Result(StartResume(c, p, run, now), c.db, c.hist), b)
    ensures b.pc.Idle? ==> b.db == c.db
  {
    hide EventStep, DecisionStep, ClosingStep, ToolStep, TickStep, StoredCall, Leads;
    var a := Result(StartResume(c, p, run, now), c.db, c.hist);
    var n: nat := PathLength(s, p, a, b);
    if n > 0 {
      var i: Input :| LeadsIn(s, p, Next(s, p, a.pc, a.db, a.hist, i), b, n - 1);
      var q := c.db.runs[run].blockedRequest.value;
      RecoveringNext(s, p, run, now, c.db.runs[run].capabilities, q, c.db, c.hist, i);
      assert Leads(s, p, Result(Aborted, c.db, c.hist), b) by { ByLength(s, p, Result(Aborted, c.db, c.hist), b, n - 1); }
      AbortedStays(s, p, Result(Aborted, c.db, c.hist), b);
    }
  }

  lemma PathLength(s: Settings, p: string, a: Result, b: Result) returns (n: nat)
    requires Leads(s, p, a, b)
    ensures LeadsIn(s, p, a, b, n)
  {
    hide LeadsIn;
    n :| LeadsIn(s, p, a, b, n);
  }

  lemma ByLength(s: Settings, p: string, a: Result, b: Result, n: nat)
    requires LeadsIn(s, p, a, b, n)
    ensures Leads(s, p, a, b)
  {
    hide LeadsIn;
  }

  lemma RecoveringNext(s: Settings, p: string, run: string, now: int, granted: set<string>, q: string, db: Database, h: History, i: Input)
    requires q in db.effects && db.effects[q].state == RECONCILED_NO_EFFECT && !StoredCall(q, db.effects[q].request).arguments.Obj?
    ensures Next(s, p, Recovering(run, now, granted, q), db, h, i) == Result(Aborted, db, h)
  {
    hide EventStep, DecisionStep, ClosingStep, TickStep, StoredCall, RecordMessage, AddCompletion;
  }

  /** Exactly when a recovery can succeed: in every state that environment (S) with distinct request ids
      reaches, a run blocked on a COMMITTED request, or on one reconciled as having had no effect, can be
      resumed if and only if the request id is not the empty string, which `resume_blocked_effect` takes
      for none, and, where the call is to be executed again, its stored arguments are an object. */
  lemma ResumeProceeds(s: Settings, c: Config, p: string, run: string, now: int, newEvent: string)
    requires (Resumable(s, c, run) || Retryable(s, c, run)) && newEvent !in c.db.events
    ensures Proceeds(s, c, p, run, now, newEvent) <==>
              && c.db.runs[run].blockedRequest != Some("")
              && (Resumable(s, c, run) || WaitingFor(c.db, run).arguments.Obj?)
  {
    hide Leads, Resumable, Retryable, StoredCall, Admissible, LedgerOk, SameRequest;
    if Resumable(s, c, run) { BlockedCommitted(s, c, run); } else { RetryCall(s, c, run); }
    if c.db.runs[run].blockedRequest != Some("") && Resumable(s, c, run) {
      RecoveryPath(s, c, p, run, now, newEvent);
    } else if c.db.runs[run].blockedRequest != Some("") && WaitingFor(c.db, run).arguments.Obj? {
      RetryPath(s, c, p, run, now, newEvent, Null);
    } else if Proceeds(s, c, p, run, now, newEvent) {
      var b: Result :| Leads(s, p, Result(StartResume(c, p, run, now), c.db, c.hist), b) && b.pc.Idle?
                       && Resumed(c.db, b.db, run, newEvent);
      if c.db.runs[run].blockedRequest == Some("") {
        AbortedStays(s, p, Result(StartResume(c, p, run, now), c.db, c.hist), b);
      } else {
        UnreadableStays(s, c, p, run, now, b);
      }
    }
  }

  /** The one invocation of a retried recovery: the stored call, with the run's capabilities. */
  function RetryInvocation(db: Database, run: string): Invocation
    requires run in db.runs && db.runs[run].blockedRequest.Some? && db.runs[run].blockedRequest.value in db.effects
  {
    Invocation(WaitingFor(db, run), true, db.runs[run].capabilities, run)
  }

  /** The blocked run is RUNNING at its next generation, with that generation's event. */
  predicate Unblocked(a: Database, b: Database, run: string, newEvent: string, now: int) {
    && run in a.runs
    && b.runs == a.runs[run := a.runs[run].(
         status := RUNNING, blockedRequest := None, lastError := None, stepCount := a.runs[run].stepCount + 1)]
    && DurableStore.Scheduled(a, b, newEvent, run, a.runs[run].stepCount + 1, 0, now)
  }

  lemma UnblockedSame(a: Database, middle: Database, b: Database, run: string, newEvent: string, now: int)
    requires SameQueue(a, middle)
    ensures Unblocked(middle, b, run, newEvent, now) ==> Unblocked(a, b, run, newEvent, now)
  {
  }

  lemma Known(db: Database, id: string, now: int)
    requires BestEligible(db, id, now)
    ensures id in db.events
  {
  }

  /** The request's run is there and is what it asks for, or both identifiers are free; and the first event
      of the run can be had. */
  ghost predicate Bindable(db: Database, payload: map<string, Json>, event: string, newRun: string, newEvent: string)
    requires WellFormed(payload)
  {
    if event in db.runSources then
      var r := db.runSources[event];
      r in db.runs && Fulfils(db.runs[r], payload) && Schedulable(db, newEvent, r, 0, 0)
    else newRun !in db.runs && Schedulable(db, newEvent, newRun, 0, 0)
  }

  lemma BindableMeans(db: Database, payload: map<string, Json>, event: string, newRun: string, newEvent: string)
    requires WellFormed(payload)
    ensures AdmitTask(payload).Task?
    ensures Bindable(db, payload, event, newRun, newEvent)
        <==> Submittable(db, AdmitTask(payload).task, AdmitTask(payload).capabilities, Some(event), newRun, newEvent, 0)
  {
    hide AdmitTask, WellFormed, Asks, Schedulable;
    AdmitMeaning(payload);
    if event in db.runSources && db.runSources[event] in db.runs {
      SameCapabilities(db.runs[db.runSources[event]], AdmitTask(payload).capabilities, payload);
    }
  }

  lemma SameCapabilities(row: RunRow, capabilities: set<string>, payload: map<string, Json>)
    requires WellFormed(payload) && forall x :: x in capabilities <==> Asks(payload, x)
    ensures (forall x :: x in row.capabilities <==> Asks(payload, x)) <==> row.capabilities == capabilities
  {
    hide Asks, WellFormed;
  }

  lemma SameSchedulable(a: Database, b: Database, newEvent: string, run: string, step: nat, priority: int)
    requires b.events == a.events && b.eventKeys == a.eventKeys
    ensures Schedulable(b, newEvent, run, step, priority) == Schedulable(a, newEvent, run, step, priority)
  {
  }

  lemma AdvancedSame(a: Database, middle: Database, b: Database, f: Frame, newEvent: string)
    requires SameQueue(a, middle) && Advanced(middle, b, f, newEvent)
    ensures Advanced(a, b, f, newEvent)
  {
  }

  /** After the assistant's message, a committed call is still ready to be replayed. */
  lemma ReplayGoesOn(s: Settings, before: Database, recorded: Database, f: Frame, call: Call, newEvent: string, worker: string)
    requires ReplayReady(s, before, f, call, newEvent, worker)
    requires RecordMessage(before, f.run, CallMessage(f, call)).Some? ==>
               RecordMessage(before, f.run, CallMessage(f, call)) == Some(recorded)
    ensures RecordMessage(before, f.run, CallMessage(f, call)) == Some(recorded)
    ensures LedgerOk(s, recorded) && Answerable(recorded, call) && Admissible(s, call, f.capabilities) && MutationTool(s, call.tool)
    ensures recorded.effects == before.effects && SameQueue(before, recorded)
    ensures RecordMessage(recorded, f.run, ResultMessage(f, call, Stored(before, call))).Some?
    ensures f.run in recorded.runs && recorded.runs[f.run].status == RUNNING && recorded.runs[f.run].stepCount == f.step
    ensures Schedulable(recorded, newEvent, f.run, f.step + 1, f.visit.priority) && Owns(recorded, f.visit.event, worker)
  {
    hide RecordMessage, Admissible, LedgerOk, SameRequest, Schedulable;
    RecordMessageFrame(before, f.run, CallMessage(f, call));
    SameSchedulable(before, recorded, newEvent, f.run, f.step + 1, f.visit.priority);
    Replay.SameLedgerOk(s, before, recorded);
  }

  lemma Carry(s: Settings, before: Database, recorded: Database, after: Database, f: Frame, call: Call, newEvent: string, worker: string)
    requires ReplayReady(s, before, f, call, newEvent, worker) && SameQueue(before, recorded)
    requires Advanced(recorded, after, f, newEvent) && IsDone(after, f.visit.event)
    ensures Carried(before, after, f, newEvent)
  {
    hide RecordMessage, Admissible, LedgerOk, Answerable;
  }

  lemma RetrySame(a: Database, middle: Database, b: Database, f: Frame, error: string)
    ensures middle.events == a.events && middle.runs == a.runs && WillRetry(middle, b, f, error) ==> WillRetry(a, b, f, error)
  {
    hide Backoff;
  }

  function CapabilitiesOf(db: Database, run: string): set<string> {
    if run in db.runs then db.runs[run].capabilities else {}
  }

  /** The stored decision of the step is a committed mutation that can be replayed. */
  ghost predicate CommittedReady(s: Settings, db: Database, f: Frame, newEvent: string, worker: string) {
    && StepId(f.run, f.step) in db.decisions && db.decisions[StepId(f.run, f.step)].ToolCall?
    && Readable(db.decisions[StepId(f.run, f.step)])
    && ReplayReady(s, db, f, db.decisions[StepId(f.run, f.step)].call, newEvent, worker)
  }

  /** The claim of its redelivered event makes a committed step ready. */
  lemma ClaimReady(s: Settings, c: Config, worker: string, now: int, f: Frame, newEvent: string)
    requires CommittedStep(s, c, f.run, f.step) && newEvent !in c.db.events && f.visit.event in c.db.events
    requires f.capabilities == CapabilitiesOf(c.db, f.run)
    ensures var taken := Claim(c.db, f.visit.event, worker, now, s.lease);
      CommittedReady(s, taken, f, newEvent, worker) && AtStep(taken, f.run, f.step) && f.step < s.maxSteps
  {
    hide ReplayReady, Claim;
    ReplayStarts(s, c, worker, f.visit.event, now, f, newEvent);
    ClaimedSame(c.db, f.visit.event, worker, now, s.lease);
  }

  lemma CarriedSince(before: Database, taken: Database, b: Database, f: Frame, newEvent: string)
    requires taken.runs == before.runs && Carried(taken, b, f, newEvent)
    ensures Resumed(before, b, f.run, newEvent) && IsDone(b, f.visit.event)
  {
  }

  // ---- the class ------------------------------------------------------------------------

  class Engine {
    const store: Store
    const tools: ToolRegistry
    const worker: string
    const lease: int
    const maxSteps: nat

    ghost predicate Valid()
      reads tools
    {
      tools.store == store && tools.Valid()
    }

    ghost function Deployment(): (s: Settings)
      reads tools
      ensures tools.Serves(s) && s.maxSteps == maxSteps && s.lease == lease
      ensures tools.Valid() ==> ValidSettings(s)
    {
      Settings(tools.specs, tools.rx, maxSteps, lease)
    }

    constructor (store: Store, tools: ToolRegistry, worker: string, lease: int, maxSteps: nat)
      requires tools.store == store && tools.Valid()
      ensures Valid() && this.store == store && this.tools == tools
      ensures this.worker == worker && this.lease == lease && this.maxSteps == maxSteps
    {
      this.store := store;
      this.tools := tools;
      this.worker := worker;
      this.lease := lease;
      this.maxSteps := maxSteps;
    }

    /** `submit_task`: the run and its first event in one transaction, once per source. */
    method SubmitTask(task: string, capabilities: set<string>, source: Option<string>, env: Surroundings)
      returns (run: Option<string>)
      modifies store
      ensures match CreateRunWithInitialStep(old(store.db), env.newRun, env.newEvent, task, capabilities, source, 0, env.now)
              case Some(created) => store.db == created.db && run == Some(created.run)
              case None => store.db == old(store.db) && run == None
      ensures run.Some? <==> Submittable(old(store.db), task, capabilities, source, env.newRun, env.newEvent, 0)
      ensures run.Some? ==>
        && HasRunOf(old(store.db), store.db, task, capabilities, source, env.newRun, run.value)
        && DurableStore.Scheduled(old(store.db), store.db, env.newEvent, run.value, 0, 0, env.now)
    {
      run := store.CreateRunWithInitialStep(env.newRun, env.newEvent, task, capabilities, source, 0, env.now);
    }

    /** `ack_event` at the end of a delivery. */
    method Acknowledge(v: Visit, ghost handler: Option<Frame>, env: Surroundings, ghost h: History)
      returns (ok: bool, ghost h': History)
      modifies store
      ensures Leads(Deployment(), worker, Result(Acking(v, handler), old(store.db), h),
                    Result(if ok then Idle else if handler.Some? then NotingError(handler.value) else Aborted, store.db, h'))
      ensures ok <==> Owns(old(store.db), v.event, worker)
      ensures if ok then Done(old(store.db), store.db, v.event) && store.db.journal == old(store.db).journal + [EventAcked(v.event, worker, v.now)]
              else store.db == old(store.db)
      ensures h'.invocations == h.invocations
    {
      hide Leads;
      AckPath(Deployment(), worker, v, handler, store.db, h, env);
      ghost var db := store.db;
      ok := store.AckEvent(v.event, worker, v.now);
      h' := if ok then AddLease(h, v.event, Acked(worker)) else h;
    }

    /** A `task.requested` event: reject it with a journal entry, or bind it to its run. */
    method AcceptTask(v: Visit, payload: map<string, Json>, env: Surroundings, ghost h: History)
      returns (turn: Turn, ghost h': History)
      requires v.now == env.now
      modifies store
      ensures !turn.NoEvent?
      ensures Leads(Deployment(), worker, Result(Dispatch(v, TaskRequested(payload)), old(store.db), h),
                    Result(if turn.Threw? then Aborted else Idle, store.db, h'))
      ensures Owns(old(store.db), v.event, worker) ==>
                RequestOutcome(old(store.db), store.db, v, payload, turn, env.newRun, env.newEvent, worker)
      ensures turn.Finished? ==> Owns(old(store.db), v.event, worker)
    {
      hide Leads, AdmitTask, CreateRunWithInitialStep, WellFormed, Asks, Schedulable, Bindable;
      AdmitMeaning(payload);
      if WellFormed(payload) { BindableMeans(store.db, payload, v.event, env.newRun, env.newEvent); }
      ghost var s := Deployment();
      ghost var start := Result(Dispatch(v, TaskRequested(payload)), store.db, h);
      ghost var acking := Acking(v, None);
      var run: Option<string> := None;
      match AdmitTask(payload) {
        case BadTask =>
          EventOne(s, worker, Rejecting(v), store.db, h, env);
          store.AppendJournal(EventRejected(v.event, v.now));
        case Task(task, capabilities) =>
          EventOne(s, worker, Submitting(v, task, capabilities), store.db, h, env);
          run := SubmitTask(task, capabilities, Some(v.event), env);
          if run.None? {
            return Threw, h;
          }
      }
      ghost var middle := Result(acking, store.db, h);
      var ok;
      ok, h' := Acknowledge(v, None, env, h);
      turn := if ok then Finished(run) else Threw;
      Then(s, worker, start, middle, Result(if ok then Idle else Aborted, store.db, h'));
    }

    /** The stored decision, read back, or the model's answer made durable before it is acted on. */
    method Decide(f: Frame, env: Surroundings, ghost h: History) returns (decision: Option<Decision>)
      modifies store
      ensures Leads(Deployment(), worker, Result(Deciding(f), old(store.db), h),
                    Result(if decision.Some? then Act(f, decision.value) else NotingError(f), store.db, h))
      ensures decision.Some? ==> StepId(f.run, f.step) in store.db.decisions
                                 && store.db.decisions[StepId(f.run, f.step)] == decision.value
      ensures StepId(f.run, f.step) in old(store.db).decisions ==>
        var stored := old(store.db).decisions[StepId(f.run, f.step)];
        store.db == old(store.db) && decision == if Readable(stored) then Some(stored) else None
      ensures StepId(f.run, f.step) !in old(store.db).decisions ==>
        && (decision == if env.reply.Answer? && f.run in old(store.db).runs then Some(env.reply.decision) else None)
        && store.db == old(store.db).(decisions := store.db.decisions)
    {
      hide Leads, Act, ResponseFromDecision, DecisionFromResponse;
      ghost var s := Deployment();
      ghost var start := Result(Deciding(f), store.db, h);
      DecideOne(s, worker, f, store.db, h, env);
      var stored := store.GetRunStepDecision(f.run, f.step);
      if stored.Some? {
        DecisionReadBack(stored.value);
        decision := ResponseFromDecision(DecisionFromResponse(stored.value));
      } else {
        decision := None;
        AskOne(s, worker, f, store.db, h, env);
        Then(s, worker, start, Result(Asking(f), store.db, h),
             Result(if env.reply.Answer? then RecordingDecision(f, env.reply.decision) else NotingError(f), store.db, h));
        if env.reply.Answer? {
          var answer := env.reply.decision;
          RecordDecisionOne(s, worker, f, answer, store.db, h, env);
          ghost var asked := Result(RecordingDecision(f, answer), store.db, h);
          var ok := store.RecordRunStepDecision(f.run, f.step, answer);
          decision := if ok then Some(answer) else None;
          Then(s, worker, start, asked, Result(if ok then Act(f, answer) else NotingError(f), store.db, h));
        }
      }
    }

    /** After the last closing write: acknowledge; a lost lease is an exception of the step. */
    method Close(f: Frame, env: Surroundings, ghost start: Result, ghost h: History) returns (ok: bool, ghost h': History)
      requires Leads(Deployment(), worker, start, Result(Acking(f.visit, Some(f)), store.db, h))
      modifies store
      ensures Leads(Deployment(), worker, start, Result(if ok then Idle else NotingError(f), store.db, h'))
      ensures ok <==> Owns(old(store.db), f.visit.event, worker)
      ensures if ok then Done(old(store.db), store.db, f.visit.event) else store.db == old(store.db)
      ensures h'.invocations == h.invocations
    {
      hide Leads, Done;
      ghost var middle := Result(Acking(f.visit, Some(f)), store.db, h);
      ok, h' := Acknowledge(f.visit, Some(f), env, h);
      Then(Deployment(), worker, start, middle, Result(if ok then Idle else NotingError(f), store.db, h'));
    }

    /** The inner `except`: block on an unresolved effect, fail on a ToolError, or raise on. */
    method HandleToolError(f: Frame, call: Call, toolError: bool, env: Surroundings, ghost start: Result, ghost h: History)
      returns (ok: bool, ghost h': History)
      requires Valid()
      requires Leads(Deployment(), worker, start, Result(Raised(FromStep(f), call, toolError), store.db, h))
      modifies store
      ensures Leads(Deployment(), worker, start, Result(if ok then Idle else NotingError(f), store.db, h'))
      ensures h'.invocations == h.invocations && store.db.effects == old(store.db).effects && store.db.decisions == old(store.db).decisions
      ensures if ok then IsDone(store.db, f.visit.event) else Unclosed(old(store.db), store.db, f, worker)
      ensures var unresolved := call.request in old(store.db).effects
                                && old(store.db).effects[call.request].state in {EXECUTING, ATTEMPTED_UNKNOWN};
        if unresolved then
          && (ok <==> f.run in old(store.db).runs && old(store.db).runs[f.run].status == RUNNING
                      && Owns(old(store.db), f.visit.event, worker))
          && (ok ==> store.db.runs == old(store.db).runs[f.run := old(store.db).runs[f.run].(
                status := BLOCKED_EFFECT, blockedRequest := Some(call.request), lastError := Some(env.text))])
        else if toolError then
          && (ok <==> Owns(old(store.db), f.visit.event, worker))
          && (f.run in old(store.db).runs ==>
                store.db.runs == old(store.db).runs[f.run := old(store.db).runs[f.run].(
                  status := FAILED, lastError := Some(env.text))])
        else !ok && store.db == old(store.db)
      ensures ok && f.run in old(store.db).runs ==> CallClosed(old(store.db), store.db, f, call, env.newEvent, env.text)
    {
      hide Leads, BlockRun, UpdateRun;
      ghost var s := Deployment();
      ghost var raised := Result(Raised(FromStep(f), call, toolError), store.db, h);
      RaiseOne(s, worker, FromStep(f), call, toolError, store.db, h);
      ghost var next := Result(AfterRaise(FromStep(f), call, toolError, store.db), store.db, h);
      Then(s, worker, start, raised, next);
      var state := tools.EffectState(call.request);
      if state == Some(EXECUTING) || state == Some(ATTEMPTED_UNKNOWN) {
        BlockPath(s, worker, f, call.request, store.db, h, env);
        var blocked := store.BlockRunOnEffect(f.run, call.request, env.text, f.visit.now);
        Then(s, worker, start, next,
             Result(if blocked then Acking(f.visit, Some(f)) else NotingError(f), store.db, h));
        if !blocked {
          return false, h;
        }
      } else if toolError {
        ClosingOne(s, worker, FailingTool(f), store.db, h, env);
        store.UpdateRun(f.run, Some(FAILED), None, Some(env.text), false, false);
        Then(s, worker, start, next, Result(Acking(f.visit, Some(f)), store.db, h));
      } else {
        return false, h;
      }
      ok, h' := Close(f, env, start, h);
    }

    /** The tool-call branch: message, execution, result, next generation. */
    method CallTool(f: Frame, call: Call, env: Surroundings, ghost h: History) returns (ok: bool, ghost h': History)
      requires Valid()
      modifies store
      ensures Leads(Deployment(), worker, Result(RecordingCall(f, call), old(store.db), h),
                    Result(if ok then Idle else NotingError(f), store.db, h'))
      ensures if ok then IsDone(store.db, f.visit.event) else Unclosed(old(store.db), store.db, f, worker)
      ensures ok && f.run in old(store.db).runs ==> CallClosed(old(store.db), store.db, f, call, env.newEvent, env.text)
      ensures store.db.decisions == old(store.db).decisions
      ensures ReplayReady(Deployment(), old(store.db), f, call, env.newEvent, worker) ==>
                ok && Carried(old(store.db), store.db, f, env.newEvent) && h'.invocations == h.invocations
    {
      hide Leads, RecordMessage, Admissible, LedgerOk, Committed, IsDone, Advanced, SameRequest, Handled, Carried, Schedulable, Owns, ReplayReady, CallClosed;
      ghost var s := Deployment();
      ghost var before := store.db;
      ghost var start := Result(RecordingCall(f, call), store.db, h);
      RecordCallOne(s, worker, f, call, store.db, h, env);
      ok := store.RecordRunMessage(f.run, CallMessage(f, call));
      ghost var recorded := store.db;
      ghost var replays := ReplayReady(s, before, f, call, env.newEvent, worker);
      if replays { ReplayGoesOn(s, before, recorded, f, call, env.newEvent, worker); }
      if !ok {
        return false, h;
      }
      ghost var executing := Result(Executing(FromStep(f), call), recorded, h);
      var r;
      RecordMessageFrame(before, f.run, CallMessage(f, call));
      r, h' := tools.Execute(call, f.capabilities, env.outcome, s, worker, FromStep(f), h);
      Then(s, worker, start, executing, Result(Verdict(FromStep(f), call, r), store.db, h'));
      ghost var executed := store.db;
      if r.Failed? {
        ok, h' := HandleToolError(f, call, r.toolError, env, start, h');
        CallClosedSame(before, executed, store.db, f, call, env.newEvent, env.text, worker);
        return;
      }
      ok, h' := Observe(f, call, r.output, env, start, h');
      CallClosedSame(before, executed, store.db, f, call, env.newEvent, env.text, worker);
      if replays { Carry(s, before, recorded, store.db, f, call, env.newEvent, worker); }
    }

    /** After a successful execution: the result message, the next generation, the acknowledgement. */
    method Observe(f: Frame, call: Call, output: Json, env: Surroundings, ghost start: Result, ghost h: History)
      returns (ok: bool, ghost h': History)
      requires Leads(Deployment(), worker, start, Result(Returned(FromStep(f), call, output), store.db, h))
      modifies store
      ensures Leads(Deployment(), worker, start, Result(if ok then Idle else NotingError(f), store.db, h'))
      ensures h'.invocations == h.invocations && store.db.decisions == old(store.db).decisions
      ensures ok <==>
        && RecordMessage(old(store.db), f.run, ResultMessage(f, call, output)).Some?
        && f.run in old(store.db).runs && old(store.db).runs[f.run].status == RUNNING && old(store.db).runs[f.run].stepCount == f.step
        && Schedulable(old(store.db), env.newEvent, f.run, f.step + 1, f.visit.priority)
        && Owns(old(store.db), f.visit.event, worker)
      ensures if ok then IsDone(store.db, f.visit.event) && Advanced(old(store.db), store.db, f, env.newEvent)
              else Unclosed(old(store.db), store.db, f, worker)
    {
      hide Leads, RecordMessage, Done, Schedulable, Advanced;
      ghost var s := Deployment();
      ghost var before := store.db;
      RecordResultOne(s, worker, f, call, output, store.db, h, env);
      ghost var returned := Result(Returned(FromStep(f), call, output), store.db, h);
      ok := store.RecordRunMessage(f.run, ResultMessage(f, call, output));
      Then(s, worker, start, returned, Result(if ok then Advancing(f) else NotingError(f), store.db, h));
      if !ok {
        return false, h;
      }
      RecordMessageFrame(before, f.run, ResultMessage(f, call, output));
      ghost var recorded := store.db;
      SameSchedulable(before, recorded, env.newEvent, f.run, f.step + 1, f.visit.priority);
      ok, h' := AdvanceAndClose(f, env, start, h);
      if ok { AdvancedSame(before, recorded, store.db, f, env.newEvent); }
    }

    /** The advance transaction and the acknowledgement. */
    method AdvanceAndClose(f: Frame, env: Surroundings, ghost start: Result, ghost h: History)
      returns (ok: bool, ghost h': History)
      requires Leads(Deployment(), worker, start, Result(Advancing(f), store.db, h))
      modifies store
      ensures Leads(Deployment(), worker, start, Result(if ok then Idle else NotingError(f), store.db, h'))
      ensures h'.invocations == h.invocations && store.db.decisions == old(store.db).decisions
      ensures ok <==>
        && f.run in old(store.db).runs && old(store.db).runs[f.run].status == RUNNING && old(store.db).runs[f.run].stepCount == f.step
        && Schedulable(old(store.db), env.newEvent, f.run, f.step + 1, f.visit.priority)
        && Owns(old(store.db), f.visit.event, worker)
      ensures if ok then IsDone(store.db, f.visit.event) && Advanced(old(store.db), store.db, f, env.newEvent)
              else Unclosed(old(store.db), store.db, f, worker)
    {
      hide Leads, AdvanceRunStep, Schedulable;
      ghost var s := Deployment();
      ClosingOne(s, worker, Advancing(f), store.db, h, env);
      ghost var advancing := Result(Advancing(f), store.db, h);
      ok := store.AdvanceRunStep(f.run, f.step, env.newEvent, f.visit.priority, f.visit.now);
      Then(s, worker, start, advancing,
           Result(if ok then Acking(f.visit, Some(f)) else NotingError(f), store.db, h));
      if !ok {
        return false, h;
      }
      ok, h' := Close(f, env, start, h);
    }

    /** The final-text branch: message, then completion. */
    method Finish(f: Frame, text: string, env: Surroundings, ghost h: History) returns (ok: bool, ghost h': History)
      modifies store
      ensures Leads(Deployment(), worker, Result(RecordingFinal(f, text), old(store.db), h),
                    Result(if ok then Idle else NotingError(f), store.db, h'))
      ensures h'.invocations == h.invocations && store.db.decisions == old(store.db).decisions
      ensures ok <==> RecordMessage(old(store.db), f.run, FinalMessage(f, text)).Some? && Owns(old(store.db), f.visit.event, worker)
      ensures ok && f.run in old(store.db).runs ==>
                store.db.runs == old(store.db).runs[f.run := old(store.db).runs[f.run].(
                  status := COMPLETED, finalText := Some(text), lastError := None, stepCount := old(store.db).runs[f.run].stepCount + 1)]
      ensures if ok then IsDone(store.db, f.visit.event) else Unclosed(old(store.db), store.db, f, worker)
    {
      hide Leads, RecordMessage, UpdateRun;
      RecordMessageFrame(store.db, f.run, FinalMessage(f, text));
      ghost var s := Deployment();
      ghost var start := Result(RecordingFinal(f, text), store.db, h);
      RecordFinalOne(s, worker, f, text, store.db, h, env);
      ok := store.RecordRunMessage(f.run, FinalMessage(f, text));
      if !ok {
        return false, h;
      }
      ClosingOne(s, worker, Completing(f, text), store.db, h, env);
      ghost var completing := Result(Completing(f, text), store.db, h);
      store.UpdateRun(f.run, Some(COMPLETED), Some(text), None, true, true);
      Then(s, worker, start, completing, Result(Acking(f.visit, Some(f)), store.db, h));
      ok, h' := Close(f, env, start, h);
    }

    /** The outer `except`: note the error, schedule the retry, raise. */
    method GiveUp(f: Frame, env: Surroundings, ghost start: Result, ghost h: History) returns (ghost h': History)
      requires Leads(Deployment(), worker, start, Result(NotingError(f), store.db, h))
      modifies store
      ensures Leads(Deployment(), worker, start, Result(Aborted, store.db, h'))
      ensures h'.invocations == h.invocations && SameLedger(old(store.db), store.db)
      ensures Owns(old(store.db), f.visit.event, worker) ==> WillRetry(old(store.db), store.db, f, env.text)
      ensures !Owns(old(store.db), f.visit.event, worker) ==> store.db.events == old(store.db).events
    {
      hide Leads, UpdateRun, Backoff;
      ghost var s := Deployment();
      ghost var noting := Result(NotingError(f), store.db, h);
      FailPath(s, worker, f, store.db, h, env);
      store.UpdateRun(f.run, None, None, Some(env.text), false, false);
      var retryAt := f.visit.now + Backoff(f.visit.attempts);
      var ok := store.FailEvent(f.visit.event, worker, f.visit.now, Some(retryAt));
      h' := if ok then AddLease(h, f.visit.event, Retried(worker, retryAt, f.visit.attempts)) else h;
      Then(s, worker, start, noting, Result(Aborted, store.db, h'));
    }

    /** The `try` of a step. */
    method Attempt(f: Frame, env: Surroundings, ghost h: History) returns (turn: Turn, ghost h': History)
      requires Valid()
      modifies store
      ensures !turn.NoEvent?
      ensures Leads(Deployment(), worker, Result(Deciding(f), old(store.db), h),
                    Result(if turn.Threw? then Aborted else Idle, store.db, h'))
      ensures turn.Finished? ==> turn.run == Some(f.run) && IsDone(store.db, f.visit.event)
      ensures turn.Finished? && f.run in old(store.db).runs ==> StepClosed(old(store.db), store.db, f, env.newEvent, env.text)
      ensures turn.Threw? && Owns(old(store.db), f.visit.event, worker) ==> WillRetry(old(store.db), store.db, f, env.text)
      ensures CommittedReady(Deployment(), old(store.db), f, env.newEvent, worker) ==>
                turn.Finished? && Carried(old(store.db), store.db, f, env.newEvent) && h'.invocations == h.invocations
    {
      hide Leads, WillRetry, Carried, ReplayReady, Readable, IsDone, CallClosed;
      ghost var s := Deployment();
      ghost var before := store.db;
      ghost var start := Result(Deciding(f), store.db, h);
      var decision := Decide(f, env, h);
      var ok := false;
      h' := h;
      ghost var middle := store.db;
      if decision.Some? {
        ghost var decided := Result(Act(f, decision.value), store.db, h);
        match decision.value {
          case ToolCall(call) => ok, h' := CallTool(f, call, env, h);
          case FinalText(text) => ok, h' := Finish(f, text, env, h);
        }
        Then(s, worker, start, decided, Result(if ok then Idle else NotingError(f), store.db, h'));
      }
      if !ok {
        ghost var failed := store.db;
        h' := GiveUp(f, env, start, h');
        RetrySame(before, failed, store.db, f, env.text);
        return Threw, h';
      }
      if f.run in before.runs { StepClosedSame(before, middle, store.db, f, env.newEvent, env.text); }
      turn := Finished(Some(f.run));
    }

    /** A `run.step` event: stale, stopped, over the limit, or a step to perform. */
    method Advance(v: Visit, run: string, step: nat, env: Surroundings, ghost h: History)
      returns (turn: Turn, ghost h': History)
      requires Valid()
      modifies store
      ensures !turn.NoEvent?
      ensures Leads(Deployment(), worker, Result(Loading(v, run, step), old(store.db), h),
                    Result(if turn.Threw? then Aborted else Idle, store.db, h'))
      ensures Owns(old(store.db), v.event, worker) ==>
                StepOutcome(old(store.db), store.db, Frame(v, run, step, CapabilitiesOf(old(store.db), run)), maxSteps, turn, env.newEvent, env.text)
      ensures AtStep(old(store.db), run, step) && step < maxSteps
              && CommittedReady(Deployment(), old(store.db), Frame(v, run, step, CapabilitiesOf(old(store.db), run)), env.newEvent, worker) ==>
                && turn == Finished(Some(run)) && h'.invocations == h.invocations
                && Carried(old(store.db), store.db, Frame(v, run, step, CapabilitiesOf(old(store.db), run)), env.newEvent)
    {
      hide Leads, UpdateRun, WillRetry, Carried, CommittedReady, StepClosed;
      ghost var s := Deployment();
      ghost var start := Result(Loading(v, run, step), store.db, h);
      DecisionOne(s, worker, Loading(v, run, step), store.db, h, env);
      var row := store.GetRun(run);
      if row.None? {
        return Threw, h;
      }
      if row.value.stepCount == step && row.value.status == RUNNING && row.value.stepCount < maxSteps {
        var f := Frame(v, run, step, row.value.capabilities);
        ghost var deciding := Result(Deciding(f), store.db, h);
        turn, h' := Attempt(f, env, h);
        Then(s, worker, start, deciding, Result(if turn.Threw? then Aborted else Idle, store.db, h'));
        return;
      }
      if row.value.stepCount == step && row.value.status == RUNNING {
        DecisionOne(s, worker, FailingMaxSteps(v, run), store.db, h, env);
        ghost var failing := Result(FailingMaxSteps(v, run), store.db, h);
        store.UpdateRun(run, Some(FAILED), None, Some("max_steps exceeded"), false, false);
        Then(s, worker, start, failing, Result(Acking(v, None), store.db, h));
      }
      ghost var acking := Result(Acking(v, None), store.db, h);
      var ok;
      ok, h' := Acknowledge(v, None, env, h);
      turn := if ok then Finished(Some(run)) else Threw;
      Then(s, worker, start, acking, Result(if ok then Idle else Aborted, store.db, h'));
    }

    /** `run_once`: claims a best eligible event and performs one uninterrupted delivery of it; the
        process ends idle, or with the exception when the turn is `Threw`. Reachable under (S) with
        distinct request ids, a run whose decided mutation is COMMITTED already is carried to its next
        generation, without the handler. */
    method RunOnce(env: Surroundings, ghost c: Config) returns (turn: Turn, ghost e: Event, ghost h': History)
      requires Valid() && c.db == store.db
      modifies store
      ensures Valid()
      ensures turn.NoEvent? ==> NoneEligible(old(store.db), env.now) && store.db == old(store.db) && h' == c.hist
      ensures !turn.NoEvent? ==>
        && BestEligible(old(store.db), e.id, env.now)
        && e == Event(e.id, old(store.db).events[e.id].work, old(store.db).events[e.id].priority,
                      old(store.db).events[e.id].attempts + 1)
        && Leads(Deployment(), worker, AfterClaim(Deployment(), old(store.db), c.hist, worker, e, env.now),
                 Result(if turn.Threw? then Aborted else Idle, store.db, h'))
      ensures !turn.NoEvent? ==>
        && e.id in old(store.db).events
        && var taken := Claim(old(store.db), e.id, worker, env.now, lease);
           var v := Visit(e.id, e.priority, e.attempts, env.now);
           match e.work
           case OtherWork(_, _) => turn == Finished(None) && Done(taken, store.db, e.id)
           case RunStep(run, step) =>
             StepOutcome(taken, store.db, Frame(v, run, step, CapabilitiesOf(taken, run)), maxSteps, turn, env.newEvent, env.text)
           case TaskRequested(payload) => RequestOutcome(taken, store.db, v, payload, turn, env.newRun, env.newEvent, worker)
      ensures !turn.NoEvent? && e.work.RunStep? && CommittedStep(Deployment(), c, e.work.run, e.work.step)
              && env.newEvent !in old(store.db).events ==>
        && turn == Finished(Some(e.work.run)) && h'.invocations == c.hist.invocations
        && Resumed(old(store.db), store.db, e.work.run, env.newEvent) && IsDone(store.db, e.id)
    {
      hide Leads, BestEligible, NoneEligible, Claim, StepOutcome, RequestOutcome, Done, CommittedStep, IsDone, CommittedReady, Resumed, Carried, AtStep;
      ghost var before := store.db;
      var claimed := store.ClaimEvent(worker, env.now, lease);
      if claimed.None? {
        return NoEvent, Event("", OtherWork("", map[]), 0, 0), c.hist;
      }
      var event := claimed.value;
      e := event;
      assert e.id in before.events by { Known(before, e.id, env.now); }
      ClaimedSame(before, e.id, worker, env.now, lease);
      var v := Visit(event.id, event.priority, event.attempts, env.now);
      ghost var h1 := AddLease(c.hist, event.id, Claimed(worker, env.now, env.now + lease, event.attempts));
      assert AfterClaim(Deployment(), before, c.hist, worker, e, env.now) == Result(Dispatch(v, e.work), store.db, h1);
      match event.work {
        case TaskRequested(payload) => turn, h' := AcceptTask(v, payload, env, h1);
        case RunStep(run, step) =>
          ghost var taken := store.db;
          ghost var f := Frame(v, run, step, CapabilitiesOf(taken, run));
          ghost var replays := CommittedStep(Deployment(), c, run, step) && env.newEvent !in before.events;
          if replays { ClaimReady(Deployment(), c, worker, env.now, f, env.newEvent); }
          turn, h' := Advance(v, run, step, env, h1);
          if replays { CarriedSince(before, taken, store.db, f, env.newEvent); }
        case OtherWork(_, _) =>
          var ok;
          ok, h' := Acknowledge(v, None, env, h1);
          turn := if ok then Finished(None) else Threw;
      }
    }

    /** `resume_blocked_effect`: the recovered result, its message, then the transaction that makes the
        run RUNNING at the next generation. For a reachable run blocked on a COMMITTED request it succeeds
        exactly when the request id is not empty; on a request reconciled as having had no effect, exactly
        when its arguments are also an object and the handler, invoked once with the stored call, returns.
        No invocation for a row that is
        already COMMITTED, and no write at all for a run that is not blocked. */
    method ResumeBlockedEffect(run: string, env: Surroundings, ghost c: Config) returns (ok: bool, ghost h': History)
      requires Valid() && c.db == store.db
      modifies store
      ensures Leads(Deployment(), worker, Result(StartResume(c, worker, run, env.now), old(store.db), c.hist),
                    Result(if ok then Idle else Aborted, store.db, h'))
      ensures old(run !in store.db.runs || store.db.runs[run].status != BLOCKED_EFFECT) ==> !ok && store.db == old(store.db)
      ensures |h'.invocations| <= |c.hist.invocations| + 1
      ensures old(run in store.db.runs && store.db.runs[run].blockedRequest.Some?
                  && store.db.runs[run].blockedRequest.value in store.db.effects
                  && store.db.effects[store.db.runs[run].blockedRequest.value].state == COMMITTED) ==>
                h'.invocations == c.hist.invocations
      ensures ok ==> Unblocked(old(store.db), store.db, run, env.newEvent, env.now)
      ensures Resumable(Deployment(), c, run) && env.newEvent !in old(store.db).events ==>
        && (ok <==> old(store.db).runs[run].blockedRequest != Some(""))
        && (ok ==> Resumed(old(store.db), store.db, run, env.newEvent))
      ensures Retryable(Deployment(), c, run) && env.newEvent !in old(store.db).events ==>
        && var goes := old(store.db).runs[run].blockedRequest != Some("") && WaitingFor(c.db, run).arguments.Obj?;
           && (ok <==> goes && env.outcome.Output?)
           && (ok ==> Resumed(old(store.db), store.db, run, env.newEvent))
           && h'.invocations == c.hist.invocations + if goes then [RetryInvocation(c.db, run)] else []
    {
      hide Leads, RecordMessage, ResumeRun, Resumable, Retryable, Resumed, StoredCall, Admissible, LedgerOk, SameRequest, Handled, Unblocked;
      ghost var s := Deployment();
      ghost var before := store.db;
      Stay(s, worker, Result(Aborted, store.db, c.hist));
      if Resumable(s, c, run) {
        BlockedCommitted(s, c, run);
        if env.newEvent !in before.events { RecoveryWrites(s, c, run, env.newEvent, env.now); }
      }
      ghost var retries := Retryable(s, c, run) && env.newEvent !in before.events;
      if retries { RetryCall(s, c, run); }
      var row := store.GetRun(run);
      if row.None? || row.value.status != BLOCKED_EFFECT || row.value.blockedRequest.None? || row.value.blockedRequest.value == "" {
        return false, c.hist;
      }
      var request := row.value.blockedRequest.value;
      ghost var start := Result(Recovering(run, env.now, row.value.capabilities, request), store.db, c.hist);
      var call, r;
      call, r, h' := tools.RecoverReconciled(request, row.value.capabilities, env.outcome, s, worker, run, env.now, c.hist);
      if r.Failed? {
        return false, h';
      }
      if retries { RetryWrites(s, c, run, store.db, r.output, env.newEvent, env.now); }
      ghost var executed := store.db;
      ok := FinishRecovery(run, row.value.capabilities, call, r.output, env, start, h');
      UnblockedSame(before, executed, store.db, run, env.newEvent, env.now);
    }

    /** The message of the recovered result, then the resume transaction. */
    method FinishRecovery(run: string, granted: set<string>, call: Call, output: Json, env: Surroundings,
                          ghost start: Result, ghost h: History) returns (ok: bool)
      requires Leads(Deployment(), worker, start, Result(Returned(FromResume(run, env.now, granted), call, output), store.db, h))
      modifies store
      ensures Leads(Deployment(), worker, start, Result(if ok then Idle else Aborted, store.db, h))
      ensures var recorded := RecordMessage(old(store.db), run, ReconciledMessage(call, output));
        && (ok <==> recorded.Some? && ResumeRun(recorded.value, run, env.newEvent, 0, env.now).Some?)
        && (ok ==> store.db == ResumeRun(recorded.value, run, env.newEvent, 0, env.now).value)
      ensures ok ==> Unblocked(old(store.db), store.db, run, env.newEvent, env.now)
    {
      hide Leads, RecordMessage, ResumeRun;
      ghost var s := Deployment();
      ghost var before := store.db;
      RecordReconciledOne(s, worker, run, env.now, granted, call, output, store.db, h, env);
      ghost var returned := Result(Returned(FromResume(run, env.now, granted), call, output), store.db, h);
      ok := store.RecordRunMessage(run, ReconciledMessage(call, output));
      Then(s, worker, start, returned, Result(if ok then Resuming(run, env.now) else Aborted, store.db, h));
      if !ok {
        return;
      }
      RecordMessageFrame(before, run, ReconciledMessage(call, output));
      ClosingOne(s, worker, Resuming(run, env.now), store.db, h, env);
      ghost var resuming := Result(Resuming(run, env.now), store.db, h);
      ok := store.ResumeRunAfterEffect(run, env.newEvent, 0, env.now);
      Then(s, worker, start, resuming, Result(if ok then Idle else Aborted, store.db, h));
      UnblockedSame(before, resuming.db, store.db, run, env.newEvent, env.now);
    }
  }
}
