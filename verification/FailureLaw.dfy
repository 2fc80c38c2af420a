/** Environment (M): a run becomes FAILED in two ways only. A delivery found it RUNNING at its generation and
    at `max_steps`, or a ToolError was raised around its stored call while no effect of that call was open. */
module FailureLaw {
  import opened Basics
  import opened JsonValues
  import opened Tables
  import opened Protocol
  import opened Growth
  import opened AdmissionSafety
  import opened SoloInvariant
  import opened Paths
  import opened LateWrites
  import opened EffectRegistry

  predicate HasFailed(db: Database, r: string) {
    r in db.runs && db.runs[r].status == FAILED
  }

  // ---- which statements make a run FAILED -----------------------------------------------

  predicate Fails(pc: PC, r: string) {
    (pc.FailingMaxSteps? && pc.run == r) || (pc.FailingTool? && pc.frame.run == r)
  }

  lemma UpdateFails(db: Database, x: string, status: Option<RunStatus>, finalText: Option<string>, lastError: Option<string>,
                    clearLastError: bool, incrementStep: bool, r: string)
    ensures var b := UpdateRun(db, x, status, finalText, lastError, clearLastError, incrementStep);
      HasFailed(b, r) && !HasFailed(db, r) ==> x == r && status == Some(FAILED)
  {
  }

  lemma ClosingFails(pc: PC, db: Database, h: History, i: Input, r: string)
    requires ClosingPhase(pc) && HasFailed(ClosingStep(pc, db, h, i).db, r) && !HasFailed(db, r)
    ensures Fails(pc, r)
  {
    hide AdvanceRunStep, ResumeRun, UpdateRun;
    if pc.Advancing? {
      AdvanceFrame(db, pc.frame.run, pc.frame.step, i.newEvent, pc.frame.visit.priority, pc.frame.visit.now);
    } else if pc.Resuming? {
      ResumeFrame(db, pc.run, i.newEvent, 0, pc.now);
    } else if pc.Completing? {
      UpdateFails(db, pc.frame.run, Some(COMPLETED), Some(pc.text), None, true, true, r);
    } else if pc.FailingTool? {
      UpdateFails(db, pc.frame.run, Some(FAILED), None, Some(i.text), false, false, r);
    } else if pc.NotingError? {
      UpdateFails(db, pc.frame.run, None, None, Some(i.text), false, false, r);
    }
  }

  lemma DecisionFails(s: Settings, pc: PC, db: Database, h: History, i: Input, r: string)
    requires DecisionPhase(pc) && HasFailed(DecisionStep(s, pc, db, h, i).db, r) && !HasFailed(db, r)
    ensures Fails(pc, r)
  {
    hide DecisionStep, UpdateRun;
    if pc.FailingMaxSteps? {
      MaxStepsUpdate(s, pc, db, h, i);
      UpdateFails(db, pc.run, Some(FAILED), None, Some("max_steps exceeded"), false, false, r);
    } else {
      DecisionStepFrame(s, pc, db, h, i);
    }
  }

  lemma EventFails(p: string, pc: PC, db: Database, h: History, i: Input, r: string)
    requires EventPhase(pc) && HasFailed(EventStep(p, pc, db, h, i).db, r)
    ensures HasFailed(db, r)
  {
    hide CreateRunWithInitialStep, Backoff;
    if pc.Submitting? {
      CreateFrame(db, i.newRun, i.newEvent, pc.task, pc.capabilities, Some(pc.visit.event), 0, pc.visit.now);
    }
  }

  lemma NextFails(s: Settings, p: string, pc: PC, db: Database, h: History, i: Input, r: string)
    requires HasFailed(Next(s, p, pc, db, h, i).db, r) && !HasFailed(db, r)
    ensures Fails(pc, r)
  {
    hide EventStep, DecisionStep, ClosingStep, ToolStep, TickStep;
    if EventPhase(pc) {
      EventFails(p, pc, db, h, i, r);
    } else if DecisionPhase(pc) {
      DecisionFails(s, pc, db, h, i, r);
    } else if ClosingPhase(pc) {
      ClosingFails(pc, db, h, i, r);
    } else if ToolPhase(pc) {
      ToolStepFrame(s, pc, db, h, i);
    } else if TickPhase(pc) {
      TickStepFrame(pc, db, h, i);
    }
  }

  lemma HostFails(s: Settings, c: Config, a: Action, i: Input, r: string)
    requires !a.Work? && HasFailed(Apply(s, c, a, i).db, r)
    ensures HasFailed(c.db, r)
  {
    hide Enqueue, CreateRunWithInitialStep, Unwind, StartResume, Dispatch, IsHexDigest, LowerHex, Next;
    if a.HostEnqueue? {
      var at := if a.availableAt.Some? then a.availableAt.value else i.now;
      EnqueueFrame(c.db, i.newEvent, a.work, a.priority, a.dedup, i.now, at);
    } else if a.HostSubmit? {
      CreateFrame(c.db, i.newRun, i.newEvent, a.task, a.capabilities, a.source, 0, i.now);
    }
  }

  // ---- how a process gets there ---------------------------------------------------------

  /** `execute` has a reason of its own to refuse: the call is not admissible, its request identifies
      another call, or the effect of the request is open. */
  ghost predicate Refused(s: Settings, db: Database, call: Call, granted: set<string>) {
    || !Admissible(s, call, granted)
    || (s.tools[call.tool].mutation && call.request in db.effects
        && (!SameRequest(db.effects[call.request], call) || Unresolved(db.effects[call.request].state)))
  }

  /** One statement after which a ToolError is on its way: the refusal, the handler of a read-only tool, or
      the note that a mutation's handler has failed. */
  ghost predicate RaisesToolError(s: Settings, db: Database, pc: PC, k: Caller, call: Call) {
    || (pc == Executing(k, call) && Refused(s, db, call, Granted(k)))
    || pc == Invoking(k, call, false)
    || pc == MarkingUnknown(k, call, true)
  }

  lemma LookupRaises(s: Settings, k: Caller, call: Call, db: Database)
    requires LedgerOk(s, db) && AfterLookup(s, k, call, db) == Raised(k, call, true)
    ensures Refused(s, db, call, Granted(k))
  {
    hide Admissible, LedgerOk, RequestPayload, SameRequest;
    if call.request in db.effects { DigestIdentifies(s, db, call); }
  }

  lemma LookupShape(s: Settings, k: Caller, call: Call, db: Database)
    ensures var next := AfterLookup(s, k, call, db);
      CallPhase(next) && next.caller == k && next.call == call && !next.Executing?
  {
    hide Admissible, RequestPayload;
  }

  lemma ToolRaises(s: Settings, pc: PC, db: Database, h: History, i: Input, k: Caller, call: Call)
    requires ToolPhase(pc) && LedgerOk(s, db) && ToolStep(s, pc, db, h, i).pc == Raised(k, call, true)
    ensures RaisesToolError(s, db, pc, k, call)
  {
    hide AfterLookup, LedgerOk, RequestPayload, RecordMessage, AddCompletion, Granted, RunOf, SetEffect, MarkUnknown, StoredCall, Refused;
    if pc.Executing? {
      LookupShape(s, pc.caller, pc.call, db);
      LookupRaises(s, k, call, db);
    }
  }

  lemma OutsideRaises(s: Settings, p: string, pc: PC, db: Database, h: History, i: Input)
    requires !ToolPhase(pc) && !pc.Loading?
    ensures var next := Next(s, p, pc, db, h, i).pc; !next.Raised? && !next.FailingTool? && !next.FailingMaxSteps?
  {
    hide CreateRunWithInitialStep, Acknowledge, Requeue, RecordDecision, RecordMessage, AdvanceRunStep, UpdateRun, BlockRun;
    hide ResumeRun, Enqueue, Occurrences, AddLease, Backoff, SetNextAt, DisableSchedule, ToolStep;
  }

  lemma LoadingNext(s: Settings, p: string, pc: PC, db: Database, h: History, i: Input)
    requires pc.Loading?
    ensures Next(s, p, pc, db, h, i).pc == if pc.run in db.runs then AfterLoad(s, pc.visit, pc.run, pc.step, db.runs[pc.run]) else Aborted
  {
    hide EventStep, ClosingStep, ToolStep, TickStep, AfterLoad;
  }

  /** The ToolError reaches its `except` while no effect of the call is open. */
  predicate Surfaces(db: Database, pc: PC, f: Frame) {
    && pc.Raised? && pc.caller == FromStep(f) && pc.toolError
    && (pc.call.request in db.effects ==> db.effects[pc.call.request].state !in {EXECUTING, ATTEMPTED_UNKNOWN})
  }

  lemma ToolSurfaces(s: Settings, pc: PC, db: Database, h: History, i: Input)
    requires ToolPhase(pc)
    ensures var next := ToolStep(s, pc, db, h, i).pc;
      !next.FailingMaxSteps? && (next.FailingTool? ==> Surfaces(db, pc, next.frame))
  {
    hide AfterLookup, RequestPayload, RecordMessage, AddCompletion, Granted, RunOf, SetEffect, MarkUnknown, StoredCall;
    if pc.Executing? {
      LookupShape(s, pc.caller, pc.call, db);
    }
  }

  /** The delivery finds its run RUNNING at its generation and at the limit. */
  predicate AtLimit(s: Settings, db: Database, pc: PC, v: Visit, r: string) {
    && pc.Loading? && pc.visit == v && pc.run == r && r in db.runs && db.runs[r].status == RUNNING
    && db.runs[r].stepCount == pc.step && pc.step >= s.maxSteps
  }

  /** What one statement of the process itself does. */
  lemma NextOrigins(s: Settings, p: string, pc: PC, db: Database, h: History, i: Input)
    requires LedgerOk(s, db)
    ensures var next := Next(s, p, pc, db, h, i).pc;
      && (next.FailingTool? ==> Surfaces(db, pc, next.frame))
      && (next.FailingMaxSteps? ==> AtLimit(s, db, pc, next.visit, next.run))
      && (next.Raised? && next.toolError ==> RaisesToolError(s, db, pc, next.caller, next.call))
  {
    hide EventStep, DecisionStep, ClosingStep, ToolStep, TickStep, LedgerOk, RaisesToolError, Surfaces;
    if ToolPhase(pc) {
      ToolSurfaces(s, pc, db, h, i);
      var next := ToolStep(s, pc, db, h, i).pc;
      if next.Raised? && next.toolError { ToolRaises(s, pc, db, h, i, next.caller, next.call); }
    } else if pc.Loading? {
      LoadingNext(s, p, pc, db, h, i);
    } else {
      OutsideRaises(s, p, pc, db, h, i);
    }
  }

  /** No other action puts a process there. */
  lemma HostOrigins(s: Settings, c: Config, a: Action, i: Input, p: string)
    requires !a.Work?
    ensures var next := Pc(Apply(s, c, a, i), p);
      next == Pc(c, p) || (!next.FailingTool? && !next.FailingMaxSteps? && !(next.Raised? && next.toolError))
  {
    hide Enqueue, CreateRunWithInitialStep, Reconcile, AddSchedule, Claim, AdmitTask, Next;
  }

  /** In one step of the system a process stays where it is, or it got to a failing statement by its own. */
  lemma StepOrigins(s: Settings, c: Config, c': Config, p: string)
    requires Step(s, c, c') && LedgerOk(s, c.db)
    ensures var pc := Pc(c, p); var next := Pc(c', p);
      next == pc
      || ((next.FailingTool? ==> Surfaces(c.db, pc, next.frame))
          && (next.FailingMaxSteps? ==> AtLimit(s, c.db, pc, next.visit, next.run))
          && (next.Raised? && next.toolError ==> RaisesToolError(s, c.db, pc, next.caller, next.call)))
  {
    hide Step, Apply, Enabled, Next, LedgerOk, RaisesToolError, Surfaces, AtLimit;
    var a, i := Taken(s, c, c');
    if a.Work? {
      WorkDb(s, c, a.p, i);
      if a.p == p { NextOrigins(s, p, Pc(c, p), c.db, c.hist, i); }
    } else {
      HostOrigins(s, c, a, i, p);
    }
  }

  // ---- over executions ------------------------------------------------------------------

  /** The last step of the process before `n` that changed its program counter. */
  lemma {:induction false} Arrival(s: Settings, trace: seq<Config>, n: nat, p: string) returns (m: nat)
    requires Protocol.Execution(s, trace) && n < |trace| && !Pc(trace[n], p).Idle?
    ensures m < n && Pc(trace[m + 1], p) == Pc(trace[n], p) && Pc(trace[m], p) != Pc(trace[n], p)
  {
    hide Step;
    assert n > 0;
    if Pc(trace[n - 1], p) == Pc(trace[n], p) {
      m := Arrival(s, trace, n - 1, p);
    } else {
      m := n - 1;
    }
  }

  lemma ArrivesFrom(s: Settings, trace: seq<Config>, n: nat, p: string) returns (m: nat)
    requires Protocol.Execution(s, trace) && n < |trace|
    requires Pc(trace[n], p).FailingTool? || Pc(trace[n], p).FailingMaxSteps? || (Pc(trace[n], p).Raised? && Pc(trace[n], p).toolError)
    ensures m < n && Pc(trace[m + 1], p) == Pc(trace[n], p)
    ensures var pc := Pc(trace[m], p); var next := Pc(trace[n], p);
      && (next.FailingTool? ==> Surfaces(trace[m].db, pc, next.frame))
      && (next.FailingMaxSteps? ==> AtLimit(s, trace[m].db, pc, next.visit, next.run))
      && (next.Raised? && next.toolError ==> RaisesToolError(s, trace[m].db, pc, next.caller, next.call))
  {
    hide Step, LedgerOk, InvocationsOk, PcAdmitted, RaisesToolError, Surfaces, AtLimit;
    m := Arrival(s, trace, n, p);
    AdmissionExecution(s, trace, m);
    assert Step(s, trace[m], trace[m + 1]);
    StepOrigins(s, trace[m], trace[m + 1], p);
  }

  /** Process `p` raised a ToolError for a call of the step `f` in step `j` and its `except` clause, in step
      `m`, found no open effect of the call. */
  ghost predicate FailedByTool(s: Settings, trace: seq<Config>, p: string, f: Frame, call: Call, j: nat, m: nat) {
    && j < m < |trace| - 1
    && RaisesToolError(s, trace[j].db, Pc(trace[j], p), FromStep(f), call)
    && Pc(trace[m], p) == Raised(FromStep(f), call, true) && Surfaces(trace[m].db, Pc(trace[m], p), f)
    && Pc(trace[m + 1], p) == FailingTool(f)
  }

  /** Process `p` found the run at its generation and at the limit in step `m`. */
  ghost predicate FailedByLimit(s: Settings, trace: seq<Config>, p: string, v: Visit, r: string, m: nat) {
    m < |trace| - 1 && AtLimit(s, trace[m].db, Pc(trace[m], p), v, r) && Pc(trace[m + 1], p) == FailingMaxSteps(v, r)
  }

  /** (M) A run becomes FAILED only at `max_steps`, or by a ToolError while no effect of its call is open;
      never by another exception, nor in any other statement of the system. */
  lemma FailedOnlyBy(s: Settings, trace: seq<Config>, n: nat, r: string)
    requires Protocol.Execution(s, trace) && n + 1 < |trace|
    requires HasFailed(trace[n + 1].db, r) && !HasFailed(trace[n].db, r)
    ensures (exists p, v, m: nat | m < n :: FailedByLimit(s, trace, p, v, r, m) && Pc(trace[n], p) == FailingMaxSteps(v, r))
            || (exists p, f, call, j: nat, m: nat | m < n ::
                  FailedByTool(s, trace, p, f, call, j, m) && f.run == r && Pc(trace[n], p) == FailingTool(f))
  {
    hide Step, Apply, Enabled, Next, LedgerOk, RaisesToolError, AtLimit;
    assert Step(s, trace[n], trace[n + 1]);
    var a, i := Taken(s, trace[n], trace[n + 1]);
    if !a.Work? {
      HostFails(s, trace[n], a, i, r);
    }
    var p := a.p;
    var pc := Pc(trace[n], p);
    WorkDb(s, trace[n], p, i);
    NextFails(s, p, pc, trace[n].db, trace[n].hist, i, r);
    var m := ArrivesFrom(s, trace, n, p);
    if pc.FailingMaxSteps? {
      assert FailedByLimit(s, trace, p, pc.visit, r, m);
    } else {
      var raised := Pc(trace[m], p);
      var j := ArrivesFrom(s, trace, m, p);
      assert FailedByTool(s, trace, p, pc.frame, raised.call, j, m);
    }
  }
}
