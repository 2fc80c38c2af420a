/** Environment (S): what the invariant of the single worker gives. Effects are not repeated,
    blocked runs wait for their ledger row, committed results are final, decisions fence the
    steps of a run. */
module SoloTheorems {
  import opened Basics
  import opened JsonValues
  import opened Tables
  import opened Protocol
  import opened Growth
  import opened AdmissionSafety
  import opened SoloInvariant

  // ---- effects --------------------------------------------------------------------------

  /** Effects are not repeated: with crashes between any two durable writes, redelivery after lease
      expiry and a model that answers differently on retry, the handler of a mutation request is
      invoked at most once, plus once for each reconciliation that confirmed no effect. */
  lemma EffectsNotRepeated(s: Settings, trace: seq<Config>, n: nat, q: string)
    requires SoloExecution(s, trace) && n < |trace|
    ensures Invocations(trace[n].hist.invocations, q) <= 1 + NoEffects(trace[n].db.reconciliations, q)
  {
    hide SoloExecution, Invocations, NoEffects, Fence, Barrier;
    SoloReachable(s, trace, n);
    var c := trace[n];
    if q in c.db.effects {
      assert WithinBudget(ViewOf(c.db, c.hist), q);
    } else {
      assert forall j | 0 <= j < |c.hist.invocations| && c.hist.invocations[j].mutation ::
          InvocationOk(s, c.db, c.hist.invocations[j]);
      NeverInvoked(c.db.effects, c.hist.invocations, q);
    }
  }

  /** Results are stable: every success of a mutation request, whether executed, replayed or
      recovered, handed back one and the same output and digest, that of the COMMITTED row. */
  lemma ResultsStable(s: Settings, trace: seq<Config>, n: nat, j: nat, k: nat)
    requires SoloExecution(s, trace) && n < |trace|
    requires j < |trace[n].hist.completions| && k < |trace[n].hist.completions|
    requires trace[n].hist.completions[j].request == trace[n].hist.completions[k].request
    ensures trace[n].hist.completions[j] == trace[n].hist.completions[k]
    ensures Committed(trace[n].db.effects, trace[n].hist.completions[j].request, trace[n].hist.completions[j].output)
  {
    hide SoloExecution, SoloDb, PcSolo, AdmissionInv;
    SoloReachable(s, trace, n);
  }

  // ---- the ledger's state graph ---------------------------------------------------------

  function StateOf(effects: map<string, EffectRow>, q: string): Option<EffectState> {
    if q in effects then Some(effects[q].state) else None
  }

  /** The edges of the effect state machine. COMMITTED has none. */
  predicate Edge(a: Option<EffectState>, b: Option<EffectState>) {
    match a
    case None => b == Some(EXECUTING)
    case Some(EXECUTING) => b in {Some(COMMITTED), Some(ATTEMPTED_UNKNOWN), Some(RECONCILED_NO_EFFECT)}
    case Some(ATTEMPTED_UNKNOWN) => b in {Some(COMMITTED), Some(RECONCILED_NO_EFFECT)}
    case Some(RECONCILED_NO_EFFECT) => b == Some(EXECUTING)
    case Some(COMMITTED) => false
  }

  predicate RowMoves(a: map<string, EffectRow>, b: map<string, EffectRow>, q: string) {
    (q in a && q in b && a[q] == b[q]) || (q !in a && q !in b) || Edge(StateOf(a, q), StateOf(b, q))
  }

  lemma ToolStepMoves(s: Settings, pc: PC, db: Database, h: History, i: Input, q: string)
    requires ToolPhase(pc) && EffectPromise(s, ViewOf(db, h), pc)
    ensures RowMoves(db.effects, ToolStep(s, pc, db, h, i).db.effects, q)
  {
    hide AfterLookup, AfterRecovery, AfterRaise, RequestPayload, Committed, Invocations, NoEffects;
    if pc.Returned? {
      ToolMessageFrame(s, pc, db, h, i);
    }
  }

  lemma HostMoves(s: Settings, c: Config, a: Action, i: Input, q: string)
    requires !a.Work?
    ensures RowMoves(c.db.effects, Apply(s, c, a, i).db.effects, q)
  {
    hide Enqueue, CreateRunWithInitialStep, Unwind, StartResume, Dispatch, IsHexDigest, LowerHex, Next;
    if a.HostEnqueue? {
      var at := if a.availableAt.Some? then a.availableAt.value else i.now;
      EnqueueFrame(c.db, i.newEvent, a.work, a.priority, a.dedup, i.now, at);
    } else if a.HostSubmit? {
      CreateFrame(c.db, i.newRun, i.newEvent, a.task, a.capabilities, a.source, 0, i.now);
    }
  }

  lemma ApplyMoves(s: Settings, c: Config, a: Action, i: Input, q: string)
    requires SoloInv(s, c) && Enabled(c, a, i)
    ensures RowMoves(c.db.effects, Apply(s, c, a, i).db.effects, q)
  {
    hide RowMoves, SoloDb, RunPromise, EffectPromise, Completions, ToolStep, EventStep, DecisionStep, ClosingStep, TickStep;
    if a.Work? {
      var pc := Pc(c, a.p);
      WorkKnown(c, a.p, i);
      if ToolPhase(pc) {
        assert PcSolo(s, ViewOf(c.db, c.hist), pc);
        ToolStepMoves(s, pc, c.db, c.hist, i, q);
      } else {
        OutsideTools(s, a.p, pc, c.db, c.hist, i);
        SameMoves(c.db.effects, q);
      }
    } else {
      HostMoves(s, c, a, i, q);
    }
  }

  lemma SameMoves(effects: map<string, EffectRow>, q: string)
    ensures RowMoves(effects, effects, q)
  {
  }

  /** Every history of a ledger row is a path in the effect state graph. */
  lemma LedgerPath(s: Settings, trace: seq<Config>, n: nat, q: string)
    requires SoloExecution(s, trace) && n + 1 < |trace|
    ensures RowMoves(trace[n].db.effects, trace[n + 1].db.effects, q)
  {
    hide SoloInv, AdmissionInv, RowMoves, Enabled, Apply, Solo, SoloHost;
    SoloReachable(s, trace, n);
    var c, c' := trace[n], trace[n + 1];
    assert SoloStep(s, c, c');
    var a, i :| Enabled(c, a, i) && SoloHost(c, a) && c' == Apply(s, c, a, i) && Solo(c');
    ApplyMoves(s, c, a, i, q);
  }

  /** COMMITTED is terminal: the row, result and digest included, is the same ever after. */
  lemma {:induction false} CommittedIsFinal(s: Settings, trace: seq<Config>, m: nat, n: nat, q: string)
    requires SoloExecution(s, trace) && m <= n < |trace|
    requires StateOf(trace[m].db.effects, q) == Some(COMMITTED)
    ensures q in trace[n].db.effects && trace[n].db.effects[q] == trace[m].db.effects[q]
    decreases n - m
  {
    hide SoloExecution;
    if m < n {
      CommittedIsFinal(s, trace, m, n - 1, q);
      LedgerPath(s, trace, n - 1, q);
    }
  }

  lemma ToolStepInvokes(s: Settings, pc: PC, db: Database, h: History, i: Input, q: string)
    requires ToolPhase(pc) && EffectPromise(s, ViewOf(db, h), pc) && StateOf(db.effects, q) == Some(COMMITTED)
    ensures Invocations(ToolStep(s, pc, db, h, i).hist.invocations, q) == Invocations(h.invocations, q)
  {
    hide AfterLookup, AfterRecovery, AfterRaise, RecordMessage, AdmitEffect, SetEffect, MarkUnknown, Invocations, Committed;
    if pc.Invoking? {
      InvocationsAppend(h.invocations, Invocation(pc.call, pc.mutation, Granted(pc.caller), RunOf(pc.caller)), q);
    }
  }

  lemma ApplyInvokes(s: Settings, c: Config, a: Action, i: Input, q: string)
    requires SoloInv(s, c) && AdmissionInv(s, c) && Enabled(c, a, i) && StateOf(c.db.effects, q) == Some(COMMITTED)
    ensures Invocations(Apply(s, c, a, i).hist.invocations, q) == Invocations(c.hist.invocations, q)
  {
    hide SoloDb, RunPromise, EffectPromise, Completions, LedgerOk, InvocationsOk, PcAdmitted, Invocations;
    hide ToolStep, EventStep, DecisionStep, ClosingStep, TickStep;
    if a.Work? {
      var pc := Pc(c, a.p);
      WorkKnown(c, a.p, i);
      if ToolPhase(pc) {
        assert PcSolo(s, ViewOf(c.db, c.hist), pc);
        ToolStepInvokes(s, pc, c.db, c.hist, i, q);
      } else {
        OutsideTools(s, a.p, pc, c.db, c.hist, i);
      }
    } else {
      hide Apply;
      HostLedger(s, c, a, i);
    }
  }

  /** Once a request is COMMITTED its handler is never invoked again, by no retry and no resume. */
  lemma {:induction false} CommittedNotInvoked(s: Settings, trace: seq<Config>, m: nat, n: nat, q: string)
    requires SoloExecution(s, trace) && m <= n < |trace|
    requires StateOf(trace[m].db.effects, q) == Some(COMMITTED)
    ensures Invocations(trace[n].hist.invocations, q) == Invocations(trace[m].hist.invocations, q)
    decreases n - m
  {
    hide SoloInv, AdmissionInv, Invocations, Enabled, Apply, Solo, SoloHost;
    if m < n {
      CommittedNotInvoked(s, trace, m, n - 1, q);
      CommittedIsFinal(s, trace, m, n - 1, q);
      SoloReachable(s, trace, n - 1);
      var c, c' := trace[n - 1], trace[n];
      assert SoloStep(s, trace[n - 1], trace[n - 1 + 1]);
      var a, i :| Enabled(c, a, i) && SoloHost(c, a) && c' == Apply(s, c, a, i) && Solo(c');
      ApplyInvokes(s, c, a, i, q);
    }
  }

  // ---- decisions ------------------------------------------------------------------------

  /** The decision fence: a run at generation s has stored decisions for exactly the steps 0..s-1,
      or 0..s while step s is open; all lie below `max_steps`, s never exceeds it, a stored decision is
      the same at every later point, and a COMPLETED run's result is the text of its last decision. */
  lemma DecisionFence(s: Settings, trace: seq<Config>, m: nat, n: nat, run: string, k: nat)
    requires SoloExecution(s, trace) && m <= n < |trace| && run in trace[n].db.runs
    ensures var db := trace[n].db; var row := db.runs[run];
      && row.stepCount <= s.maxSteps && (row.status == COMPLETED ==> Concluded(row, db.decisions, run))
      && (k < row.stepCount ==> StepId(run, k) in db.decisions)
      && (StepId(run, k) in db.decisions ==>
            k < s.maxSteps && (k < row.stepCount || (k == row.stepCount && row.status != COMPLETED)))
      && (StepId(run, k) in trace[m].db.decisions ==>
            StepId(run, k) in db.decisions && db.decisions[StepId(run, k)] == trace[m].db.decisions[StepId(run, k)])
  {
    hide SoloExecution, Execution, Barrier, Budget, PcSolo, AdmissionInv, Completions;
    SoloReachable(s, trace, n);
    SoloIsExecution(s, trace);
    NothingRewritten(s, trace, m, n);
    if StepId(run, k) in trace[n].db.decisions {
      assert StepId(run, k).run == run && StepId(run, k).step == k;
    }
  }

  // ---- the recovery barrier -------------------------------------------------------------

  /** While a run is BLOCKED_EFFECT its `blocked_request_id` names a ledger row and is the request
      of the decision stored for its generation, and no delivery is about to call the model or a
      handler for it: the only process inside `execute` for it is a resume of that request. */
  lemma RecoveryBarrier(s: Settings, trace: seq<Config>, n: nat, run: string, p: string)
    requires SoloExecution(s, trace) && n < |trace| && run in trace[n].db.runs
    requires trace[n].db.runs[run].status == BLOCKED_EFFECT
    ensures var c := trace[n]; var row := c.db.runs[run]; var pc := Pc(c, p);
      && row.blockedRequest.Some? && row.blockedRequest.value in c.db.effects
      && DecidedCall(c.db.decisions, run, row.stepCount, row.blockedRequest.value)
      && (OpenPhase(pc) ==> pc.frame.run != run)
      && (CallPhase(pc) && RunOf(pc.caller) == run ==>
            pc.caller.FromResume? && pc.call.request == row.blockedRequest.value)
  {
    hide SoloExecution, Fence, Budget, AdmissionInv, Completions, EffectPromise, StoredCall;
    SoloReachable(s, trace, n);
    var c := trace[n];
    assert Barred(ViewOf(c.db, c.hist), run);
    if p in c.procs {
      assert PcSolo(s, ViewOf(c.db, c.hist), c.procs[p]);
    }
  }

  predicate StillBlocked(a: RunRow, b: RunRow) {
    b.status == BLOCKED_EFFECT && b.blockedRequest == a.blockedRequest && b.stepCount == a.stepCount
  }

  /** What one step may do to a blocked run. */
  predicate Leaves(db: Database, db': Database, run: string)
    requires run in db.runs
  {
    && run in db'.runs
    && (StillBlocked(db.runs[run], db'.runs[run])
        || (&& db'.runs[run].status == RUNNING && db'.runs[run].stepCount == db.runs[run].stepCount + 1
            && db.runs[run].blockedRequest.Some?
            && StateOf(db.effects, db.runs[run].blockedRequest.value) == Some(COMMITTED)))
  }

  lemma DecisionStepBlocked(s: Settings, pc: PC, db: Database, h: History, i: Input, run: string)
    requires DecisionPhase(pc) && RunPromise(s, ViewOf(db, h), pc)
    requires run in db.runs && db.runs[run].status == BLOCKED_EFFECT
    ensures Leaves(db, DecisionStep(s, pc, db, h, i).db, run)
  {
    hide DecisionStep, Current, Decided;
    if pc.FailingMaxSteps? {
      FailingMaxBlocked(s, pc, db, h, i, run);
    } else {
      DecisionStepFrame(s, pc, db, h, i);
    }
  }

  lemma FailingMaxBlocked(s: Settings, pc: PC, db: Database, h: History, i: Input, run: string)
    requires pc.FailingMaxSteps? && run in db.runs && pc.run != run
    ensures var b := DecisionStep(s, pc, db, h, i).db; run in b.runs && b.runs[run] == db.runs[run]
  {
  }

  lemma ClosingStepBlocked(s: Settings, pc: PC, db: Database, h: History, i: Input, run: string)
    requires ClosingPhase(pc) && PcSolo(s, ViewOf(db, h), pc)
    requires run in db.runs && db.runs[run].status == BLOCKED_EFFECT
    ensures Leaves(db, ClosingStep(pc, db, h, i).db, run)
  {
    hide AdvanceRunStep, ResumeRun, Invocations, NoEffects, StoredCall;
    if pc.Advancing? {
      AdvanceFrame(db, pc.frame.run, pc.frame.step, i.newEvent, pc.frame.visit.priority, pc.frame.visit.now);
    } else if pc.Resuming? {
      ResumeFrame(db, pc.run, i.newEvent, 0, pc.now);
    }
  }

  lemma NextBlocked(s: Settings, p: string, pc: PC, db: Database, h: History, i: Input, run: string)
    requires PcSolo(s, ViewOf(db, h), pc) && run in db.runs && db.runs[run].status == BLOCKED_EFFECT
    ensures Leaves(db, Next(s, p, pc, db, h, i).db, run)
  {
    hide RunPromise, EffectPromise, EventStep, DecisionStep, ClosingStep, ToolStep, TickStep;
    if EventPhase(pc) {
      EventStepRuns(p, pc, db, h, i);
    } else if DecisionPhase(pc) {
      DecisionStepBlocked(s, pc, db, h, i, run);
    } else if ClosingPhase(pc) {
      ClosingStepBlocked(s, pc, db, h, i, run);
    } else if ToolPhase(pc) {
      ToolStepFrame(s, pc, db, h, i);
    } else if TickPhase(pc) {
      TickStepFrame(pc, db, h, i);
    }
  }

  lemma HostBlocked(s: Settings, c: Config, a: Action, i: Input, run: string)
    requires !a.Work? && run in c.db.runs && c.db.runs[run].status == BLOCKED_EFFECT
    ensures Leaves(c.db, Apply(s, c, a, i).db, run)
  {
    hide Enqueue, CreateRunWithInitialStep, Unwind, StartResume, Dispatch, IsHexDigest, LowerHex, Next;
    if a.HostEnqueue? {
      var at := if a.availableAt.Some? then a.availableAt.value else i.now;
      EnqueueFrame(c.db, i.newEvent, a.work, a.priority, a.dedup, i.now, at);
    } else if a.HostSubmit? {
      CreateFrame(c.db, i.newRun, i.newEvent, a.task, a.capabilities, a.source, 0, i.now);
    }
  }

  lemma ApplyBlocked(s: Settings, c: Config, a: Action, i: Input, run: string)
    requires SoloInv(s, c) && Enabled(c, a, i) && run in c.db.runs && c.db.runs[run].status == BLOCKED_EFFECT
    ensures Leaves(c.db, Apply(s, c, a, i).db, run)
  {
    hide SoloDb, PcSolo, Completions, Leaves, Next;
    if a.Work? {
      WorkKnown(c, a.p, i);
      NextBlocked(s, a.p, Pc(c, a.p), c.db, c.hist, i, run);
    } else {
      HostBlocked(s, c, a, i, run);
    }
  }

  /** A blocked run stays blocked on the same request at the same generation until a step finds
      that request COMMITTED; that step makes it RUNNING at the next generation. */
  lemma BarrierHolds(s: Settings, trace: seq<Config>, n: nat, run: string)
    requires SoloExecution(s, trace) && n + 1 < |trace| && run in trace[n].db.runs
    requires trace[n].db.runs[run].status == BLOCKED_EFFECT
    ensures Leaves(trace[n].db, trace[n + 1].db, run)
  {
    hide SoloInv, AdmissionInv, Leaves, Enabled, Apply, Solo, SoloHost;
    SoloReachable(s, trace, n);
    var c, c' := trace[n], trace[n + 1];
    assert SoloStep(s, c, c');
    var a, i :| Enabled(c, a, i) && SoloHost(c, a) && c' == Apply(s, c, a, i) && Solo(c');
    ApplyBlocked(s, c, a, i, run);
  }
}
