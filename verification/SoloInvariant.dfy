/** Environment (S): one live worker with crash and restart. The invariant that joins runs, stored
    decisions, the effect ledger and the invocation log, statement by statement. */
module SoloInvariant {
  import opened Basics
  import opened JsonValues
  import opened Tables
  import opened SchemaRules
  import opened Protocol
  import opened Growth
  import opened AdmissionSafety

  // ---- counting -------------------------------------------------------------------------

  /** Handler invocations of the mutation `q`. */
  function Invocations(log: seq<Invocation>, q: string): nat {
    if log == [] then 0
    else
      var last := log[|log| - 1];
      Invocations(log[..|log| - 1], q) + if last.mutation && last.call.request == q then 1 else 0
  }

  /** Reconciliations of `q` that confirmed no effect. */
  function NoEffects(entries: seq<Reconciliation>, q: string): nat {
    if entries == [] then 0
    else
      var last := entries[|entries| - 1];
      NoEffects(entries[..|entries| - 1], q) + if !last.effectOccurred && last.request == q then 1 else 0
  }

  lemma InvocationsAppend(log: seq<Invocation>, v: Invocation, q: string)
    ensures Invocations(log + [v], q) == Invocations(log, q) + if v.mutation && v.call.request == q then 1 else 0
  {
    assert (log + [v])[..|log|] == log;
  }

  lemma NoEffectsAppend(entries: seq<Reconciliation>, r: Reconciliation, q: string)
    ensures NoEffects(entries + [r], q) == NoEffects(entries, q) + if !r.effectOccurred && r.request == q then 1 else 0
  {
    assert (entries + [r])[..|entries|] == entries;
  }

  lemma {:induction false} NeverInvoked(effects: map<string, EffectRow>, log: seq<Invocation>, q: string)
    requires forall i | 0 <= i < |log| && log[i].mutation :: log[i].call.request in effects
    requires q !in effects
    ensures Invocations(log, q) == 0
  {
    if log != [] {
      NeverInvoked(effects, log[..|log| - 1], q);
    }
  }

  /** The tables and logs the invariant is about. */
  datatype View = View(
    runs: map<string, RunRow>, decisions: map<StepId, Decision>, effects: map<string, EffectRow>,
    reconciliations: seq<Reconciliation>, invocations: seq<Invocation>)

  function ViewOf(db: Database, h: History): View {
    View(db.runs, db.decisions, db.effects, db.reconciliations, h.invocations)
  }

  // ---- the tables -----------------------------------------------------------------------

  /** Stored decisions of a run at generation s are 0..s-1, or 0..s while s is undecided-yet-open. */
  ghost predicate Fence(s: Settings, runs: map<string, RunRow>, decisions: map<StepId, Decision>) {
    && (forall id | id in decisions ::
          && id.run in runs && id.step < s.maxSteps && id.step <= runs[id.run].stepCount
          && (id.step == runs[id.run].stepCount ==> runs[id.run].status != COMPLETED))
    && (forall r, k: nat | r in runs && k < runs[r].stepCount :: StepId(r, k) in decisions)
    && (forall r | r in runs :: runs[r].stepCount <= s.maxSteps)
    && (forall r | r in runs && runs[r].status == COMPLETED :: Concluded(runs[r], decisions, r))
  }

  /** A run ends with its last decision, which was a final text, as its result. */
  predicate Concluded(row: RunRow, decisions: map<StepId, Decision>, r: string) {
    && row.stepCount >= 1 && StepId(r, row.stepCount - 1) in decisions
    && decisions[StepId(r, row.stepCount - 1)].FinalText?
    && row.finalText == Some(decisions[StepId(r, row.stepCount - 1)].text)
  }

  predicate DecidedCall(decisions: map<StepId, Decision>, run: string, step: nat, request: string) {
    && StepId(run, step) in decisions
    && decisions[StepId(run, step)].ToolCall? && decisions[StepId(run, step)].call.request == request
  }

  predicate BlockedOn(v: View, r: string, q: string) {
    r in v.runs && v.runs[r].status == BLOCKED_EFFECT && v.runs[r].blockedRequest == Some(q)
  }

  predicate Barred(v: View, r: string)
    requires r in v.runs
  {
    v.runs[r].status == BLOCKED_EFFECT ==>
      && v.runs[r].blockedRequest.Some? && v.runs[r].blockedRequest.value in v.effects
      && DecidedCall(v.decisions, r, v.runs[r].stepCount, v.runs[r].blockedRequest.value)
  }

  ghost predicate Barrier(v: View) {
    forall r | r in v.runs :: Barred(v, r)
  }

  /** Invocations are paid for: one, plus one per no-effect reconciliation. */
  predicate WithinBudget(v: View, q: string)
    requires q in v.effects
  {
    Invocations(v.invocations, q) + (if v.effects[q].state == RECONCILED_NO_EFFECT then 1 else 0)
      <= NoEffects(v.reconciliations, q) + 1
  }

  ghost predicate Budget(v: View) {
    forall q | q in v.effects :: WithinBudget(v, q)
  }

  predicate Committed(effects: map<string, EffectRow>, q: string, output: Json) {
    && q in effects && effects[q].state == COMMITTED
    && effects[q].result == Some(output) && effects[q].resultDigest == Some(Sha256(output))
  }

  /** Every result ever handed back is the committed one. */
  ghost predicate Completions(effects: map<string, EffectRow>, completions: seq<Completion>) {
    forall j | 0 <= j < |completions| ::
      && Committed(effects, completions[j].request, completions[j].output)
      && completions[j].digest == Sha256(completions[j].output)
  }

  ghost predicate SoloDb(s: Settings, v: View) {
    Fence(s, v.runs, v.decisions) && Barrier(v) && Budget(v)
  }

  // ---- the program counter --------------------------------------------------------------

  predicate Current(s: Settings, v: View, f: Frame) {
    && f.run in v.runs && v.runs[f.run].status == RUNNING && v.runs[f.run].stepCount == f.step
    && f.step < s.maxSteps && v.runs[f.run].capabilities == f.capabilities
  }

  predicate Decided(v: View, f: Frame, d: Decision) {
    StepId(f.run, f.step) in v.decisions && v.decisions[StepId(f.run, f.step)] == d
  }

  predicate CallerOk(s: Settings, v: View, k: Caller, call: Call) {
    match k
    case FromStep(f) => Current(s, v, f) && Decided(v, f, ToolCall(call))
    case FromResume(run, _, _) => BlockedOn(v, run, call.request) && Records(v.effects, call)
  }

  /** Counters of a step that has not yet moved its run. */
  predicate OpenPhase(pc: PC) {
    pc.Deciding? || pc.Asking? || pc.RecordingDecision? || pc.RecordingCall? || pc.Advancing?
    || pc.RecordingFinal? || pc.Completing? || pc.Blocking? || pc.FailingTool?
  }

  predicate InState(v: View, q: string, state: EffectState) {
    q in v.effects && v.effects[q].state == state
  }

  predicate MutationTool(s: Settings, tool: string) {
    tool in s.tools && s.tools[tool].mutation
  }

  ghost predicate RunPromise(s: Settings, v: View, pc: PC) {
    StepPromise(s, v, pc) && CallPromise(s, v, pc)
  }

  ghost predicate CallPromise(s: Settings, v: View, pc: PC) {
    (CallPhase(pc) ==> CallerOk(s, v, pc.caller, pc.call)) && (pc.Recovering? ==> BlockedOn(v, pc.run, pc.request))
  }

  ghost predicate StepPromise(s: Settings, v: View, pc: PC) {
    && (pc.FailingMaxSteps? ==>
          pc.run in v.runs && v.runs[pc.run].status == RUNNING && v.runs[pc.run].stepCount >= s.maxSteps)
    && (OpenPhase(pc) ==> Current(s, v, pc.frame))
    && (pc.Asking? || pc.RecordingDecision? ==> StepId(pc.frame.run, pc.frame.step) !in v.decisions)
    && (pc.RecordingCall? ==> Decided(v, pc.frame, ToolCall(pc.call)))
    && (pc.Advancing? || pc.FailingTool? ==> StepId(pc.frame.run, pc.frame.step) in v.decisions)
    && (pc.RecordingFinal? || pc.Completing? ==> Decided(v, pc.frame, FinalText(pc.text)))
    && (pc.Blocking? ==>
          DecidedCall(v.decisions, pc.frame.run, pc.frame.step, pc.request) && pc.request in v.effects)
  }

  ghost predicate EffectPromise(s: Settings, v: View, pc: PC) {
    && (pc.Admitting? ==> pc.call.request !in v.effects)
    && (pc.Rearming? ==> InState(v, pc.call.request, RECONCILED_NO_EFFECT))
    && (InFlight(pc) ==> InState(v, pc.call.request, EXECUTING))
    && (pc.Invoking? && pc.mutation ==>
          Invocations(v.invocations, pc.call.request) <= NoEffects(v.reconciliations, pc.call.request))
    && (pc.Invoking? ==> pc.mutation == MutationTool(s, pc.call.tool) && (pc.caller.FromResume? ==> pc.mutation))
    && (pc.Returned? && (pc.caller.FromResume? || MutationTool(s, pc.call.tool)) ==>
          Committed(v.effects, pc.call.request, pc.output))
    && (pc.Resuming? ==>
          && pc.run in v.runs && v.runs[pc.run].status == BLOCKED_EFFECT
          && v.runs[pc.run].blockedRequest.Some? && InState(v, v.runs[pc.run].blockedRequest.value, COMMITTED))
  }

  ghost predicate PcSolo(s: Settings, v: View, pc: PC) {
    RunPromise(s, v, pc) && EffectPromise(s, v, pc)
  }

  ghost predicate SoloInv(s: Settings, c: Config) {
    && Solo(c) && SoloDb(s, ViewOf(c.db, c.hist)) && Completions(c.db.effects, c.hist.completions)
    && forall p | p in c.procs :: PcSolo(s, ViewOf(c.db, c.hist), c.procs[p])
  }

  lemma PassiveSolo(s: Settings, v: View, pc: PC)
    requires Passive(pc) || pc.Ticking?
    ensures PcSolo(s, v, pc)
  {
  }

  // ---- updates of the view --------------------------------------------------------------

  lemma AddRunSolo(s: Settings, v: View, r: string, row: RunRow)
    requires SoloDb(s, v) && r !in v.runs && row.status == RUNNING && row.stepCount == 0
    ensures SoloDb(s, v.(runs := v.runs[r := row]))
  {
    hide Invocations, NoEffects, StoredCall, Concluded;
    var v' := v.(runs := v.runs[r := row]);
    assert forall x | x in v.runs :: Barred(v, x);
    forall q | q in v'.effects
      ensures WithinBudget(v', q)
    {
      assert WithinBudget(v, q);
    }
  }

  lemma AddRunPc(s: Settings, v: View, r: string, row: RunRow, pc: PC)
    requires r !in v.runs && PcSolo(s, v, pc)
    ensures PcSolo(s, v.(runs := v.runs[r := row]), pc)
  {
    hide RunPromise, EffectPromise;
    AddRunRun(s, v, r, row, pc);
    AddRunEffect(s, v, r, row, pc);
  }

  lemma AddRunRun(s: Settings, v: View, r: string, row: RunRow, pc: PC)
    requires r !in v.runs && RunPromise(s, v, pc)
    ensures RunPromise(s, v.(runs := v.runs[r := row]), pc)
  {
    hide StepPromise, CallPromise;
    AddRunStep(s, v, r, row, pc);
    AddRunCall(s, v, r, row, pc);
  }

  lemma AddRunStep(s: Settings, v: View, r: string, row: RunRow, pc: PC)
    requires r !in v.runs && StepPromise(s, v, pc)
    ensures StepPromise(s, v.(runs := v.runs[r := row]), pc)
  {
  }

  lemma AddRunCall(s: Settings, v: View, r: string, row: RunRow, pc: PC)
    requires r !in v.runs && CallPromise(s, v, pc)
    ensures CallPromise(s, v.(runs := v.runs[r := row]), pc)
  {
    hide Records;
  }

  lemma AddRunEffect(s: Settings, v: View, r: string, row: RunRow, pc: PC)
    requires r !in v.runs && EffectPromise(s, v, pc)
    ensures EffectPromise(s, v.(runs := v.runs[r := row]), pc)
  {
    hide Invocations, NoEffects, Committed;
  }

  /** A run row that stays in its generation, or leaves it with its decision made. */
  lemma SetRunSolo(s: Settings, v: View, r: string, row: RunRow)
    requires SoloDb(s, v) && r in v.runs
    requires row.stepCount == v.runs[r].stepCount
             || (row.stepCount == v.runs[r].stepCount + 1 && row.stepCount <= s.maxSteps
                 && StepId(r, v.runs[r].stepCount) in v.decisions)
    requires row.status == COMPLETED ==> Concluded(row, v.decisions, r)
    requires row.status == COMPLETED ==> row.stepCount == v.runs[r].stepCount + 1 || v.runs[r].status == COMPLETED
    requires row.status == BLOCKED_EFFECT ==>
               && row.stepCount == v.runs[r].stepCount
               && row.blockedRequest.Some? && row.blockedRequest.value in v.effects
               && DecidedCall(v.decisions, r, row.stepCount, row.blockedRequest.value)
    ensures SoloDb(s, v.(runs := v.runs[r := row]))
  {
    hide Invocations, NoEffects;
    var v' := v.(runs := v.runs[r := row]);
    assert forall x | x in v.runs :: Barred(v, x);
    forall q | q in v'.effects
      ensures WithinBudget(v', q)
    {
      assert WithinBudget(v, q);
    }
    forall x, k: nat | x in v'.runs && k < v'.runs[x].stepCount
      ensures StepId(x, k) in v'.decisions
    {
      assert k < v.runs[x].stepCount || k == v.runs[x].stepCount;
    }
  }

  lemma AddDecisionSolo(s: Settings, v: View, f: Frame, d: Decision)
    requires SoloDb(s, v) && Current(s, v, f) && StepId(f.run, f.step) !in v.decisions
    ensures SoloDb(s, v.(decisions := v.decisions[StepId(f.run, f.step) := d]))
  {
    hide Invocations, NoEffects;
    var v' := v.(decisions := v.decisions[StepId(f.run, f.step) := d]);
    assert forall x | x in v.runs :: Barred(v, x);
    forall q | q in v'.effects
      ensures WithinBudget(v', q)
    {
      assert WithinBudget(v, q);
    }
  }

  // ---- outside `execute` ----------------------------------------------------------------

  lemma EventStepSolo(s: Settings, p: string, pc: PC, db: Database, h: History, i: Input)
    requires EventPhase(pc) && SoloDb(s, ViewOf(db, h))
    ensures var r := EventStep(p, pc, db, h, i);
      SoloDb(s, ViewOf(r.db, r.hist)) && PcSolo(s, ViewOf(r.db, r.hist), r.pc)
  {
    hide SoloDb, EventStep, PcSolo;
    var r := EventStep(p, pc, db, h, i);
    EventStepFrame(p, pc, db, h, i);
    EventStepRuns(p, pc, db, h, i);
    var v := ViewOf(db, h);
    if r.db.runs != db.runs {
      AddRunSolo(s, v, i.newRun, r.db.runs[i.newRun]);
      assert ViewOf(r.db, r.hist) == v.(runs := v.runs[i.newRun := r.db.runs[i.newRun]]);
    } else {
      assert ViewOf(r.db, r.hist) == v;
    }
    EventStepClosed(s, p, pc, db, h, i, ViewOf(r.db, r.hist));
  }

  lemma EventStepRuns(p: string, pc: PC, db: Database, h: History, i: Input)
    requires EventPhase(pc)
    ensures var r := EventStep(p, pc, db, h, i);
      r.db.runs == db.runs
      || (i.newRun !in db.runs && i.newRun in r.db.runs && r.db.runs == db.runs[i.newRun := r.db.runs[i.newRun]]
          && r.db.runs[i.newRun].status == RUNNING && r.db.runs[i.newRun].stepCount == 0)
  {
    hide CreateRunWithInitialStep, Backoff;
    if pc.Submitting? {
      CreateFrame(db, i.newRun, i.newEvent, pc.task, pc.capabilities, Some(pc.visit.event), 0, pc.visit.now);
    }
  }

  lemma EventStepClosed(s: Settings, p: string, pc: PC, db: Database, h: History, i: Input, v: View)
    requires EventPhase(pc)
    ensures PcSolo(s, v, EventStep(p, pc, db, h, i).pc)
  {
    hide CreateRunWithInitialStep, Acknowledge, Requeue, Log, AddLease, Backoff;
  }

  lemma FailRunSolo(s: Settings, db: Database, h: History, r: string, error: string)
    requires SoloDb(s, ViewOf(db, h))
    ensures SoloDb(s, ViewOf(FailRun(db, r, error), h)) && SoloDb(s, ViewOf(NoteError(db, r, error), h))
  {
    hide Fence, Budget;
    if r in db.runs {
      var v := ViewOf(db, h);
      assert Barred(v, r);
      assert v.runs[r].status == COMPLETED ==> Concluded(v.runs[r], v.decisions, r) by { EndOf(s, v, r); }
      SetRunSolo(s, v, r, FailRun(db, r, error).runs[r]);
      SetRunSolo(s, v, r, NoteError(db, r, error).runs[r]);
    }
  }

  lemma EndOf(s: Settings, v: View, r: string)
    requires SoloDb(s, v) && r in v.runs
    ensures v.runs[r].status == COMPLETED ==> Concluded(v.runs[r], v.decisions, r)
  {
    hide Concluded;
  }

  lemma DecisionStepSolo(s: Settings, pc: PC, db: Database, h: History, i: Input)
    requires DecisionPhase(pc) && SoloDb(s, ViewOf(db, h)) && PcSolo(s, ViewOf(db, h), pc)
    ensures var r := DecisionStep(s, pc, db, h, i);
      SoloDb(s, ViewOf(r.db, r.hist)) && PcSolo(s, ViewOf(r.db, r.hist), r.pc)
  {
    hide SoloDb, RecordMessage, UpdateRun;
    var v := ViewOf(db, h);
    var r := DecisionStep(s, pc, db, h, i);
    if pc.FailingMaxSteps? {
      FailRunSolo(s, db, h, pc.run, "max_steps exceeded");
    } else if pc.RecordingDecision? {
      AddDecisionSolo(s, v, pc.frame, pc.decision);
    } else if pc.RecordingCall? || pc.RecordingFinal? {
      DecisionMessageFrame(s, pc, db, h, i);
    }
  }

  /** Completion and blocking, from inside an open step. */
  lemma CloseRunSolo(s: Settings, db: Database, h: History, f: Frame, text: string, request: string)
    requires SoloDb(s, ViewOf(db, h)) && Current(s, ViewOf(db, h), f) && StepId(f.run, f.step) in db.decisions
    ensures Decided(ViewOf(db, h), f, FinalText(text)) ==> SoloDb(s, ViewOf(CompleteRun(db, f.run, text), h))
    ensures DecidedCall(db.decisions, f.run, f.step, request) && request in db.effects ==>
              SoloDb(s, ViewOf(BlockRun(db, f.run, request, text).value, h))
  {
    hide SoloDb;
    var v := ViewOf(db, h);
    if Decided(v, f, FinalText(text)) {
      SetRunSolo(s, v, f.run, CompleteRun(db, f.run, text).runs[f.run]);
    }
    if DecidedCall(db.decisions, f.run, f.step, request) && request in db.effects {
      SetRunSolo(s, v, f.run, BlockRun(db, f.run, request, text).value.runs[f.run]);
    }
  }

  lemma AdvanceSolo(s: Settings, db: Database, h: History, f: Frame, newEvent: string)
    requires SoloDb(s, ViewOf(db, h)) && Current(s, ViewOf(db, h), f) && StepId(f.run, f.step) in db.decisions
    ensures var b := AdvanceRunStep(db, f.run, f.step, newEvent, f.visit.priority, f.visit.now);
      b.Some? ==> SoloDb(s, ViewOf(b.value, h))
  {
    hide SoloDb, AdvanceRunStep;
    AdvanceFrame(db, f.run, f.step, newEvent, f.visit.priority, f.visit.now);
    SetRunSolo(s, ViewOf(db, h), f.run, db.runs[f.run].(stepCount := f.step + 1, lastError := None));
  }

  lemma ResumeSolo(s: Settings, db: Database, h: History, r: string, newEvent: string, now: int)
    requires SoloDb(s, ViewOf(db, h))
    ensures var b := ResumeRun(db, r, newEvent, 0, now); b.Some? ==> SoloDb(s, ViewOf(b.value, h))
  {
    hide Fence, Budget, ResumeRun;
    ResumeFrame(db, r, newEvent, 0, now);
    if r in db.runs && db.runs[r].status == BLOCKED_EFFECT {
      var v := ViewOf(db, h);
      assert Barred(v, r);
      ResumeWithin(s, v, r);
      SetRunSolo(s, v, r, db.runs[r].(status := RUNNING, blockedRequest := None, lastError := None,
                                      stepCount := db.runs[r].stepCount + 1));
    }
  }

  lemma ClosingStepClosed(s: Settings, pc: PC, db: Database, h: History, i: Input, v: View)
    requires ClosingPhase(pc)
    ensures PcSolo(s, v, ClosingStep(pc, db, h, i).pc)
  {
    hide AdvanceRunStep, ResumeRun, UpdateRun, BlockRun, Log;
  }

  lemma ClosingStepSolo(s: Settings, pc: PC, db: Database, h: History, i: Input)
    requires ClosingPhase(pc) && SoloDb(s, ViewOf(db, h)) && PcSolo(s, ViewOf(db, h), pc)
    ensures var r := ClosingStep(pc, db, h, i);
      SoloDb(s, ViewOf(r.db, r.hist)) && PcSolo(s, ViewOf(r.db, r.hist), r.pc)
  {
    hide SoloDb, AdvanceRunStep, ResumeRun, UpdateRun, BlockRun;
    var r := ClosingStep(pc, db, h, i);
    ClosingStepClosed(s, pc, db, h, i, ViewOf(r.db, r.hist));
    if pc.Advancing? {
      AdvanceSolo(s, db, h, pc.frame, i.newEvent);
    } else if pc.Resuming? {
      ResumeSolo(s, db, h, pc.run, i.newEvent, pc.now);
    } else if pc.FailingTool? || pc.NotingError? {
      FailRunSolo(s, db, h, pc.frame.run, i.text);
    } else if pc.Completing? {
      CloseRunSolo(s, db, h, pc.frame, pc.text, "");
    } else if pc.Blocking? {
      CloseRunSolo(s, db, h, pc.frame, i.text, pc.request);
    }
  }

  lemma ResumeWithin(s: Settings, v: View, r: string)
    requires Fence(s, v.runs, v.decisions) && r in v.runs && StepId(r, v.runs[r].stepCount) in v.decisions
    ensures v.runs[r].stepCount + 1 <= s.maxSteps
  {
    assert StepId(r, v.runs[r].stepCount).step < s.maxSteps;
  }

  // ---- inside `execute` -----------------------------------------------------------------

  /** A ledger row moved to a new state; results of committed rows are not touched. */
  lemma SetEffectSolo(s: Settings, v: View, q: string, row: EffectRow)
    requires SoloDb(s, v)
    requires q in v.effects ==> v.effects[q].state != COMMITTED || v.effects[q] == row
    requires Invocations(v.invocations, q) + (if row.state == RECONCILED_NO_EFFECT then 1 else 0)
               <= NoEffects(v.reconciliations, q) + 1
    ensures SoloDb(s, v.(effects := v.effects[q := row]))
  {
    hide Invocations, NoEffects, Fence;
    var v' := v.(effects := v.effects[q := row]);
    forall r | r in v'.runs
      ensures Barred(v', r)
    {
      assert Barred(v, r);
    }
    forall x | x in v'.effects
      ensures WithinBudget(v', x)
    {
      assert x != q ==> WithinBudget(v, x);
    }
  }

  lemma AddInvocationSolo(s: Settings, v: View, w: Invocation)
    requires SoloDb(s, v)
    requires w.mutation ==>
      Invocations(v.invocations, w.call.request) <= NoEffects(v.reconciliations, w.call.request)
      && InState(v, w.call.request, EXECUTING)
    ensures SoloDb(s, v.(invocations := v.invocations + [w]))
  {
    hide Invocations, NoEffects, Fence;
    var v' := v.(invocations := v.invocations + [w]);
    forall r | r in v'.runs
      ensures Barred(v', r)
    {
      assert Barred(v, r);
    }
    forall x | x in v'.effects
      ensures WithinBudget(v', x)
    {
      assert WithinBudget(v, x);
      InvocationsAppend(v.invocations, w, x);
    }
  }

  lemma LookupSolo(s: Settings, k: Caller, call: Call, db: Database, h: History)
    requires LedgerOk(s, db) && CallerOk(s, ViewOf(db, h), k, call)
    ensures var next := AfterLookup(s, k, call, db);
      PcSolo(s, ViewOf(db, h), next) && (next.Returned? ==> Committed(db.effects, call.request, next.output))
  {
    hide RunPromise, EffectPromise, AfterLookup, LedgerOk, CallerOk;
    LookupRun(s, k, call, db, h);
    LookupEffect(s, k, call, db, h);
  }

  lemma LookupRun(s: Settings, k: Caller, call: Call, db: Database, h: History)
    requires CallerOk(s, ViewOf(db, h), k, call)
    ensures RunPromise(s, ViewOf(db, h), AfterLookup(s, k, call, db))
  {
    hide Satisfies, Supported, CallerOk, Admissible, RequestPayload;
  }

  lemma LookupEffect(s: Settings, k: Caller, call: Call, db: Database, h: History)
    requires LedgerOk(s, db) && CallerOk(s, ViewOf(db, h), k, call)
    ensures var next := AfterLookup(s, k, call, db);
      EffectPromise(s, ViewOf(db, h), next) && (next.Returned? ==> Committed(db.effects, call.request, next.output))
  {
    hide Satisfies, Supported, Current, Invocations, NoEffects, RequestPayload, Decided;
    if call.request in db.effects {
      assert LedgerRowOk(s, call.request, db.effects[call.request]);
    }
  }

  lemma RecoverySolo(s: Settings, pc: PC, db: Database, h: History)
    requires pc.Recovering? && LedgerOk(s, db) && PcSolo(s, ViewOf(db, h), pc)
    ensures var next := AfterRecovery(FromResume(pc.run, pc.now, pc.capabilities), pc.request, db);
      PcSolo(s, ViewOf(db, h), next) && (next.Returned? ==> Committed(db.effects, pc.request, next.output))
  {
    hide Current, Invocations, NoEffects;
    if pc.request in db.effects {
      assert LedgerRowOk(s, pc.request, db.effects[pc.request]);
    }
  }

  /** The reads of `execute` and of its callers. */
  lemma ReadStepSolo(s: Settings, pc: PC, db: Database, h: History, i: Input)
    requires (pc.Executing? || pc.Recovering? || pc.Raised?) && LedgerOk(s, db)
    requires PcSolo(s, ViewOf(db, h), pc)
    ensures var r := ToolStep(s, pc, db, h, i);
      ViewOf(r.db, r.hist) == ViewOf(db, h) && PcSolo(s, ViewOf(r.db, r.hist), r.pc)
  {
    hide LedgerOk, AfterLookup, AfterRecovery, StoredCall, Committed, Current, Invocations, NoEffects;
    if pc.Executing? {
      LookupSolo(s, pc.caller, pc.call, db, h);
    } else if pc.Recovering? {
      RecoverySolo(s, pc, db, h);
    }
  }

  /** The ledger writes around the handler. */
  lemma WriteStepSolo(s: Settings, pc: PC, db: Database, h: History, i: Input)
    requires (pc.Admitting? || pc.Rearming? || pc.MarkingUnknown?) && LedgerOk(s, db) && PcAdmitted(s, db, pc)
    requires InvocationsOk(s, db, h)
    requires SoloDb(s, ViewOf(db, h)) && PcSolo(s, ViewOf(db, h), pc)
    ensures var r := ToolStep(s, pc, db, h, i);
      SoloDb(s, ViewOf(r.db, r.hist)) && PcSolo(s, ViewOf(r.db, r.hist), r.pc)
  {
    hide SoloDb, LedgerOk, StoredCall, RequestPayload, Current, Invocations, NoEffects, Satisfies, Supported;
    var v := ViewOf(db, h);
    var r := ToolStep(s, pc, db, h, i);
    var q := pc.call.request;
    BudgetOf(s, v, q);
    if pc.Admitting? {
      assert forall j | 0 <= j < |h.invocations| && h.invocations[j].mutation :: InvocationOk(s, db, h.invocations[j]);
      NeverInvoked(db.effects, h.invocations, q);
    }
    SetEffectSolo(s, v, q, r.db.effects[q]);
    assert ViewOf(r.db, r.hist) == v.(effects := v.effects[q := r.db.effects[q]]);
    CallerKept(s, v, q, r.db.effects[q], pc.caller, pc.call);
  }

  lemma BudgetOf(s: Settings, v: View, q: string)
    requires SoloDb(s, v)
    ensures q in v.effects ==> WithinBudget(v, q)
  {
  }

  lemma CallerKept(s: Settings, v: View, q: string, row: EffectRow, k: Caller, call: Call)
    requires CallerOk(s, v, k, call) && (q in v.effects ==> row.request == v.effects[q].request)
    ensures CallerOk(s, v.(effects := v.effects[q := row]), k, call)
  {
    hide StoredCall;
  }

  lemma CommitStepSolo(s: Settings, pc: PC, db: Database, h: History, i: Input)
    requires pc.Committing? && LedgerOk(s, db)
    requires SoloDb(s, ViewOf(db, h)) && PcSolo(s, ViewOf(db, h), pc)
    ensures var r := ToolStep(s, pc, db, h, i);
      SoloDb(s, ViewOf(r.db, r.hist)) && PcSolo(s, ViewOf(r.db, r.hist), r.pc)
  {
    hide SoloDb, LedgerOk, StoredCall, Current, Invocations, NoEffects;
    var v := ViewOf(db, h);
    var r := ToolStep(s, pc, db, h, i);
    var q := pc.call.request;
    BudgetOf(s, v, q);
    SetEffectSolo(s, v, q, r.db.effects[q]);
    assert ViewOf(r.db, r.hist) == v.(effects := v.effects[q := r.db.effects[q]]);
    CallerKept(s, v, q, r.db.effects[q], pc.caller, pc.call);
  }

  lemma InvokeStepSolo(s: Settings, pc: PC, db: Database, h: History, i: Input)
    requires pc.Invoking? && SoloDb(s, ViewOf(db, h)) && PcSolo(s, ViewOf(db, h), pc)
    ensures var r := ToolStep(s, pc, db, h, i);
      SoloDb(s, ViewOf(r.db, r.hist)) && PcSolo(s, ViewOf(r.db, r.hist), r.pc)
  {
    hide SoloDb, StoredCall, Invocations, NoEffects;
    var v := ViewOf(db, h);
    var r := ToolStep(s, pc, db, h, i);
    var w := Invocation(pc.call, pc.mutation, Granted(pc.caller), RunOf(pc.caller));
    AddInvocationSolo(s, v, w);
    assert ViewOf(r.db, r.hist) == v.(invocations := v.invocations + [w]);
  }

  lemma ReturnStepSolo(s: Settings, pc: PC, db: Database, h: History, i: Input)
    requires pc.Returned? && PcSolo(s, ViewOf(db, h), pc)
    ensures var r := ToolStep(s, pc, db, h, i);
      ViewOf(r.db, r.hist) == ViewOf(db, h) && PcSolo(s, ViewOf(r.db, r.hist), r.pc)
  {
    hide StoredCall, RecordMessage, Invocations, NoEffects, Current;
    ToolMessageFrame(s, pc, db, h, i);
    var r := ToolStep(s, pc, db, h, i);
    assert ViewOf(r.db, r.hist) == ViewOf(db, h);
    assert r.pc.Advancing? || r.pc.NotingError? || r.pc.Resuming? || r.pc.Aborted?;
  }

  lemma CompletionsKept(effects: map<string, EffectRow>, completions: seq<Completion>, q: string, row: EffectRow)
    requires Completions(effects, completions) && (q in effects ==> effects[q].state != COMMITTED)
    ensures Completions(effects[q := row], completions)
  {
  }

  lemma CompletionAdded(effects: map<string, EffectRow>, completions: seq<Completion>, q: string, output: Json)
    requires Completions(effects, completions) && Committed(effects, q, output)
    ensures Completions(effects, completions + [Completion(q, output, Sha256(output))])
  {
    hide Committed;
  }

  lemma ReadCompletions(s: Settings, pc: PC, db: Database, h: History, i: Input)
    requires (pc.Executing? || pc.Recovering? || pc.Raised? || pc.Invoking?) && LedgerOk(s, db)
    requires PcSolo(s, ViewOf(db, h), pc) && Completions(db.effects, h.completions)
    ensures var r := ToolStep(s, pc, db, h, i); Completions(r.db.effects, r.hist.completions)
  {
    hide LedgerOk, AfterLookup, AfterRecovery, AfterRaise, Invocations, NoEffects, CallerOk, EffectPromise, Completions;
    var next := ToolStep(s, pc, db, h, i).pc;
    if pc.Executing? {
      LookupSolo(s, pc.caller, pc.call, db, h);
      if next.Returned? { CompletionAdded(db.effects, h.completions, pc.call.request, next.output); }
    } else if pc.Recovering? {
      RecoverySolo(s, pc, db, h);
      if next.Returned? { CompletionAdded(db.effects, h.completions, pc.request, next.output); }
    }
  }

  /** A result handed back is the committed one, and committed rows stay as they are. */
  lemma CompletionsStep(s: Settings, pc: PC, db: Database, h: History, i: Input)
    requires ToolPhase(pc) && LedgerOk(s, db) && PcSolo(s, ViewOf(db, h), pc)
    requires Completions(db.effects, h.completions)
    ensures var r := ToolStep(s, pc, db, h, i); Completions(r.db.effects, r.hist.completions)
  {
    hide LedgerOk, AfterLookup, AfterRecovery, RequestPayload, RunPromise, Completions, Invocations, NoEffects;
    var r := ToolStep(s, pc, db, h, i);
    if pc.Returned? {
      ToolMessageFrame(s, pc, db, h, i);
    } else if pc.Admitting? || pc.Rearming? || pc.MarkingUnknown? || pc.Committing? {
      var q := pc.call.request;
      CompletionsKept(db.effects, h.completions, q, r.db.effects[q]);
      if pc.Committing? { CompletionAdded(r.db.effects, h.completions, q, pc.output); }
    } else {
      ReadCompletions(s, pc, db, h, i);
    }
  }

  lemma ToolStepSolo(s: Settings, pc: PC, db: Database, h: History, i: Input)
    requires ToolPhase(pc) && LedgerOk(s, db) && PcAdmitted(s, db, pc) && InvocationsOk(s, db, h)
    requires SoloDb(s, ViewOf(db, h)) && PcSolo(s, ViewOf(db, h), pc)
    ensures var r := ToolStep(s, pc, db, h, i);
      SoloDb(s, ViewOf(r.db, r.hist)) && PcSolo(s, ViewOf(r.db, r.hist), r.pc)
  {
    hide SoloDb, PcSolo, LedgerOk, PcAdmitted, InvocationsOk, ToolStep;
    if pc.Invoking? {
      InvokeStepSolo(s, pc, db, h, i);
    } else if pc.Returned? {
      ReturnStepSolo(s, pc, db, h, i);
    } else if pc.Committing? {
      CommitStepSolo(s, pc, db, h, i);
    } else if pc.Admitting? || pc.Rearming? || pc.MarkingUnknown? {
      WriteStepSolo(s, pc, db, h, i);
    } else {
      ReadStepSolo(s, pc, db, h, i);
    }
  }

  // ---- the whole system -----------------------------------------------------------------

  lemma TickStepClosed(s: Settings, pc: PC, db: Database, h: History, i: Input, v: View)
    requires TickPhase(pc)
    ensures PcSolo(s, v, TickStep(pc, db, h, i).pc)
  {
    hide Enqueue, Occurrences, SetNextAt, DisableSchedule;
  }

  lemma NextSolo(s: Settings, p: string, pc: PC, db: Database, h: History, i: Input)
    requires LedgerOk(s, db) && PcAdmitted(s, db, pc) && InvocationsOk(s, db, h)
    requires SoloDb(s, ViewOf(db, h)) && PcSolo(s, ViewOf(db, h), pc) && Completions(db.effects, h.completions)
    ensures var r := Next(s, p, pc, db, h, i);
      && SoloDb(s, ViewOf(r.db, r.hist)) && PcSolo(s, ViewOf(r.db, r.hist), r.pc)
      && Completions(r.db.effects, r.hist.completions)
  {
    hide SoloDb, PcSolo, Completions, LedgerOk, PcAdmitted, InvocationsOk;
    hide EventStep, DecisionStep, ClosingStep, ToolStep, TickStep;
    var r := Next(s, p, pc, db, h, i);
    if ToolPhase(pc) {
      ToolStepSolo(s, pc, db, h, i);
      CompletionsStep(s, pc, db, h, i);
    } else {
      OutsideTools(s, p, pc, db, h, i);
      if EventPhase(pc) {
        EventStepSolo(s, p, pc, db, h, i);
      } else if DecisionPhase(pc) {
        DecisionStepSolo(s, pc, db, h, i);
      } else if ClosingPhase(pc) {
        ClosingStepSolo(s, pc, db, h, i);
      } else if TickPhase(pc) {
        TickStepFrame(pc, db, h, i);
        assert ViewOf(r.db, r.hist) == ViewOf(db, h);
        TickStepClosed(s, pc, db, h, i, ViewOf(db, h));
      } else {
        PassiveSolo(s, ViewOf(db, h), Idle);
      }
    }
  }

  /** The only statement of a passive process is a journal entry. */
  lemma PassiveNext(s: Settings, p: string, pc: PC, db: Database, h: History, i: Input)
    requires Passive(pc)
    ensures var r := Next(s, p, pc, db, h, i); ViewOf(r.db, r.hist) == ViewOf(db, h)
  {
    hide DecisionStep, ClosingStep, ToolStep, TickStep, CreateRunWithInitialStep, Acknowledge, Requeue, Backoff;
  }

  lemma WorkSolo(s: Settings, c: Config, p: string, i: Input)
    requires SoloInv(s, c) && AdmissionInv(s, c) && Enabled(c, Work(p), i) && Solo(Apply(s, c, Work(p), i))
    ensures SoloInv(s, Apply(s, c, Work(p), i))
  {
    hide SoloDb, PcSolo, Completions, LedgerOk, PcAdmitted, InvocationsOk, Next;
    WorkKnown(c, p, i);
    var c' := Apply(s, c, Work(p), i);
    NextSolo(s, p, c.procs[p], c.db, c.hist, i);
    forall q | q in c'.procs
      ensures PcSolo(s, ViewOf(c'.db, c'.hist), c'.procs[q])
    {
      if q != p && Passive(c.procs[q]) {
        PassiveSolo(s, ViewOf(c'.db, c'.hist), c.procs[q]);
      } else if q != p {
        PassiveNext(s, p, c.procs[p], c.db, c.hist, i);
      }
    }
  }

  lemma UnwindSolo(s: Settings, v: View, pc: PC)
    requires PcSolo(s, v, pc)
    ensures PcSolo(s, v, Unwind(pc))
  {
    hide Current, CallerOk, Invocations, NoEffects;
  }

  /** Actions that only move the counter of `p`. */
  lemma CounterSolo(s: Settings, c: Config, c': Config, p: string)
    requires SoloInv(s, c) && Solo(c') && ViewOf(c'.db, c'.hist) == ViewOf(c.db, c.hist)
    requires c'.hist.completions == c.hist.completions
    requires forall q | q in c'.procs && q != p :: q in c.procs && c'.procs[q] == c.procs[q]
    requires p in c'.procs ==> PcSolo(s, ViewOf(c.db, c.hist), c'.procs[p])
    ensures SoloInv(s, c')
  {
    hide SoloDb, PcSolo, Completions, Solo;
  }

  lemma ClaimSolo(s: Settings, c: Config, p: string, i: Input)
    requires SoloInv(s, c) && Solo(ApplyClaim(s, c, p, i))
    ensures SoloInv(s, ApplyClaim(s, c, p, i))
  {
    hide SoloDb, Completions, Solo, AdmitTask;
    var c' := ApplyClaim(s, c, p, i);
    CounterSolo(s, c, c', p);
  }

  lemma ReconcileSolo(s: Settings, db: Database, h: History, q: string, occurred: bool, evidence: string,
                      result: Option<Json>, pc: PC)
    requires SoloDb(s, ViewOf(db, h)) && PcSolo(s, ViewOf(db, h), pc) && Completions(db.effects, h.completions)
    requires !InFlight(pc)
    ensures var r := Reconcile(db, q, occurred, evidence, result);
      r.Some? ==>
        && SoloDb(s, ViewOf(r.value, h)) && Completions(r.value.effects, h.completions)
        && PcSolo(s, ViewOf(r.value, h), pc)
  {
    hide SoloDb, Completions, IsHexDigest, LowerHex, PcSolo;
    var r := Reconcile(db, q, occurred, evidence, result);
    if r.Some? {
      var v := ViewOf(db, h);
      var v1 := v.(reconciliations := r.value.reconciliations);
      var entry := Reconciliation(q, occurred, LowerHex(evidence), result);
      BudgetOf(s, v, q);
      NoEffectsAppend(db.reconciliations, entry, q);
      MoreBudget(s, v, entry);
      SetEffectSolo(s, v1, q, r.value.effects[q]);
      CompletionsKept(db.effects, h.completions, q, r.value.effects[q]);
      assert ViewOf(r.value, h) == v1.(effects := v1.effects[q := r.value.effects[q]]);
      ReconciledPc(s, v, entry, r.value.effects[q], pc);
    }
  }

  lemma MoreBudget(s: Settings, v: View, entry: Reconciliation)
    requires SoloDb(s, v)
    ensures SoloDb(s, v.(reconciliations := v.reconciliations + [entry]))
  {
    hide Fence, Invocations, NoEffects;
    var v' := v.(reconciliations := v.reconciliations + [entry]);
    assert forall r | r in v.runs :: Barred(v, r);
    forall q | q in v'.effects
      ensures WithinBudget(v', q)
    {
      assert WithinBudget(v, q);
      NoEffectsAppend(v.reconciliations, entry, q);
    }
  }

  lemma ReconciledRun(s: Settings, v: View, v': View, q: string, pc: PC)
    requires RunPromise(s, v, pc) && q in v.effects && q in v'.effects && v'.effects == v.effects[q := v'.effects[q]]
    requires v'.effects[q].request == v.effects[q].request && v'.runs == v.runs && v'.decisions == v.decisions
    ensures RunPromise(s, v', pc)
  {
    hide StepPromise, CallPromise;
    ReconciledStep(s, v, v', q, pc);
    ReconciledCall(s, v, v', q, pc);
  }

  lemma ReconciledStep(s: Settings, v: View, v': View, q: string, pc: PC)
    requires StepPromise(s, v, pc) && q in v'.effects && v'.effects == v.effects[q := v'.effects[q]]
    requires v'.runs == v.runs && v'.decisions == v.decisions
    ensures StepPromise(s, v', pc)
  {
  }

  lemma ReconciledCall(s: Settings, v: View, v': View, q: string, pc: PC)
    requires CallPromise(s, v, pc) && q in v.effects && q in v'.effects && v'.effects == v.effects[q := v'.effects[q]]
    requires v'.effects[q].request == v.effects[q].request && v'.runs == v.runs && v'.decisions == v.decisions
    ensures CallPromise(s, v', pc)
  {
    hide CallerOk;
    if CallPhase(pc) {
      CallerSame(s, v, v', q, pc.caller, pc.call);
    }
  }

  lemma CallerSame(s: Settings, v: View, v': View, q: string, k: Caller, call: Call)
    requires CallerOk(s, v, k, call) && q in v.effects && q in v'.effects && v'.effects == v.effects[q := v'.effects[q]]
    requires v'.effects[q].request == v.effects[q].request && v'.runs == v.runs && v'.decisions == v.decisions
    ensures CallerOk(s, v', k, call)
  {
    hide StoredCall;
  }

  lemma ReconciledEffect(s: Settings, v: View, v': View, q: string, pc: PC)
    requires EffectPromise(s, v, pc) && !InFlight(pc) && q in v.effects && q in v'.effects
    requires v'.effects == v.effects[q := v'.effects[q]] && v'.runs == v.runs && v'.invocations == v.invocations
    requires Unresolved(v.effects[q].state)
    ensures EffectPromise(s, v', pc)
  {
    hide Invocations, NoEffects;
  }

  lemma ReconciledPc(s: Settings, v: View, entry: Reconciliation, row: EffectRow, pc: PC)
    requires PcSolo(s, v, pc) && !InFlight(pc) && entry.request in v.effects
    requires Unresolved(v.effects[entry.request].state) && row.request == v.effects[entry.request].request
    ensures PcSolo(s, v.(effects := v.effects[entry.request := row], reconciliations := v.reconciliations + [entry]), pc)
  {
    hide RunPromise, EffectPromise, InFlight;
    var v' := v.(effects := v.effects[entry.request := row], reconciliations := v.reconciliations + [entry]);
    ReconciledRun(s, v, v', entry.request, pc);
    ReconciledEffect(s, v, v', entry.request, pc);
  }

  lemma HostSolo(s: Settings, c: Config, a: Action, i: Input)
    requires a.HostSubmit? || a.HostReconcile? || a.AddInterval? || a.HostEnqueue?
    requires SoloInv(s, c) && Enabled(c, a, i) && SoloHost(c, a) && Solo(Apply(s, c, a, i))
    ensures SoloInv(s, Apply(s, c, a, i))
  {
    hide SoloDb, PcSolo, Completions, Solo, CreateRunWithInitialStep, Enqueue, Reconcile, Next;
    var c' := Apply(s, c, a, i);
    if a.HostSubmit? {
      CreateFrame(c.db, i.newRun, i.newEvent, a.task, a.capabilities, a.source, 0, i.now);
      if c'.db.runs != c.db.runs {
        AddRunSolo(s, ViewOf(c.db, c.hist), i.newRun, c'.db.runs[i.newRun]);
        forall q | q in c'.procs
          ensures PcSolo(s, ViewOf(c.db, c.hist).(runs := c.db.runs[i.newRun := c'.db.runs[i.newRun]]), c'.procs[q])
        {
          AddRunPc(s, ViewOf(c.db, c.hist), i.newRun, c'.db.runs[i.newRun], c'.procs[q]);
        }
        assert ViewOf(c'.db, c'.hist) == ViewOf(c.db, c.hist).(runs := c.db.runs[i.newRun := c'.db.runs[i.newRun]]);
      } else {
        CounterSolo(s, c, c', "");
      }
    } else if a.HostReconcile? {
      PassiveSolo(s, ViewOf(c.db, c.hist), Idle);
      ReconcileSolo(s, c.db, c.hist, a.request, a.effectOccurred, a.evidence, a.result, Idle);
      forall q | q in c'.procs
        ensures PcSolo(s, ViewOf(c'.db, c'.hist), c'.procs[q])
      {
        assert !InFlight(c.procs[q]);
        ReconcileSolo(s, c.db, c.hist, a.request, a.effectOccurred, a.evidence, a.result, c.procs[q]);
      }
    } else {
      if a.HostEnqueue? {
        var at := if a.availableAt.Some? then a.availableAt.value else i.now;
        EnqueueFrame(c.db, i.newEvent, a.work, a.priority, a.dedup, i.now, at);
        if a.p in c'.procs && !(a.p in c.procs && c'.procs[a.p] == c.procs[a.p]) {
          PassiveSolo(s, ViewOf(c.db, c.hist), c'.procs[a.p]);
        }
        CounterSolo(s, c, c', a.p);
      } else {
        CounterSolo(s, c, c', "");
      }
    }
  }

  lemma ApplySolo(s: Settings, c: Config, a: Action, i: Input)
    requires SoloInv(s, c) && AdmissionInv(s, c)
    requires Enabled(c, a, i) && SoloHost(c, a) && Solo(Apply(s, c, a, i))
    ensures SoloInv(s, Apply(s, c, a, i))
  {
    hide SoloDb, PcSolo, Completions, Solo, AdmissionInv, Next, Unwind, ApplyClaim, SoloHost;
    var c' := Apply(s, c, a, i);
    var v := ViewOf(c.db, c.hist);
    if a.Work? {
      WorkSolo(s, c, a.p, i);
    } else if a.ClaimNext? {
      ClaimSolo(s, c, a.p, i);
    } else if a.Resume? {
      assert PcSolo(s, v, c'.procs[a.p]) by { ResumeStarts(s, c, a.p, a.run, i.now); }
      CounterSolo(s, c, c', a.p);
    } else if a.Tick? || a.Crash? {
      PassiveSolo(s, v, c'.procs[a.p]);
      CounterSolo(s, c, c', a.p);
    } else if a.Throw? {
      if a.p !in c.procs { PassiveSolo(s, v, Idle); }
      UnwindSolo(s, v, Pc(c, a.p));
      CounterSolo(s, c, c', a.p);
    } else {
      HostSolo(s, c, a, i);
    }
  }

  lemma ResumeStarts(s: Settings, c: Config, p: string, run: string, now: int)
    ensures PcSolo(s, ViewOf(c.db, c.hist), StartResume(c, p, run, now))
  {
  }

  lemma SoloIsStep(s: Settings, c: Config, c': Config)
    requires SoloStep(s, c, c')
    ensures Step(s, c, c')
  {
    hide Enabled, Apply, SoloHost, Solo;
    var a, i :| Enabled(c, a, i) && SoloHost(c, a) && c' == Apply(s, c, a, i) && Solo(c');
  }

  lemma SoloIsExecution(s: Settings, trace: seq<Config>)
    requires SoloExecution(s, trace)
    ensures Execution(s, trace)
  {
    hide Step, SoloStep;
    forall n | 0 <= n < |trace| - 1
      ensures Step(s, trace[n], trace[n + 1])
    {
      SoloIsStep(s, trace[n], trace[n + 1]);
    }
  }

  lemma SoloStepInv(s: Settings, c: Config, c': Config)
    requires SoloInv(s, c) && AdmissionInv(s, c) && SoloStep(s, c, c')
    ensures SoloInv(s, c')
  {
    hide SoloInv, AdmissionInv, Enabled, Apply, SoloHost, Solo;
    var a, i :| Enabled(c, a, i) && SoloHost(c, a) && c' == Apply(s, c, a, i) && Solo(c');
    ApplySolo(s, c, a, i);
  }

  lemma SoloInitial(s: Settings)
    ensures SoloInv(s, INITIAL_CONFIG)
  {
  }

  lemma {:induction false} SoloReachable(s: Settings, trace: seq<Config>, n: nat)
    requires SoloExecution(s, trace) && n < |trace|
    ensures SoloInv(s, trace[n]) && AdmissionInv(s, trace[n])
  {
    hide SoloStep, SoloInv, AdmissionInv, Execution;
    SoloIsExecution(s, trace);
    AdmissionExecution(s, trace, n);
    if n == 0 {
      assert SoloInv(s, INITIAL_CONFIG) by { SoloInitial(s); }
    } else {
      SoloReachable(s, trace, n - 1);
      assert SoloStep(s, trace[n - 1], trace[n]);
      SoloStepInv(s, trace[n - 1], trace[n]);
    }
  }
}
