/** Environment (M): every handler invocation, including one rebuilt from the stored request, has
    arguments that satisfy the tool's schema and a granted capability, and all invocations for one
    mutation request id carry the same tool and arguments. */
module AdmissionSafety {
  import opened Basics
  import opened JsonValues
  import opened Tables
  import opened SchemaRules
  import opened Protocol
  import opened Growth

  /** A ledger row is the record of one call of one mutation tool. */
  predicate LedgerRowOk(s: Settings, q: string, row: EffectRow) {
    && row.request == RequestPayload(StoredCall(q, row.request))
    && row.tool == StoredCall(q, row.request).tool
    && row.requestDigest == Sha256(row.request)
    && row.tool in s.tools && s.tools[row.tool].mutation
    && (row.state == COMMITTED ==> row.result.Some?)
    && (row.result.Some? ==> row.resultDigest == Some(Sha256(row.result.value)))
  }

  predicate Records(effects: map<string, EffectRow>, call: Call) {
    call.request in effects && StoredCall(call.request, effects[call.request].request) == call
  }

  ghost predicate LedgerOk(s: Settings, db: Database) {
    forall q | q in db.effects :: LedgerRowOk(s, q, db.effects[q])
  }

  ghost predicate InvocationOk(s: Settings, db: Database, v: Invocation) {
    Admissible(s, v.call, v.granted) && (v.mutation ==> Records(db.effects, v.call))
  }

  ghost predicate InvocationsOk(s: Settings, db: Database, h: History) {
    forall i | 0 <= i < |h.invocations| :: InvocationOk(s, db, h.invocations[i])
  }

  ghost predicate PcAdmitted(s: Settings, db: Database, pc: PC) {
    && (pc.Admitting? || pc.Rearming? || pc.Invoking? ==> Admissible(s, pc.call, Granted(pc.caller)))
    && (pc.Rearming? || (pc.Invoking? && pc.mutation) ==> Records(db.effects, pc.call))
    && (pc.Admitting? || pc.Rearming? ==> s.tools[pc.call.tool].mutation)
    && (pc.Invoking? ==> pc.mutation == s.tools[pc.call.tool].mutation)
  }

  lemma PayloadInverse(call: Call)
    ensures StoredCall(call.request, RequestPayload(call)) == call
  {
  }

  lemma RecordsStable(a: Database, b: Database, call: Call)
    requires EffectsGrow(a.effects, b.effects) && Records(a.effects, call)
    ensures Records(b.effects, call)
  {
  }

  lemma PcAdmittedStable(s: Settings, a: Database, b: Database, pc: PC)
    requires EffectsGrow(a.effects, b.effects) && PcAdmitted(s, a, pc)
    ensures PcAdmitted(s, b, pc)
  {
    hide Admissible, Records, EffectsGrow;
    if pc.Rearming? || (pc.Invoking? && pc.mutation) {
      RecordsStable(a, b, pc.call);
    }
  }

  lemma InvocationsStable(s: Settings, a: Database, b: Database, h: History)
    requires EffectsGrow(a.effects, b.effects) && InvocationsOk(s, a, h)
    ensures InvocationsOk(s, b, h)
  {
    hide Admissible, Records, EffectsGrow;
    forall i | 0 <= i < |h.invocations|
      ensures InvocationOk(s, b, h.invocations[i])
    {
      assert InvocationOk(s, a, h.invocations[i]);
      if h.invocations[i].mutation {
        RecordsStable(a, b, h.invocations[i].call);
      }
    }
  }

  lemma SetRowOk(s: Settings, db: Database, q: string, row: EffectRow)
    requires LedgerOk(s, db) && LedgerRowOk(s, q, row)
    ensures LedgerOk(s, db.(effects := db.effects[q := row]))
  {
    hide LedgerRowOk;
  }

  lemma WriteLedger(s: Settings, pc: PC, db: Database, h: History, i: Input)
    requires pc.Rearming? || pc.Committing? || pc.MarkingUnknown?
    requires LedgerOk(s, db)
    ensures LedgerOk(s, ToolStep(s, pc, db, h, i).db)
  {
    hide StoredCall, RequestPayload, AddCompletion;
    var q := pc.call.request;
    if q in db.effects {
      assert LedgerRowOk(s, q, db.effects[q]);
      SetRowOk(s, db, q, ToolStep(s, pc, db, h, i).db.effects[q]);
    }
  }

  lemma ToolStepLedger(s: Settings, pc: PC, db: Database, h: History, i: Input)
    requires ToolPhase(pc) && LedgerOk(s, db) && PcAdmitted(s, db, pc)
    ensures LedgerOk(s, ToolStep(s, pc, db, h, i).db)
  {
    hide Satisfies, Supported, AfterLookup, AfterRecovery, AfterRaise, StoredCall, RequestPayload, LedgerOk;
    hide SetEffect, MarkUnknown, RecordMessage, AddCompletion;
    if pc.Rearming? || pc.Committing? || pc.MarkingUnknown? {
      WriteLedger(s, pc, db, h, i);
    } else if pc.Admitting? {
      PayloadInverse(pc.call);
      var payload := RequestPayload(pc.call);
      SetRowOk(s, db, pc.call.request, EffectRow(pc.call.tool, Sha256(payload), payload, EXECUTING, None, None));
    } else if pc.Returned? {
      ToolMessageFrame(s, pc, db, h, i);
      LedgerSame(s, db, h.(invocations := []), ToolStep(s, pc, db, h, i).db, h.(invocations := []));
    }
  }

  lemma LookupAdmitted(s: Settings, k: Caller, call: Call, db: Database)
    requires LedgerOk(s, db)
    ensures PcAdmitted(s, db, AfterLookup(s, k, call, db))
  {
    hide Satisfies, Supported;
    if call.request in db.effects {
      var row := db.effects[call.request];
      assert LedgerRowOk(s, call.request, row);
      PayloadInverse(call);
    }
  }

  lemma ToolStepAdmitted(s: Settings, pc: PC, db: Database, h: History, i: Input)
    requires ToolPhase(pc) && LedgerOk(s, db) && PcAdmitted(s, db, pc) && InvocationsOk(s, db, h)
    ensures var r := ToolStep(s, pc, db, h, i); PcAdmitted(s, r.db, r.pc) && InvocationsOk(s, r.db, r.hist)
  {
    hide Admissible, AfterLookup, RecordMessage, EffectsGrow, LedgerOk;
    var r := ToolStep(s, pc, db, h, i);
    assert EffectsGrow(db.effects, r.db.effects) by { ToolStepGrows(s, pc, db, h, i); }
    InvocationsStable(s, db, r.db, h);
    PcAdmittedStable(s, db, r.db, pc);
    if pc.Executing? {
      LookupAdmitted(s, pc.caller, pc.call, db);
    } else if pc.Admitting? {
      PayloadInverse(pc.call);
    }
  }

  ghost predicate AdmissionInv(s: Settings, c: Config) {
    && LedgerOk(s, c.db) && InvocationsOk(s, c.db, c.hist)
    && forall p | p in c.procs :: PcAdmitted(s, c.db, c.procs[p])
  }

  lemma NextAdmitted(s: Settings, p: string, pc: PC, db: Database, h: History, i: Input)
    requires LedgerOk(s, db) && PcAdmitted(s, db, pc) && InvocationsOk(s, db, h)
    ensures var r := Next(s, p, pc, db, h, i);
      LedgerOk(s, r.db) && PcAdmitted(s, r.db, r.pc) && InvocationsOk(s, r.db, r.hist)
  {
    hide LedgerOk, InvocationsOk, PcAdmitted, EventStep, DecisionStep, ClosingStep, ToolStep, TickStep;
    var r := Next(s, p, pc, db, h, i);
    if ToolPhase(pc) {
      ToolStepLedger(s, pc, db, h, i);
      ToolStepAdmitted(s, pc, db, h, i);
    } else {
      OutsideTools(s, p, pc, db, h, i);
      OutsideToolsPc(s, p, pc, db, h, i);
      NotYetAdmitted(s, r.db, r.pc);
      LedgerSame(s, db, h, r.db, r.hist);
    }
  }

  lemma NotYetAdmitted(s: Settings, db: Database, pc: PC)
    requires CallPhase(pc) ==> pc.Executing?
    ensures PcAdmitted(s, db, pc)
  {
    hide Admissible, Records;
  }

  lemma LedgerSame(s: Settings, a: Database, h: History, b: Database, h': History)
    requires b.effects == a.effects && h'.invocations == h.invocations
    requires LedgerOk(s, a) && InvocationsOk(s, a, h)
    ensures LedgerOk(s, b) && InvocationsOk(s, b, h')
  {
    hide Admissible, LedgerRowOk;
    forall i | 0 <= i < |h'.invocations|
      ensures InvocationOk(s, b, h'.invocations[i])
    {
      assert InvocationOk(s, a, h.invocations[i]);
    }
  }

  lemma EventStepOutside(p: string, pc: PC, db: Database, h: History, i: Input)
    requires EventPhase(pc)
    ensures !CallPhase(EventStep(p, pc, db, h, i).pc)
  {
    hide CreateRunWithInitialStep, Acknowledge, Requeue, Log, AddLease, Backoff;
  }

  lemma DecisionStepOutside(s: Settings, pc: PC, db: Database, h: History, i: Input)
    requires DecisionPhase(pc)
    ensures var next := DecisionStep(s, pc, db, h, i).pc; CallPhase(next) ==> next.Executing?
  {
    hide RecordDecision, RecordMessage, UpdateRun;
  }

  lemma ClosingStepOutside(pc: PC, db: Database, h: History, i: Input)
    requires ClosingPhase(pc)
    ensures !CallPhase(ClosingStep(pc, db, h, i).pc)
  {
    hide UpdateRun, AdvanceRunStep, BlockRun, ResumeRun, Log;
  }

  /** No other statement enters the part of `execute` that depends on admission. */
  lemma OutsideToolsPc(s: Settings, p: string, pc: PC, db: Database, h: History, i: Input)
    requires !ToolPhase(pc)
    ensures var next := Next(s, p, pc, db, h, i).pc; CallPhase(next) ==> next.Executing?
  {
    hide EventStep, DecisionStep, ClosingStep, Enqueue, Occurrences, SetNextAt, DisableSchedule;
    if EventPhase(pc) {
      EventStepOutside(p, pc, db, h, i);
    } else if DecisionPhase(pc) {
      DecisionStepOutside(s, pc, db, h, i);
    } else if ClosingPhase(pc) {
      ClosingStepOutside(pc, db, h, i);
    }
  }

  lemma ApplyAdmitted(s: Settings, c: Config, a: Action, i: Input)
    requires AdmissionInv(s, c) && Enabled(c, a, i)
    ensures AdmissionInv(s, Apply(s, c, a, i))
  {
    hide LedgerOk, InvocationsOk, PcAdmitted, Next, EffectsGrow, Enabled, Unwind, ApplyClaim, StartResume;
    var c' := Apply(s, c, a, i);
    assert EffectsGrow(c.db.effects, c'.db.effects) by { ApplyGrows(s, c, a, i); }
    if a.Work? {
      WorkKnown(c, a.p, i);
      NextAdmitted(s, a.p, Pc(c, a.p), c.db, c.hist, i);
    } else {
      HostLedger(s, c, a, i);
      InvocationsStable(s, c.db, c'.db, c.hist);
      InvocationsSame(s, c'.db, c.hist, c'.hist);
    }
    forall p | p in c'.procs
      ensures PcAdmitted(s, c'.db, c'.procs[p])
    {
      if a.Work? && p == a.p {
      } else if p in c.procs && c'.procs[p] == c.procs[p] {
        PcAdmittedStable(s, c.db, c'.db, c.procs[p]);
      } else {
        FreshCounter(s, c, a, i, p);
      }
    }
  }

  lemma InvocationsSame(s: Settings, db: Database, h: History, h': History)
    requires InvocationsOk(s, db, h) && h'.invocations == h.invocations
    ensures InvocationsOk(s, db, h')
  {
    hide InvocationOk;
  }

  lemma HostLedger(s: Settings, c: Config, a: Action, i: Input)
    requires !a.Work? && LedgerOk(s, c.db)
    ensures var c' := Apply(s, c, a, i); LedgerOk(s, c'.db) && c'.hist.invocations == c.hist.invocations
  {
    hide Enqueue, CreateRunWithInitialStep, StoredCall, Unwind, StartResume, Dispatch;
    if a.HostEnqueue? {
      var at := if a.availableAt.Some? then a.availableAt.value else i.now;
      EnqueueFrame(c.db, i.newEvent, a.work, a.priority, a.dedup, i.now, at);
    } else if a.HostSubmit? {
      CreateFrame(c.db, i.newRun, i.newEvent, a.task, a.capabilities, a.source, 0, i.now);
    }
  }

  /** A counter installed by anything but its own statement is outside the admitted region. */
  lemma FreshCounter(s: Settings, c: Config, a: Action, i: Input, p: string)
    requires !a.Work? && p in Apply(s, c, a, i).procs
    requires !(p in c.procs && Apply(s, c, a, i).procs[p] == c.procs[p])
    ensures PcAdmitted(s, Apply(s, c, a, i).db, Apply(s, c, a, i).procs[p])
  {
    hide Enqueue, CreateRunWithInitialStep, Reconcile, AddSchedule, Admissible, Records, Claim, AdmitTask;
  }

  lemma {:induction false} AdmissionExecution(s: Settings, trace: seq<Config>, n: nat)
    requires Execution(s, trace) && n < |trace|
    ensures AdmissionInv(s, trace[n])
  {
    hide Step, AdmissionInv;
    if n == 0 {
      assert AdmissionInv(s, INITIAL_CONFIG) by { AdmissionInitial(s); }
    } else {
      AdmissionExecution(s, trace, n - 1);
      assert Step(s, trace[n - 1], trace[n]);
      AdmissionStep(s, trace[n - 1], trace[n]);
    }
  }

  lemma AdmissionInitial(s: Settings)
    ensures AdmissionInv(s, INITIAL_CONFIG)
  {
  }

  lemma AdmissionStep(s: Settings, c: Config, c': Config)
    requires AdmissionInv(s, c) && Step(s, c, c')
    ensures AdmissionInv(s, c')
  {
    hide AdmissionInv, Apply, Enabled;
    var a, i :| Enabled(c, a, i) && c' == Apply(s, c, a, i);
    ApplyAdmitted(s, c, a, i);
  }

  /** Every handler invocation in any history satisfies the tool's schema with a granted
      capability, recovered requests included; two invocations of mutations under one request id
      are the same call. */
  lemma InvocationsAdmitted(s: Settings, trace: seq<Config>, n: nat, j: nat, k: nat)
    requires Execution(s, trace) && n < |trace|
    requires j < |trace[n].hist.invocations| && k < |trace[n].hist.invocations|
    ensures var v := trace[n].hist.invocations[j]; var w := trace[n].hist.invocations[k];
      && v.call.tool in s.tools && s.tools[v.call.tool].capability in v.granted
      && Supported(s.rx, s.tools[v.call.tool].schema)
      && Satisfies(s.rx, s.tools[v.call.tool].schema, v.call.arguments)
      && (v.mutation && w.mutation && v.call.request == w.call.request ==> v.call == w.call)
  {
    hide Execution, Satisfies, Supported, StoredCall;
    AdmissionExecution(s, trace, n);
    assert InvocationOk(s, trace[n].db, trace[n].hist.invocations[j]);
    assert InvocationOk(s, trace[n].db, trace[n].hist.invocations[k]);
  }
}
