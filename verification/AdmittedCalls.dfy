/** Environment (S) with distinct request ids: a decided call that has a ledger row is admissible, for the
    run that decided it and for ever. So a replay or a recovery is never refused on admission. */
module AdmittedCalls {
  import opened Basics
  import opened JsonValues
  import opened Tables
  import opened Protocol
  import opened Growth
  import opened QueueSafety
  import opened AdmissionSafety
  import opened SoloInvariant
  import opened TranscriptRefinement

  ghost predicate CallAdmitted(s: Settings, db: Database, id: StepId)
    requires id in db.decisions && db.decisions[id].ToolCall?
  {
    id.run in db.runs && Admissible(s, db.decisions[id].call, db.runs[id.run].capabilities)
  }

  ghost predicate CallsAdmitted(s: Settings, db: Database) {
    forall id | id in db.decisions && db.decisions[id].ToolCall? && db.decisions[id].call.request in db.effects ::
      CallAdmitted(s, db, id)
  }

  // ---- who adds a decision, who adds a row ----------------------------------------------

  lemma NewDecision(s: Settings, p: string, pc: PC, db: Database, h: History, i: Input, id: StepId)
    requires id !in db.decisions && id in Next(s, p, pc, db, h, i).db.decisions
    ensures pc.RecordingDecision? && Next(s, p, pc, db, h, i).db.decisions[id] == pc.decision
  {
    hide EventStep, DecisionStep, ClosingStep, ToolStep, TickStep;
    if EventPhase(pc) {
      EventStepFrame(p, pc, db, h, i);
    } else if DecisionPhase(pc) {
      DecisionAdds(s, pc, db, h, i, id);
    } else if ClosingPhase(pc) {
      ClosingStepFrame(pc, db, h, i);
    } else if ToolPhase(pc) {
      ToolStepFrame(s, pc, db, h, i);
    } else if TickPhase(pc) {
      TickStepFrame(pc, db, h, i);
    }
  }

  lemma DecisionAdds(s: Settings, pc: PC, db: Database, h: History, i: Input, id: StepId)
    requires DecisionPhase(pc) && id !in db.decisions && id in DecisionStep(s, pc, db, h, i).db.decisions
    ensures pc.RecordingDecision? && DecisionStep(s, pc, db, h, i).db.decisions[id] == pc.decision
  {
    hide AfterLoad, Reread, RecordMessage;
    if pc.RecordingCall? || pc.RecordingFinal? {
      DecisionMessageFrame(s, pc, db, h, i);
    }
  }

  lemma NewRow(s: Settings, p: string, pc: PC, db: Database, h: History, i: Input, q: string)
    requires q !in db.effects && q in Next(s, p, pc, db, h, i).db.effects
    ensures pc.Admitting? && pc.call.request == q
  {
    hide EventStep, DecisionStep, ClosingStep, ToolStep, TickStep;
    if ToolPhase(pc) {
      ToolAdds(s, pc, db, h, i, q);
    } else {
      OutsideTools(s, p, pc, db, h, i);
    }
  }

  lemma ToolAdds(s: Settings, pc: PC, db: Database, h: History, i: Input, q: string)
    requires ToolPhase(pc) && q !in db.effects && q in ToolStep(s, pc, db, h, i).db.effects
    ensures pc.Admitting? && pc.call.request == q
  {
    hide AfterLookup, AfterRecovery, AfterRaise, RequestPayload, AddCompletion, Granted, RunOf;
    if pc.Returned? {
      ToolMessageFrame(s, pc, db, h, i);
    }
  }

  lemma HostKeys(s: Settings, c: Config, a: Action, i: Input)
    requires !a.Work?
    ensures var b := Apply(s, c, a, i).db; b.decisions == c.db.decisions && b.effects.Keys == c.db.effects.Keys
  {
    hide Enqueue, CreateRunWithInitialStep, Unwind, StartResume, Dispatch, IsHexDigest, LowerHex, Next;
    if a.HostEnqueue? {
      var at := if a.availableAt.Some? then a.availableAt.value else i.now;
      EnqueueFrame(c.db, i.newEvent, a.work, a.priority, a.dedup, i.now, at);
    } else if a.HostSubmit? {
      CreateFrame(c.db, i.newRun, i.newEvent, a.task, a.capabilities, a.source, 0, i.now);
    }
  }

  // ---- the invariant --------------------------------------------------------------------

  lemma StillAdmitted(s: Settings, a: Database, b: Database, id: StepId)
    requires Grows(a, b) && id in a.decisions && a.decisions[id].ToolCall? && CallAdmitted(s, a, id)
    ensures id in b.decisions && b.decisions[id] == a.decisions[id] && CallAdmitted(s, b, id)
  {
    hide Admissible, EventsGrow, MessagesGrow, EffectsGrow, SchedulesGrow;
  }

  /** The row of a call is written by the step that decided it, with the run's capabilities. */
  lemma AdmittingCall(s: Settings, c: Config, p: string, id: StepId)
    requires SoloInv(s, c) && AdmissionInv(s, c) && TaleInv(s, c) && p in c.procs && c.procs[p].Admitting?
    requires c.procs[p].call.request !in c.db.effects
    requires id in c.db.decisions && c.db.decisions[id].ToolCall? && c.db.decisions[id].call.request == c.procs[p].call.request
    ensures CallAdmitted(s, c.db, id)
  {
    hide SoloDb, EffectPromise, StepPromise, Completions, LedgerOk, InvocationsOk, Stories, PcTale, Owned, Admissible, Solo;
    var pc := c.procs[p];
    var v := ViewOf(c.db, c.hist);
    assert PcSolo(s, v, pc) && PcAdmitted(s, c.db, pc);
    if pc.caller.FromStep? {
      var f := pc.caller.frame;
      assert Decided(v, f, ToolCall(pc.call));
      assert id == StepId(f.run, f.step);
    }
  }

  lemma WorkAdmitted(s: Settings, c: Config, p: string, i: Input)
    requires SoloInv(s, c) && AdmissionInv(s, c) && TaleInv(s, c) && CallsAdmitted(s, c.db)
    requires Enabled(c, Work(p), i)
    ensures CallsAdmitted(s, Apply(s, c, Work(p), i).db)
  {
    hide SoloInv, AdmissionInv, Stories, PcTale, CallAdmitted, Next, Grows, Enabled, Distinct;
    var b := Apply(s, c, Work(p), i).db;
    WorkKnown(c, p, i);
    ApplyGrows(s, c, Work(p), i);
    var pc := c.procs[p];
    forall id | id in b.decisions && b.decisions[id].ToolCall? && b.decisions[id].call.request in b.effects
      ensures CallAdmitted(s, b, id)
    {
      if id !in c.db.decisions {
        NewDecision(s, p, pc, c.db, c.hist, i, id);
        NotYetWritten(s, c, p, i);
      } else {
        DecisionKept(c.db, b, id);
        var q := c.db.decisions[id].call.request;
        if q !in c.db.effects {
          NewRow(s, p, pc, c.db, c.hist, i, q);
          AdmittingCall(s, c, p, id);
        }
        StillAdmitted(s, c.db, b, id);
      }
    }
  }

  lemma DecisionKept(a: Database, b: Database, id: StepId)
    requires Grows(a, b) && id in a.decisions
    ensures id in b.decisions && b.decisions[id] == a.decisions[id]
  {
  }

  /** A decision about to be stored has a request id that the ledger does not know. */
  lemma NotYetWritten(s: Settings, c: Config, p: string, i: Input)
    requires TaleInv(s, c) && p in c.procs && c.procs[p].RecordingDecision? && c.procs[p].decision.ToolCall?
    ensures c.procs[p].decision.call.request !in Next(s, p, c.procs[p], c.db, c.hist, i).db.effects
  {
    hide Stories, Distinct, EventStep, DecisionStep, ClosingStep, ToolStep, TickStep, Records;
    var pc := c.procs[p];
    OutsideTools(s, p, pc, c.db, c.hist, i);
    assert PcTale(c.db, pc);
    var q := pc.decision.call.request;
    if q in c.db.effects { RowsAsked(ViewOf(c.db, c.hist), q); }
  }

  lemma RowsAsked(v: View, q: string)
    requires Identities(v) && q in v.effects
    ensures Asked(v.decisions, q)
  {
    hide Distinct, Asked;
  }

  lemma ApplyAdmittedCalls(s: Settings, c: Config, a: Action, i: Input)
    requires SoloInv(s, c) && AdmissionInv(s, c) && TaleInv(s, c) && CallsAdmitted(s, c.db) && Enabled(c, a, i)
    ensures CallsAdmitted(s, Apply(s, c, a, i).db)
  {
    hide SoloInv, AdmissionInv, TaleInv, CallAdmitted, Apply, Grows, Enabled;
    if a.Work? {
      WorkAdmitted(s, c, a.p, i);
    } else {
      var b := Apply(s, c, a, i).db;
      HostKeys(s, c, a, i);
      ApplyGrows(s, c, a, i);
      forall id | id in b.decisions && b.decisions[id].ToolCall? && b.decisions[id].call.request in b.effects
        ensures CallAdmitted(s, b, id)
      {
        StillAdmitted(s, c.db, b, id);
      }
    }
  }

  lemma AdmittedCallsStep(s: Settings, c: Config, c': Config)
    requires SoloInv(s, c) && AdmissionInv(s, c) && TaleInv(s, c) && CallsAdmitted(s, c.db) && DistinctStep(s, c, c')
    ensures CallsAdmitted(s, c'.db)
  {
    hide SoloInv, AdmissionInv, TaleInv, CallsAdmitted, Enabled, Apply, SoloHost, Solo, NewAnswers;
    var a, i :| Enabled(c, a, i) && SoloHost(c, a) && NewAnswers(c, a, i) && c' == Apply(s, c, a, i) && Solo(c');
    ApplyAdmittedCalls(s, c, a, i);
  }

  lemma {:induction false} AdmittedExecution(s: Settings, trace: seq<Config>, n: nat)
    requires DistinctExecution(s, trace) && n < |trace|
    ensures CallsAdmitted(s, trace[n].db)
  {
    hide DistinctStep, SoloInv, AdmissionInv, TaleInv, CallAdmitted, SoloExecution;
    if n > 0 {
      AdmittedExecution(s, trace, n - 1);
      DistinctIsSolo(s, trace);
      SoloReachable(s, trace, n - 1);
      TaleExecution(s, trace, n - 1);
      assert DistinctStep(s, trace[n - 1], trace[n - 1 + 1]);
      AdmittedCallsStep(s, trace[n - 1], trace[n]);
    }
  }

  /** Every decided call with a ledger row is admissible for its run. */
  lemma AlwaysAdmissible(s: Settings, c: Config, run: string, step: nat)
    requires DistinctTo(s, c) && StepId(run, step) in c.db.decisions && c.db.decisions[StepId(run, step)].ToolCall?
    requires c.db.decisions[StepId(run, step)].call.request in c.db.effects
    ensures run in c.db.runs && Admissible(s, c.db.decisions[StepId(run, step)].call, c.db.runs[run].capabilities)
  {
    hide DistinctExecution, Admissible;
    var trace :| EndsIn(s, trace, c);
    NonEmptyTrace(s, trace);
    AdmittedExecution(s, trace, |trace| - 1);
    assert CallAdmitted(s, c.db, StepId(run, step));
  }

  lemma NonEmptyTrace(s: Settings, trace: seq<Config>)
    requires DistinctExecution(s, trace)
    ensures trace != []
  {
    hide DistinctStep;
  }
}
