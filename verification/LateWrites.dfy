/** Environment (M): the ledger's later UPDATEs and `update_run` carry no state guard. Exactly which
    statements of many workers change a COMMITTED ledger row or the row of a stopped run, and exactly
    when a COMMITTED row is final. */
module LateWrites {
  import opened Basics
  import opened JsonValues
  import opened Tables
  import opened Protocol
  import opened Growth
  import opened AdmissionSafety
  import opened SoloInvariant
  import opened SoloTheorems
  import opened Paths

  // ---- when a COMMITTED row changes -----------------------------------------------------

  /** The statements that write the ledger row of `q` to something else than `row`, which is COMMITTED. */
  predicate Overwrites(row: EffectRow, pc: PC, q: string) {
    || ((pc.MarkingUnknown? || pc.Rearming?) && pc.call.request == q)
    || (pc.Committing? && pc.call.request == q && row.result != Some(pc.output))
  }

  function Written(row: EffectRow, state: EffectState, result: Option<Json>): EffectRow {
    row.(state := state, result := result, resultDigest := if result.Some? then Some(Sha256(result.value)) else None)
  }

  /** An admission leaves the rows that are there; the ledger's UPDATEs replace one. */
  lemma AdmitKeeps(db: Database, call: Call, q: string)
    requires q in db.effects && AdmitEffect(db, call).Some?
    ensures var b := AdmitEffect(db, call).value; q in b.effects && b.effects[q] == db.effects[q]
  {
    hide RequestPayload;
  }

  lemma WriteOne(db: Database, x: string, state: EffectState, result: Option<Json>, q: string)
    requires q in db.effects
    ensures var b := SetEffect(db, x, state, result);
      q in b.effects && b.effects[q] == if x == q then Written(db.effects[q], state, result) else db.effects[q]
  {
  }

  lemma MarkOne(db: Database, x: string, q: string)
    requires q in db.effects
    ensures var b := MarkUnknown(db, x);
      q in b.effects && b.effects[q] == if x == q then db.effects[q].(state := ATTEMPTED_UNKNOWN) else db.effects[q]
  {
  }

  lemma WrittenRow(s: Settings, q: string, row: EffectRow, output: Json)
    requires row.state == COMMITTED && LedgerRowOk(s, q, row)
    ensures Written(row, EXECUTING, None) != row && row.(state := ATTEMPTED_UNKNOWN) != row
    ensures Written(row, COMMITTED, Some(output)) == row <==> row.result == Some(output)
  {
    hide RequestPayload, StoredCall;
  }

  lemma LedgerWrites(s: Settings, pc: PC, db: Database, h: History, i: Input, q: string)
    requires pc.Admitting? || pc.Rearming? || pc.Committing? || pc.MarkingUnknown?
    requires StateOf(db.effects, q) == Some(COMMITTED) && LedgerRowOk(s, q, db.effects[q])
    ensures var b := ToolStep(s, pc, db, h, i).db;
      q in b.effects && (b.effects[q] != db.effects[q] <==> Overwrites(db.effects[q], pc, q))
  {
    hide AddCompletion, LedgerRowOk, AdmitEffect, SetEffect, MarkUnknown, Written;
    var output := if pc.Committing? then pc.output else Null;
    WrittenRow(s, q, db.effects[q], output);
    WriteOne(db, pc.call.request, EXECUTING, None, q);
    WriteOne(db, pc.call.request, COMMITTED, Some(output), q);
    MarkOne(db, pc.call.request, q);
    if AdmitEffect(db, pc.call).Some? { AdmitKeeps(db, pc.call, q); }
  }

  lemma LedgerReads(s: Settings, pc: PC, db: Database, h: History, i: Input)
    requires pc.Executing? || pc.Invoking? || pc.Raised? || pc.Recovering?
    ensures ToolStep(s, pc, db, h, i).db == db
  {
    hide AfterLookup, AfterRecovery, AfterRaise, AddCompletion, Granted, RunOf;
  }

  lemma ToolStepWrites(s: Settings, pc: PC, db: Database, h: History, i: Input, q: string)
    requires ToolPhase(pc) && StateOf(db.effects, q) == Some(COMMITTED) && LedgerRowOk(s, q, db.effects[q])
    ensures var b := ToolStep(s, pc, db, h, i).db;
      q in b.effects && (b.effects[q] != db.effects[q] <==> Overwrites(db.effects[q], pc, q))
  {
    hide ToolStep, LedgerRowOk;
    if pc.Returned? {
      ToolMessageFrame(s, pc, db, h, i);
    } else if pc.Executing? || pc.Invoking? || pc.Raised? || pc.Recovering? {
      LedgerReads(s, pc, db, h, i);
    } else {
      LedgerWrites(s, pc, db, h, i, q);
    }
  }

  /** With any number of workers a COMMITTED row changes exactly in a late write: of a handler's failure,
      of a rearming, or of a handler's output other than the stored result. */
  lemma OnlyLateWrites(s: Settings, c: Config, a: Action, i: Input, q: string)
    requires Enabled(c, a, i) && LedgerOk(s, c.db) && StateOf(c.db.effects, q) == Some(COMMITTED)
    ensures var c' := Apply(s, c, a, i);
      && q in c'.db.effects
      && (c'.db.effects[q] != c.db.effects[q] <==> a.Work? && Overwrites(c.db.effects[q], Pc(c, a.p), q))
  {
    hide ToolStep, EventStep, DecisionStep, ClosingStep, TickStep, Apply, Enabled, RowMoves, LedgerRowOk;
    if a.Work? {
      var pc := Pc(c, a.p);
      assert Apply(s, c, a, i).db == Next(s, a.p, pc, c.db, c.hist, i).db by { WorkDb(s, c, a.p, i); }
      if ToolPhase(pc) {
        ToolStepWrites(s, pc, c.db, c.hist, i, q);
      } else {
        OutsideTools(s, a.p, pc, c.db, c.hist, i);
      }
    } else {
      HostMoves(s, c, a, i, q);
      CommittedStays(c.db.effects, Apply(s, c, a, i).db.effects, q);
    }
  }

  lemma WorkDb(s: Settings, c: Config, p: string, i: Input)
    ensures Apply(s, c, Work(p), i).db == Next(s, p, Pc(c, p), c.db, c.hist, i).db
    ensures Pc(Apply(s, c, Work(p), i), p) == Next(s, p, Pc(c, p), c.db, c.hist, i).pc
    ensures forall q | q != p :: Pc(Apply(s, c, Work(p), i), q) == Pc(c, q)
  {
    hide Next;
  }

  lemma CommittedStays(a: map<string, EffectRow>, b: map<string, EffectRow>, q: string)
    requires RowMoves(a, b, q) && StateOf(a, q) == Some(COMMITTED)
    ensures q in b && b[q] == a[q]
  {
  }

  /** A process that can still overwrite the row: such a write is next, or a handler is running. */
  predicate Threatens(row: EffectRow, pc: PC, q: string) {
    Overwrites(row, pc, q) || (pc.Invoking? && pc.mutation && pc.call.request == q)
  }

  ghost predicate Threatened(c: Config, q: string)
    requires q in c.db.effects
  {
    exists p :: Threatens(c.db.effects[q], Pc(c, p), q)
  }

  lemma ToolStepCalm(s: Settings, pc: PC, db: Database, h: History, i: Input, q: string)
    requires ToolPhase(pc) && StateOf(db.effects, q) == Some(COMMITTED) && !Threatens(db.effects[q], pc, q)
    ensures !Threatens(db.effects[q], ToolStep(s, pc, db, h, i).pc, q)
  {
    hide Admissible, RequestPayload, RecordMessage, AddCompletion, Granted, RunOf, StoredCall, SetEffect, MarkUnknown;
  }

  lemma WorkCalm(s: Settings, c: Config, p: string, i: Input, q: string)
    requires StateOf(c.db.effects, q) == Some(COMMITTED) && !Threatens(c.db.effects[q], Pc(c, p), q)
    ensures !Threatens(c.db.effects[q], Next(s, p, Pc(c, p), c.db, c.hist, i).pc, q)
  {
    hide ToolStep, EventStep, DecisionStep, ClosingStep, TickStep;
    var pc := Pc(c, p);
    if ToolPhase(pc) {
      ToolStepCalm(s, pc, c.db, c.hist, i, q);
    } else {
      OutsideToolsPc(s, p, pc, c.db, c.hist, i);
    }
  }

  /** Other actions start no process inside `execute`. */
  lemma HostCounters(s: Settings, c: Config, a: Action, i: Input, p: string)
    requires !a.Work?
    ensures var next := Pc(Apply(s, c, a, i), p); next == Pc(c, p) || !CallPhase(next) || next.Raised?
  {
    hide Enqueue, CreateRunWithInitialStep, Reconcile, AddSchedule, Claim, AdmitTask, Next;
  }

  lemma StaysCalm(s: Settings, c: Config, a: Action, i: Input, q: string)
    requires Enabled(c, a, i) && LedgerOk(s, c.db) && StateOf(c.db.effects, q) == Some(COMMITTED) && !Threatened(c, q)
    ensures var c' := Apply(s, c, a, i);
      q in c'.db.effects && c'.db.effects[q] == c.db.effects[q] && !Threatened(c', q)
  {
    hide Apply, Enabled, Overwrites, LedgerOk, Next;
    var c' := Apply(s, c, a, i);
    OnlyLateWrites(s, c, a, i, q);
    if a.Work? { assert !Threatens(c.db.effects[q], Pc(c, a.p), q); }
    forall p
      ensures !Threatens(c.db.effects[q], Pc(c', p), q)
    {
      assert !Threatens(c.db.effects[q], Pc(c, p), q);
      if a.Work? {
        WorkDb(s, c, a.p, i);
        WorkCalm(s, c, a.p, i, q);
      } else {
        HostCounters(s, c, a, i, p);
        OutsideCalm(c.db.effects[q], Pc(c', p), q);
      }
    }
  }

  lemma OutsideCalm(row: EffectRow, pc: PC, q: string)
    ensures !CallPhase(pc) || pc.Raised? ==> !Threatens(row, pc, q)
  {
  }

  /** If nobody can overwrite a COMMITTED row at some point of an execution, it never changes again. */
  lemma {:induction false} FinalOnceCalm(s: Settings, trace: seq<Config>, m: nat, n: nat, q: string)
    requires Execution(s, trace) && m <= n < |trace|
    requires StateOf(trace[m].db.effects, q) == Some(COMMITTED) && !Threatened(trace[m], q)
    ensures q in trace[n].db.effects && trace[n].db.effects[q] == trace[m].db.effects[q] && !Threatened(trace[n], q)
    decreases n - m
  {
    hide Step, Threatened, LedgerOk, InvocationsOk, PcAdmitted, Apply, Enabled;
    if m < n {
      FinalOnceCalm(s, trace, m, n - 1, q);
      AdmissionExecution(s, trace, n - 1);
      assert Step(s, trace[n - 1], trace[n - 1 + 1]);
      var a, i := Taken(s, trace[n - 1], trace[n]);
      StaysCalm(s, trace[n - 1], a, i, q);
    }
  }

  lemma Taken(s: Settings, c: Config, c': Config) returns (a: Action, i: Input)
    requires Step(s, c, c')
    ensures Enabled(c, a, i) && c' == Apply(s, c, a, i)
  {
    hide Enabled, Apply;
    a, i :| Enabled(c, a, i) && c' == Apply(s, c, a, i);
  }

  function SomeInput(outcome: Outcome): Input {
    Input(0, "", "", None, NoAnswer, outcome, "")
  }

  /** A process at a late write changes the row in its next statement. */
  lemma OverwriteHappens(s: Settings, c: Config, p: string, q: string) returns (c': Config)
    requires LedgerOk(s, c.db) && StateOf(c.db.effects, q) == Some(COMMITTED) && Overwrites(c.db.effects[q], Pc(c, p), q)
    ensures Step(s, c, c') && q in c'.db.effects && c'.db.effects[q] != c.db.effects[q]
  {
    hide Apply, LedgerOk;
    var i := SomeInput(Failure(false));
    c' := Apply(s, c, Work(p), i);
    assert Enabled(c, Work(p), i);
    OnlyLateWrites(s, c, Work(p), i, q);
  }

  /** A running handler that fails leaves its process at one. */
  lemma HandlerFails(s: Settings, c: Config, p: string, q: string) returns (c': Config)
    requires q in c.db.effects
    requires Pc(c, p).Invoking? && Pc(c, p).mutation && Pc(c, p).call.request == q
    ensures Step(s, c, c') && c'.db == c.db && Overwrites(c.db.effects[q], Pc(c', p), q)
  {
    hide EventStep, DecisionStep, ClosingStep, TickStep, Granted, RunOf;
    var i := SomeInput(Failure(false));
    c' := Apply(s, c, Work(p), i);
    assert Enabled(c, Work(p), i);
  }

  lemma OneStepReaches(s: Settings, c: Config, c': Config)
    requires Step(s, c, c')
    ensures Reaches(s, c, c')
  {
    hide Step;
    assert Steps(s, [c, c']);
  }

  lemma ThreatHappens(s: Settings, c: Config, q: string) returns (c': Config)
    requires LedgerOk(s, c.db) && StateOf(c.db.effects, q) == Some(COMMITTED) && Threatened(c, q)
    ensures Reaches(s, c, c') && q in c'.db.effects && c'.db.effects[q] != c.db.effects[q]
  {
    hide Step, Reaches, LedgerOk, Overwrites;
    var p :| Threatens(c.db.effects[q], Pc(c, p), q);
    if Overwrites(c.db.effects[q], Pc(c, p), q) {
      c' := OverwriteHappens(s, c, p, q);
      OneStepReaches(s, c, c');
    } else {
      var c1 := HandlerFails(s, c, p, q);
      assert LedgerOk(s, c1.db) by { SameLedgerOk(s, c.db, c1.db); }
      c' := OverwriteHappens(s, c1, p, q);
      OneStepReaches(s, c1, c');
      ReachesOn(s, c, c1, c');
    }
  }

  lemma SameLedgerOk(s: Settings, a: Database, b: Database)
    requires LedgerOk(s, a) && b == a
    ensures LedgerOk(s, b)
  {
  }

  ghost predicate FinalRow(s: Settings, c: Config, q: string)
    requires q in c.db.effects
  {
    forall c' | Reaches(s, c, c') :: q in c'.db.effects && c'.db.effects[q] == c.db.effects[q]
  }

  /** (M) Exactly when a COMMITTED row is final: at a reachable point it never changes again if and only if
      no process is about to overwrite it or inside its handler. */
  lemma CommittedFinalExactly(s: Settings, c: Config, q: string)
    requires Reachable(s, c) && StateOf(c.db.effects, q) == Some(COMMITTED)
    ensures FinalRow(s, c, q) <==> !Threatened(c, q)
  {
    hide Execution, Reaches, Threatened, LedgerOk, InvocationsOk, PcAdmitted;
    var before :| ExecutionTo(s, before, c);
    assert before != [] by { NotEmpty(s, before); }
    AdmissionExecution(s, before, |before| - 1);
    if Threatened(c, q) {
      var c' := ThreatHappens(s, c, q);
    } else {
      forall c' | Reaches(s, c, c')
        ensures q in c'.db.effects && c'.db.effects[q] == c.db.effects[q]
      {
        ReachesExecution(s, before, c');
        var trace :| Execution(s, trace) && before <= trace && trace[|trace| - 1] == c';
        FinalOnceCalm(s, trace, |before| - 1, |trace| - 1, q);
      }
    }
  }

  lemma NotEmpty(s: Settings, trace: seq<Config>)
    requires Execution(s, trace)
    ensures trace != []
  {
    hide Step;
  }

  /** Inside the ledger's bracket around the handler of `q`. */
  predicate Handling(pc: PC, q: string) {
    (pc.Rearming? || (pc.Invoking? && pc.mutation) || pc.Committing? || pc.MarkingUnknown?) && pc.call.request == q
  }

  /** What a host can check before it reconciles: when no process is in the ledger's bracket around the
      request, the result it confirms is final for any number of workers. */
  lemma SafeReconciliation(s: Settings, c: Config, q: string, evidence: string, result: Json, i: Input)
    requires Reachable(s, c) && (forall p :: !Handling(Pc(c, p), q))
    requires Tables.Reconcile(c.db, q, true, evidence, Some(result)).Some?
    ensures var c' := Apply(s, c, HostReconcile(q, true, evidence, Some(result)), i);
      && Reachable(s, c') && StateOf(c'.db.effects, q) == Some(COMMITTED)
      && c'.db.effects[q].result == Some(result) && FinalRow(s, c', q)
  {
    hide Reachable, FinalRow, LowerHex, IsHexDigest, Next;
    var a := HostReconcile(q, true, evidence, Some(result));
    var c' := Apply(s, c, a, i);
    assert Enabled(c, a, i);
    ReachableStep(s, c, c');
    assert !Threatened(c', q) by {
      forall p
        ensures !Threatens(c'.db.effects[q], Pc(c', p), q)
      {
        assert Pc(c', p) == Pc(c, p) && !Handling(Pc(c, p), q);
      }
    }
    CommittedFinalExactly(s, c', q);
  }

  // ---- when a stopped run changes -------------------------------------------------------

  predicate Stopped(row: RunRow) {
    row.status == COMPLETED || row.status == FAILED
  }

  /** The statements that write a stopped run's row to something else: a completion always, a failure
      unless it is there already, the note of an error unless the note is the same. */
  predicate Rewrites(row: RunRow, pc: PC, r: string, text: string) {
    || (pc.Completing? && pc.frame.run == r)
    || (pc.FailingTool? && pc.frame.run == r && (row.status != FAILED || row.lastError != Some(text)))
    || (pc.FailingMaxSteps? && pc.run == r && (row.status != FAILED || row.lastError != Some("max_steps exceeded")))
    || (pc.NotingError? && pc.frame.run == r && row.lastError != Some(text))
  }

  /** The unguarded UPDATE replaces one row. */
  function Updated(row: RunRow, status: Option<RunStatus>, finalText: Option<string>, lastError: Option<string>,
                   clearLastError: bool, incrementStep: bool): RunRow
  {
    row.(status := if status.Some? then status.value else row.status,
         finalText := if finalText.Some? then finalText else row.finalText,
         lastError := if clearLastError then None else if lastError.Some? then lastError else row.lastError,
         stepCount := if incrementStep then row.stepCount + 1 else row.stepCount)
  }

  lemma UpdateOne(db: Database, x: string, status: Option<RunStatus>, finalText: Option<string>, lastError: Option<string>,
                  clearLastError: bool, incrementStep: bool, r: string)
    requires r in db.runs
    ensures var b := UpdateRun(db, x, status, finalText, lastError, clearLastError, incrementStep);
      && r in b.runs
      && b.runs[r] == if x == r then Updated(db.runs[r], status, finalText, lastError, clearLastError, incrementStep)
                      else db.runs[r]
  {
  }

  lemma FailedRow(row: RunRow, text: string)
    ensures Updated(row, Some(FAILED), None, Some(text), false, false) == row <==>
              row.status == FAILED && row.lastError == Some(text)
    ensures Updated(row, None, None, Some(text), false, false) == row <==> row.lastError == Some(text)
    ensures Updated(row, Some(COMPLETED), Some(text), None, true, true) != row
  {
  }

  /** The unguarded UPDATEs, on the row of a stopped run. */
  lemma UpdatedRows(db: Database, x: string, text: string, r: string)
    requires r in db.runs && Stopped(db.runs[r])
    ensures var b := CompleteRun(db, x, text); r in b.runs && (b.runs[r] != db.runs[r] <==> x == r)
    ensures var b := FailRun(db, x, text);
      r in b.runs && (b.runs[r] != db.runs[r] <==> x == r && (db.runs[r].status != FAILED || db.runs[r].lastError != Some(text)))
    ensures var b := NoteError(db, x, text);
      r in b.runs && (b.runs[r] != db.runs[r] <==> x == r && db.runs[r].lastError != Some(text))
  {
    hide UpdateRun, Updated, Stopped;
    FailedRow(db.runs[r], text);
    UpdateOne(db, x, Some(COMPLETED), Some(text), None, true, true, r);
    UpdateOne(db, x, Some(FAILED), None, Some(text), false, false, r);
    UpdateOne(db, x, None, None, Some(text), false, false, r);
  }

  lemma UpdateRewrites(pc: PC, db: Database, h: History, i: Input, r: string)
    requires (pc.Completing? || pc.FailingTool? || pc.NotingError?) && r in db.runs && Stopped(db.runs[r])
    ensures var b := ClosingStep(pc, db, h, i).db;
      r in b.runs && (b.runs[r] != db.runs[r] <==> Rewrites(db.runs[r], pc, r, i.text))
  {
    hide UpdateRun, Stopped;
    UpdatedRows(db, pc.frame.run, if pc.Completing? then pc.text else i.text, r);
  }

  /** The guarded ones do not apply to a stopped run. */
  lemma GuardedUpdates(pc: PC, db: Database, h: History, i: Input, r: string)
    requires (pc.Advancing? || pc.Blocking? || pc.BlockJournaling? || pc.Resuming?) && r in db.runs && Stopped(db.runs[r])
    ensures var b := ClosingStep(pc, db, h, i).db; r in b.runs && b.runs[r] == db.runs[r]
  {
    hide AdvanceRunStep, ResumeRun;
    if pc.Advancing? {
      AdvanceFrame(db, pc.frame.run, pc.frame.step, i.newEvent, pc.frame.visit.priority, pc.frame.visit.now);
    } else if pc.Resuming? {
      ResumeFrame(db, pc.run, i.newEvent, 0, pc.now);
    }
  }

  lemma ClosingStepRewrites(pc: PC, db: Database, h: History, i: Input, r: string)
    requires ClosingPhase(pc) && r in db.runs && Stopped(db.runs[r])
    ensures var b := ClosingStep(pc, db, h, i).db;
      r in b.runs && (b.runs[r] != db.runs[r] <==> Rewrites(db.runs[r], pc, r, i.text))
  {
    hide ClosingStep, Stopped;
    if pc.Completing? || pc.FailingTool? || pc.NotingError? {
      UpdateRewrites(pc, db, h, i, r);
    } else {
      GuardedUpdates(pc, db, h, i, r);
    }
  }

  lemma DecisionStepRewrites(s: Settings, pc: PC, db: Database, h: History, i: Input, r: string)
    requires DecisionPhase(pc) && r in db.runs && Stopped(db.runs[r])
    ensures var b := DecisionStep(s, pc, db, h, i).db;
      r in b.runs && (b.runs[r] != db.runs[r] <==> Rewrites(db.runs[r], pc, r, i.text))
  {
    hide DecisionStep, Stopped, UpdateRun;
    if pc.FailingMaxSteps? {
      UpdatedRows(db, pc.run, "max_steps exceeded", r);
      assert DecisionStep(s, pc, db, h, i).db == FailRun(db, pc.run, "max_steps exceeded") by { MaxStepsUpdate(s, pc, db, h, i); }
    } else {
      DecisionStepFrame(s, pc, db, h, i);
    }
  }

  lemma MaxStepsUpdate(s: Settings, pc: PC, db: Database, h: History, i: Input)
    requires pc.FailingMaxSteps?
    ensures DecisionStep(s, pc, db, h, i).db == FailRun(db, pc.run, "max_steps exceeded")
  {
    hide UpdateRun;
  }

  lemma NextRewrites(s: Settings, p: string, pc: PC, db: Database, h: History, i: Input, r: string)
    requires r in db.runs && Stopped(db.runs[r])
    ensures var b := Next(s, p, pc, db, h, i).db;
      r in b.runs && (b.runs[r] != db.runs[r] <==> Rewrites(db.runs[r], pc, r, i.text))
  {
    hide EventStep, DecisionStep, ClosingStep, ToolStep, TickStep;
    if EventPhase(pc) {
      EventStepRuns(p, pc, db, h, i);
    } else if DecisionPhase(pc) {
      DecisionStepRewrites(s, pc, db, h, i, r);
    } else if ClosingPhase(pc) {
      ClosingStepRewrites(pc, db, h, i, r);
    } else if ToolPhase(pc) {
      ToolStepFrame(s, pc, db, h, i);
    } else if TickPhase(pc) {
      TickStepFrame(pc, db, h, i);
    }
  }

  lemma HostRuns(s: Settings, c: Config, a: Action, i: Input, r: string)
    requires !a.Work? && r in c.db.runs
    ensures var b := Apply(s, c, a, i).db; r in b.runs && b.runs[r] == c.db.runs[r]
  {
    hide Enqueue, CreateRunWithInitialStep, Unwind, StartResume, Dispatch, IsHexDigest, LowerHex, Next;
    if a.HostEnqueue? {
      var at := if a.availableAt.Some? then a.availableAt.value else i.now;
      EnqueueFrame(c.db, i.newEvent, a.work, a.priority, a.dedup, i.now, at);
    } else if a.HostSubmit? {
      CreateFrame(c.db, i.newRun, i.newEvent, a.task, a.capabilities, a.source, 0, i.now);
    }
  }

  /** (M) Exactly when the row of a COMPLETED or FAILED run changes: in an unguarded `update_run` for
      that run whose columns differ from the stored ones. */
  lemma OnlyLateUpdates(s: Settings, c: Config, a: Action, i: Input, r: string)
    requires Enabled(c, a, i) && r in c.db.runs && Stopped(c.db.runs[r])
    ensures var c' := Apply(s, c, a, i);
      && r in c'.db.runs
      && (c'.db.runs[r] != c.db.runs[r] <==> a.Work? && Rewrites(c.db.runs[r], Pc(c, a.p), r, i.text))
  {
    hide Apply, Enabled, Rewrites, Stopped, Next;
    if a.Work? {
      WorkDb(s, c, a.p, i);
      NextRewrites(s, a.p, Pc(c, a.p), c.db, c.hist, i, r);
    } else {
      HostRuns(s, c, a, i, r);
    }
  }
}
