/** Environment (M): the answer to a request is exact. It is rejected only if it is malformed, and unless a
    host names the event itself as its source, it has a run only if it is well formed. */
module TaskRequests {
  import opened Basics
  import opened JsonValues
  import opened Tables
  import opened Protocol
  import opened Growth
  import opened QueueSafety

  predicate Requested(db: Database, e: string) {
    e in db.events && db.events[e].work.TaskRequested?
  }

  predicate Malformed(db: Database, e: string) {
    Requested(db, e) && !WellFormed(db.events[e].work.payload)
  }

  /** Every rejection is of a malformed request. */
  ghost predicate RejectionsOk(db: Database) {
    forall i | 0 <= i < |db.journal| && db.journal[i].EventRejected? :: Malformed(db, db.journal[i].event)
  }

  // ---- who writes a rejection -----------------------------------------------------------

  ghost predicate NoRejection(a: seq<JournalEntry>, b: seq<JournalEntry>) {
    a <= b && forall i | |a| <= i < |b| :: !b[i].EventRejected?
  }

  lemma EnqueueStepQuiet(db: Database, newId: string, run: string, step: nat, priority: int, now: int)
    ensures var r := EnqueueStep(db, newId, run, step, priority, now); r.Some? ==> NoRejection(db.journal, r.value.journal)
  {
  }

  lemma CreateQuiet(db: Database, newRun: string, newEvent: string, task: string, capabilities: set<string>,
                    source: Option<string>, priority: int, now: int)
    ensures var r := CreateRunWithInitialStep(db, newRun, newEvent, task, capabilities, source, priority, now);
      r.Some? ==> NoRejection(db.journal, r.value.db.journal)
  {
    hide EnqueueStep;
    var created := CreateRun(db, newRun, task, capabilities, source);
    if created.Some? {
      EnqueueStepQuiet(created.value.db, newEvent, created.value.run, 0, priority, now);
    }
  }

  lemma AdvanceQuiet(db: Database, run: string, step: nat, newEvent: string, priority: int, now: int)
    ensures var r := AdvanceRunStep(db, run, step, newEvent, priority, now); r.Some? ==> NoRejection(db.journal, r.value.journal)
  {
    hide EnqueueStep;
    if run in db.runs {
      var row := db.runs[run].(stepCount := step + 1, lastError := None);
      EnqueueStepQuiet(db.(runs := db.runs[run := row]), newEvent, run, step + 1, priority, now);
    }
  }

  lemma ResumeQuiet(db: Database, run: string, newEvent: string, priority: int, now: int)
    ensures var r := ResumeRun(db, run, newEvent, priority, now); r.Some? ==> NoRejection(db.journal, r.value.journal)
  {
    hide EnqueueStep;
    if run in db.runs {
      var next := db.runs[run].stepCount + 1;
      var row := db.runs[run].(status := RUNNING, blockedRequest := None, lastError := None, stepCount := next);
      EnqueueStepQuiet(Log(db.(runs := db.runs[run := row]), RunEffectRecovered(run, next, now)), newEvent, run, next, priority, now);
    }
  }

  lemma EventStepQuiet(p: string, pc: PC, db: Database, h: History, i: Input)
    requires EventPhase(pc)
    ensures var b := EventStep(p, pc, db, h, i).db;
      if pc.Rejecting? then b.journal == db.journal + [EventRejected(pc.visit.event, pc.visit.now)]
      else NoRejection(db.journal, b.journal)
  {
    hide CreateRunWithInitialStep, Backoff;
    if pc.Submitting? {
      CreateQuiet(db, i.newRun, i.newEvent, pc.task, pc.capabilities, Some(pc.visit.event), 0, pc.visit.now);
    }
  }

  lemma ClosingStepQuiet(pc: PC, db: Database, h: History, i: Input)
    requires ClosingPhase(pc)
    ensures NoRejection(db.journal, ClosingStep(pc, db, h, i).db.journal)
  {
    hide AdvanceRunStep, ResumeRun;
    if pc.Advancing? {
      AdvanceQuiet(db, pc.frame.run, pc.frame.step, i.newEvent, pc.frame.visit.priority, pc.frame.visit.now);
    } else if pc.Resuming? {
      ResumeQuiet(db, pc.run, i.newEvent, 0, pc.now);
    }
  }

  lemma TickStepQuiet(pc: PC, db: Database, h: History, i: Input)
    requires TickPhase(pc)
    ensures NoRejection(db.journal, TickStep(pc, db, h, i).db.journal)
  {
    hide Enqueue, Occurrences;
    if pc.Emitting? && pc.pending != [] {
      var at := pc.pending[0];
      EnqueueFrame(db, i.newEvent, pc.due.row.work, 0, Some(OccurrenceKey(pc.due.id, at)), pc.tick.now, at);
    }
  }

  lemma DecisionStepQuiet(s: Settings, pc: PC, db: Database, h: History, i: Input)
    requires DecisionPhase(pc)
    ensures DecisionStep(s, pc, db, h, i).db.journal == db.journal
  {
    hide AfterLoad, Reread, Act, FindKey;
  }

  lemma NextQuiet(s: Settings, p: string, pc: PC, db: Database, h: History, i: Input)
    ensures var b := Next(s, p, pc, db, h, i).db;
      if pc.Rejecting? then b.journal == db.journal + [EventRejected(pc.visit.event, pc.visit.now)]
      else NoRejection(db.journal, b.journal)
  {
    hide EventStep, DecisionStep, ClosingStep, ToolStep, TickStep;
    if EventPhase(pc) {
      EventStepQuiet(p, pc, db, h, i);
    } else if DecisionPhase(pc) {
      DecisionStepQuiet(s, pc, db, h, i);
    } else if ClosingPhase(pc) {
      ClosingStepQuiet(pc, db, h, i);
    } else if ToolPhase(pc) {
      ToolStepFrame(s, pc, db, h, i);
    } else if TickPhase(pc) {
      TickStepQuiet(pc, db, h, i);
    }
  }

  lemma HostQuiet(s: Settings, c: Config, a: Action, i: Input)
    requires !a.Work?
    ensures NoRejection(c.db.journal, Apply(s, c, a, i).db.journal)
  {
    hide CreateRunWithInitialStep, Unwind, StartResume, Dispatch, IsHexDigest, LowerHex, Next, Enqueue;
    if a.HostSubmit? {
      CreateQuiet(c.db, i.newRun, i.newEvent, a.task, a.capabilities, a.source, 0, i.now);
    } else if a.HostEnqueue? {
      var at := if a.availableAt.Some? then a.availableAt.value else i.now;
      EnqueueFrame(c.db, i.newEvent, a.work, a.priority, a.dedup, i.now, at);
    }
  }

  lemma StillMalformed(a: Database, b: Database, e: string)
    requires Grows(a, b)
    ensures Malformed(a, e) ==> Malformed(b, e)
    ensures Requested(a, e) && !Malformed(a, e) ==> Requested(b, e) && !Malformed(b, e)
  {
    hide WellFormed, RunsGrow, MessagesGrow, EffectsGrow, SchedulesGrow, SubMap;
  }

  lemma RejectionsLater(a: Database, b: Database)
    requires Grows(a, b) && RejectionsOk(a) && NoRejection(a.journal, b.journal)
    ensures RejectionsOk(b)
  {
    hide Grows, Malformed;
    forall i | 0 <= i < |b.journal| && b.journal[i].EventRejected?
      ensures Malformed(b, b.journal[i].event)
    {
      assert b.journal[i] == a.journal[i];
      StillMalformed(a, b, a.journal[i].event);
    }
  }

  lemma OneRejection(a: Database, b: Database, e: string, now: int)
    requires Grows(a, b) && RejectionsOk(a) && Malformed(a, e) && b.journal == a.journal + [EventRejected(e, now)]
    ensures RejectionsOk(b)
  {
    hide Grows, Malformed;
    forall i | 0 <= i < |b.journal| && b.journal[i].EventRejected?
      ensures Malformed(b, b.journal[i].event)
    {
      StillMalformed(a, b, if i < |a.journal| then a.journal[i].event else e);
    }
  }

  lemma RejectingMalformed(db: Database, pc: PC)
    requires pc.Rejecting? && PcOk(db, pc)
    ensures Malformed(db, pc.visit.event)
  {
    hide FramesHeld, AdmitTask, WellFormed;
    AdmitMeaning(db.events[pc.visit.event].work.payload);
  }

  lemma ApplyRejections(s: Settings, c: Config, a: Action, i: Input)
    requires QueueInv(c) && RejectionsOk(c.db) && Enabled(c, a, i)
    ensures RejectionsOk(Apply(s, c, a, i).db)
  {
    hide QueueOk, PcOk, RejectionsOk, Apply, Enabled, Grows, NoRejection;
    var b := Apply(s, c, a, i).db;
    ApplyGrows(s, c, a, i);
    if a.Work? {
      WorkKnown(c, a.p, i);
      var pc := c.procs[a.p];
      assert b == Next(s, a.p, pc, c.db, c.hist, i).db by { WorkedDb(s, c, a.p, i); }
      NextQuiet(s, a.p, pc, c.db, c.hist, i);
      if pc.Rejecting? {
        assert PcOk(c.db, pc);
        RejectingMalformed(c.db, pc);
        OneRejection(c.db, b, pc.visit.event, pc.visit.now);
      } else {
        RejectionsLater(c.db, b);
      }
    } else {
      HostQuiet(s, c, a, i);
      RejectionsLater(c.db, b);
    }
  }

  lemma WorkedDb(s: Settings, c: Config, p: string, i: Input)
    ensures Apply(s, c, Work(p), i).db == Next(s, p, Pc(c, p), c.db, c.hist, i).db
  {
    hide Next;
  }

  lemma {:induction false} RejectionsExecution(s: Settings, trace: seq<Config>, n: nat)
    requires Execution(s, trace) && n < |trace|
    ensures RejectionsOk(trace[n].db)
  {
    hide Step, QueueInv, Enabled, Apply;
    if n > 0 {
      RejectionsExecution(s, trace, n - 1);
      ExecutionInv(s, trace, n - 1);
      assert Step(s, trace[n - 1], trace[n - 1 + 1]);
      RejectionsStep(s, trace[n - 1], trace[n]);
    }
  }

  lemma RejectionsStep(s: Settings, c: Config, c': Config)
    requires QueueInv(c) && RejectionsOk(c.db) && Step(s, c, c')
    ensures RejectionsOk(c'.db)
  {
    hide QueueInv, RejectionsOk, Enabled, Apply;
    var a, i :| Enabled(c, a, i) && c' == Apply(s, c, a, i);
    ApplyRejections(s, c, a, i);
  }

  // ---- who creates the run of a request -------------------------------------------------

  /** A step in which no host names `e` as the source of a submission of its own. */
  ghost predicate OwnSourceStep(s: Settings, c: Config, c': Config, e: string) {
    hide Enabled, Apply;
    exists a, i :: Enabled(c, a, i) && (a.HostSubmit? ==> a.source != Some(e)) && c' == Apply(s, c, a, i)
  }

  ghost predicate OwnSources(s: Settings, trace: seq<Config>, e: string) {
    hide OwnSourceStep;
    && trace != [] && trace[0] == INITIAL_CONFIG
    && forall n | 0 <= n < |trace| - 1 :: OwnSourceStep(s, trace[n], trace[n + 1], e)
  }

  predicate HasRun(db: Database, e: string) {
    exists r | r in db.runs :: db.runs[r].source == Some(e)
  }

  lemma NewRunSource(s: Settings, p: string, pc: PC, db: Database, h: History, i: Input, r: string)
    requires r !in db.runs && r in Next(s, p, pc, db, h, i).db.runs
    ensures pc.Submitting? && Next(s, p, pc, db, h, i).db.runs[r].source == Some(pc.visit.event)
  {
    hide EventStep, DecisionStep, ClosingStep, ToolStep, TickStep;
    if EventPhase(pc) {
      EventNewRun(p, pc, db, h, i, r);
    } else if DecisionPhase(pc) {
      DecisionNoNewRun(s, pc, db, h, i, r);
    } else if ClosingPhase(pc) {
      ClosingNoNewRun(pc, db, h, i, r);
    } else if ToolPhase(pc) {
      ToolStepFrame(s, pc, db, h, i);
    } else if TickPhase(pc) {
      TickStepFrame(pc, db, h, i);
    }
  }

  lemma EventNewRun(p: string, pc: PC, db: Database, h: History, i: Input, r: string)
    requires EventPhase(pc) && r !in db.runs && r in EventStep(p, pc, db, h, i).db.runs
    ensures pc.Submitting? && EventStep(p, pc, db, h, i).db.runs[r].source == Some(pc.visit.event)
  {
    hide CreateRunWithInitialStep, Backoff;
    if pc.Submitting? {
      CreateFrame(db, i.newRun, i.newEvent, pc.task, pc.capabilities, Some(pc.visit.event), 0, pc.visit.now);
    }
  }

  lemma DecisionNoNewRun(s: Settings, pc: PC, db: Database, h: History, i: Input, r: string)
    requires DecisionPhase(pc) && r !in db.runs
    ensures r !in DecisionStep(s, pc, db, h, i).db.runs
  {
    if !pc.FailingMaxSteps? {
      hide DecisionStep;
      DecisionStepFrame(s, pc, db, h, i);
    }
  }

  lemma ClosingNoNewRun(pc: PC, db: Database, h: History, i: Input, r: string)
    requires ClosingPhase(pc) && r !in db.runs
    ensures r !in ClosingStep(pc, db, h, i).db.runs
  {
    hide AdvanceRunStep, ResumeRun;
    if pc.Advancing? {
      AdvanceFrame(db, pc.frame.run, pc.frame.step, i.newEvent, pc.frame.visit.priority, pc.frame.visit.now);
    } else if pc.Resuming? {
      ResumeFrame(db, pc.run, i.newEvent, 0, pc.now);
    }
  }

  lemma HostNewRun(s: Settings, c: Config, a: Action, i: Input, r: string)
    requires !a.Work? && r !in c.db.runs && r in Apply(s, c, a, i).db.runs
    ensures a.HostSubmit? && Apply(s, c, a, i).db.runs[r].source == a.source
  {
    hide CreateRunWithInitialStep, Unwind, StartResume, Dispatch, IsHexDigest, LowerHex, Next, Enqueue;
    if a.HostSubmit? {
      CreateFrame(c.db, i.newRun, i.newEvent, a.task, a.capabilities, a.source, 0, i.now);
    } else if a.HostEnqueue? {
      var at := if a.availableAt.Some? then a.availableAt.value else i.now;
      EnqueueFrame(c.db, i.newEvent, a.work, a.priority, a.dedup, i.now, at);
    }
  }

  lemma SubmittingWellFormed(db: Database, pc: PC)
    requires pc.Submitting? && PcOk(db, pc)
    ensures Requested(db, pc.visit.event) && !Malformed(db, pc.visit.event)
  {
    hide FramesHeld, AdmitTask, WellFormed;
    AdmitMeaning(db.events[pc.visit.event].work.payload);
  }

  lemma SameSource(a: Database, b: Database, r: string)
    requires Grows(a, b) && r in a.runs
    ensures r in b.runs && b.runs[r].source == a.runs[r].source
  {
  }

  lemma ApplyRuns(s: Settings, c: Config, a: Action, i: Input, e: string)
    requires QueueInv(c) && Enabled(c, a, i) && (a.HostSubmit? ==> a.source != Some(e))
    requires HasRun(c.db, e) ==> Requested(c.db, e) && !Malformed(c.db, e)
    ensures var b := Apply(s, c, a, i).db; HasRun(b, e) ==> Requested(b, e) && !Malformed(b, e)
  {
    hide QueueOk, PcOk, Apply, Enabled, Grows, Requested, Malformed;
    var b := Apply(s, c, a, i).db;
    ApplyGrows(s, c, a, i);
    StillMalformed(c.db, b, e);
    if HasRun(b, e) {
      var r :| r in b.runs && b.runs[r].source == Some(e);
      if r in c.db.runs {
        SameSource(c.db, b, r);
        assert HasRun(c.db, e);
      } else if a.Work? {
        WorkKnown(c, a.p, i);
        var pc := c.procs[a.p];
        assert b == Next(s, a.p, pc, c.db, c.hist, i).db by { WorkedDb(s, c, a.p, i); }
        NewRunSource(s, a.p, pc, c.db, c.hist, i, r);
        assert PcOk(c.db, pc);
        SubmittingWellFormed(c.db, pc);
      } else {
        HostNewRun(s, c, a, i, r);
      }
    }
  }

  lemma OwnSourcesStep(s: Settings, c: Config, c': Config, e: string)
    requires QueueInv(c) && OwnSourceStep(s, c, c', e)
    requires HasRun(c.db, e) ==> Requested(c.db, e) && !Malformed(c.db, e)
    ensures Step(s, c, c')
    ensures HasRun(c'.db, e) ==> Requested(c'.db, e) && !Malformed(c'.db, e)
  {
    hide QueueInv, Enabled, Apply, Requested, Malformed, HasRun;
    var a, i :| Enabled(c, a, i) && (a.HostSubmit? ==> a.source != Some(e)) && c' == Apply(s, c, a, i);
    ApplyRuns(s, c, a, i, e);
  }

  lemma OwnSourcesExecution(s: Settings, trace: seq<Config>, e: string)
    requires OwnSources(s, trace, e)
    ensures Execution(s, trace)
  {
    hide Enabled, Apply;
    forall n | 0 <= n < |trace| - 1
      ensures Step(s, trace[n], trace[n + 1])
    {
      assert OwnSourceStep(s, trace[n], trace[n + 1], e);
      var a, i :| Enabled(trace[n], a, i) && (a.HostSubmit? ==> a.source != Some(e)) && trace[n + 1] == Apply(s, trace[n], a, i);
    }
  }

  lemma {:induction false} RunsExecution(s: Settings, trace: seq<Config>, n: nat, e: string)
    requires OwnSources(s, trace, e) && n < |trace|
    ensures HasRun(trace[n].db, e) ==> Requested(trace[n].db, e) && !Malformed(trace[n].db, e)
  {
    hide OwnSourceStep, QueueInv, Requested, Malformed, Execution;
    if n > 0 {
      RunsExecution(s, trace, n - 1, e);
      OwnSourcesExecution(s, trace, e);
      ExecutionInv(s, trace, n - 1);
      assert OwnSourceStep(s, trace[n - 1], trace[n - 1 + 1], e);
      OwnSourcesStep(s, trace[n - 1], trace[n], e);
    }
  }

  // ---- what it says ---------------------------------------------------------------------

  /** A finished request is rejected exactly when it is malformed, and has a run exactly when it is well
      formed, unless a host names its event as the source of a submission of its own; the run's task is
      the stripped text, its capabilities exactly those listed. */
  lemma RequestOutcome(s: Settings, trace: seq<Config>, n: nat, e: string)
    requires Execution(s, trace) && n < |trace|
    requires Requested(trace[n].db, e) && trace[n].db.events[e].status == DONE
    ensures var db := trace[n].db; var payload := db.events[e].work.payload;
      && (Rejected(db.journal, e) <==> !WellFormed(payload))
      && (WellFormed(payload) ==> exists r :: r in db.runs && db.runs[r].source == Some(e) && Fulfils(db.runs[r], payload))
      && (OwnSources(s, trace, e) ==> (HasRun(db, e) <==> WellFormed(payload)))
  {
    hide Execution, OwnSources, WellFormed, Fulfils;
    RejectionsExecution(s, trace, n);
    AnsweredOnce(s, trace, n, e);
    if OwnSources(s, trace, e) { RunsExecution(s, trace, n, e); }
    var db := trace[n].db;
    if Rejected(db.journal, e) {
      var i :| 0 <= i < |db.journal| && db.journal[i].EventRejected? && db.journal[i].event == e;
      assert Malformed(db, db.journal[i].event);
    }
  }
}
