/** Environment (M) with leases long enough: every statement of a delivery is done by a process that still
    owns the event it claimed. Then the unguarded `update_run` does no harm with any number of workers:
    the step bound holds and a stopped run stays as it is. */
module HeldLeases {
  import opened Basics
  import opened JsonValues
  import opened Tables
  import opened Protocol
  import opened Growth
  import opened QueueSafety
  import opened LeaseSafety
  import opened SoloInvariant
  import opened LateWrites

  // ---- the condition --------------------------------------------------------------------

  /** Between the claim and the acknowledgement or return of the event. */
  predicate Delivers(pc: PC) {
    (VisitPhase(pc) && !pc.AckJournaling?) || (FramePhase(pc) && !pc.RequeueJournaling?)
    || (CallPhase(pc) && pc.caller.FromStep?)
  }

  function EventOf(pc: PC): string
    requires Delivers(pc)
  {
    if VisitPhase(pc) then pc.visit.event
    else if FramePhase(pc) then pc.frame.visit.event
    else pc.caller.frame.visit.event
  }

  /** A statement of a delivery is only executed while its process owns the event. */
  predicate Held(c: Config, a: Action) {
    a.Work? && Delivers(Pc(c, a.p)) ==> Owns(c.db, EventOf(Pc(c, a.p)), a.p)
  }

  /** After the write that closes a step and before its acknowledgement. */
  predicate Closed(pc: PC) {
    pc.BlockJournaling? || (pc.Acking? && pc.handler.Some?)
  }

  /** No exception strikes between the closing write and the acknowledgement. */
  predicate Calm(c: Config, a: Action) {
    a.Throw? ==> !Closed(Pc(c, a.p))
  }

  ghost predicate HeldStep(s: Settings, c: Config, c': Config, calm: bool) {
    hide Enabled, Apply;
    exists a, i :: Enabled(c, a, i) && Held(c, a) && (calm ==> Calm(c, a)) && c' == Apply(s, c, a, i)
  }

  ghost predicate HeldExecution(s: Settings, trace: seq<Config>, calm: bool) {
    hide HeldStep;
    && trace != [] && trace[0] == INITIAL_CONFIG
    && forall n | 0 <= n < |trace| - 1 :: HeldStep(s, trace[n], trace[n + 1], calm)
  }

  // ---- the invariant --------------------------------------------------------------------

  /** Counters of a step that has not moved its run. */
  predicate InStep(pc: PC, calm: bool) {
    OpenPhase(pc) || pc.FailingMaxSteps? || (CallPhase(pc) && pc.caller.FromStep?) || (calm && pc.NotingError?)
  }

  /** The run is RUNNING at the generation of its event, below the limit. */
  predicate AtStep(s: Settings, db: Database, e: string, below: bool) {
    && e in db.events && db.events[e].work.RunStep? && db.events[e].work.run in db.runs
    && db.runs[db.events[e].work.run].status == RUNNING
    && db.runs[db.events[e].work.run].stepCount == db.events[e].work.step
    && (below ==> db.events[e].work.step < s.maxSteps)
  }

  /** A process that still holds the lease of its event finds the run where it loaded it. */
  predicate Holding(s: Settings, db: Database, p: string, pc: PC, calm: bool) {
    InStep(pc, calm) && EventOf(pc) in db.events && db.events[EventOf(pc)].leaseOwner == Some(p) ==>
      AtStep(s, db, EventOf(pc), !pc.FailingMaxSteps?)
  }

  predicate Bounded(s: Settings, row: RunRow) {
    row.stepCount <= s.maxSteps && (row.status == BLOCKED_EFFECT ==> row.stepCount < s.maxSteps)
  }

  ghost predicate HeldInv(s: Settings, c: Config, calm: bool) {
    && (forall r | r in c.db.runs :: Bounded(s, c.db.runs[r]))
    && (forall p | p in c.procs :: Holding(s, c.db, p, c.procs[p], calm))
  }

  // ---- the owner's own statements -------------------------------------------------------

  lemma ClosingNext(pc: PC, db: Database, h: History, i: Input, calm: bool)
    requires ClosingPhase(pc)
    ensures var r := ClosingStep(pc, db, h, i);
      InStep(r.pc, calm) ==> calm && r.pc == NotingError(pc.frame) && r.db == db && (pc.Advancing? || pc.Blocking?)
  {
    hide AdvanceRunStep, ResumeRun, UpdateRun, BlockRun, Log;
  }

  lemma EventNext(p: string, pc: PC, db: Database, h: History, i: Input, calm: bool)
    requires EventPhase(pc) && (pc.Acking? ==> Owns(db, pc.visit.event, p))
    ensures !InStep(EventStep(p, pc, db, h, i).pc, calm)
  {
    hide CreateRunWithInitialStep, Requeue, Log, AddLease, Backoff;
  }

  lemma ToolNext(s: Settings, pc: PC, db: Database, h: History, i: Input, calm: bool)
    requires ToolPhase(pc)
    ensures var r := ToolStep(s, pc, db, h, i);
      InStep(r.pc, calm) ==> CallPhase(pc) && pc.caller.FromStep? && !r.pc.FailingMaxSteps? && EventOf(r.pc) == EventOf(pc)
  {
    hide Admissible, AdmitEffect, SetEffect, MarkUnknown, RecordMessage, AddCompletion, StoredCall;
  }

  /** Loading finds the run at the event's generation. */
  lemma LoadNext(s: Settings, pc: PC, db: Database, h: History, i: Input, calm: bool)
    requires pc.Loading? && Holds(db, pc.visit.event, RunStep(pc.run, pc.step))
    ensures var r := DecisionStep(s, pc, db, h, i);
      && r.db == db
      && (InStep(r.pc, calm) ==> EventOf(r.pc) == EventOf(pc) && AtStep(s, db, EventOf(pc), !r.pc.FailingMaxSteps?))
  {
  }

  lemma DecisionNext(s: Settings, pc: PC, db: Database, h: History, i: Input, calm: bool)
    requires DecisionPhase(pc) && !pc.Loading?
    ensures var r := DecisionStep(s, pc, db, h, i);
      InStep(r.pc, calm) ==>
        !pc.FailingMaxSteps? && OpenPhase(pc) && !r.pc.FailingMaxSteps? && EventOf(r.pc) == EventOf(pc)
  {
    hide RecordDecision, RecordMessage, UpdateRun;
  }

  lemma SameAtStep(s: Settings, a: Database, b: Database, e: string, below: bool)
    requires AtStep(s, a, e, below) && SameQueue(a, b)
    ensures AtStep(s, b, e, below)
  {
  }

  lemma OwnNext(s: Settings, p: string, pc: PC, db: Database, h: History, i: Input, calm: bool)
    requires PcOk(db, pc) && Holding(s, db, p, pc, calm)
    requires Delivers(pc) ==> Owns(db, EventOf(pc), p)
    ensures var r := Next(s, p, pc, db, h, i); InStep(r.pc, calm) ==> AtStep(s, r.db, EventOf(r.pc), !r.pc.FailingMaxSteps?)
  {
    hide PcOk, AtStep, EventStep, DecisionStep, ClosingStep, ToolStep, TickStep;
    var r := Next(s, p, pc, db, h, i);
    if EventPhase(pc) {
      EventNext(p, pc, db, h, i, calm);
    } else if pc.Loading? {
      LoadingHolds(db, pc);
      LoadNext(s, pc, db, h, i, calm);
    } else if DecisionPhase(pc) {
      DecisionNext(s, pc, db, h, i, calm);
      if InStep(r.pc, calm) {
        DecisionStepFrame(s, pc, db, h, i);
        SameAtStep(s, db, r.db, EventOf(pc), true);
      }
    } else if ClosingPhase(pc) {
      ClosingNext(pc, db, h, i, calm);
    } else if ToolPhase(pc) {
      ToolNext(s, pc, db, h, i, calm);
      if InStep(r.pc, calm) {
        ToolStepFrame(s, pc, db, h, i);
        SameAtStep(s, db, r.db, EventOf(pc), true);
      }
    } else if TickPhase(pc) {
      TickNext(pc, db, h, i, calm);
    }
  }

  lemma LoadingHolds(db: Database, pc: PC)
    requires pc.Loading? && PcOk(db, pc)
    ensures Holds(db, pc.visit.event, RunStep(pc.run, pc.step))
  {
    hide FramesHeld, MayAck, AdmitTask;
  }

  lemma TickNext(pc: PC, db: Database, h: History, i: Input, calm: bool)
    requires TickPhase(pc)
    ensures !InStep(TickStep(pc, db, h, i).pc, calm)
  {
    hide Enqueue, Occurrences, SetNextAt, DisableSchedule;
  }

  // ---- what a statement does to the place of a run --------------------------------------

  predicate SamePlace(a: RunRow, b: RunRow) {
    b.status == a.status && b.stepCount == a.stepCount
  }

  /** The statements of a delivery that move run `r`. */
  predicate Mover(pc: PC, r: string) {
    || ((pc.Advancing? || pc.Completing? || pc.Blocking? || pc.FailingTool?) && pc.frame.run == r)
    || (pc.FailingMaxSteps? && pc.run == r)
  }

  lemma ClosingPlaces(s: Settings, pc: PC, db: Database, h: History, i: Input, r: string)
    requires ClosingPhase(pc) && r in db.runs && Bounded(s, db.runs[r])
    ensures var b := ClosingStep(pc, db, h, i).db;
      && r in b.runs
      && (!Mover(pc, r) && db.runs[r].status != BLOCKED_EFFECT ==> SamePlace(db.runs[r], b.runs[r]))
      && (!Mover(pc, r) || db.runs[r].stepCount < s.maxSteps ==> Bounded(s, b.runs[r]))
  {
    hide AdvanceRunStep, ResumeRun, UpdateRun, BlockRun;
    if pc.Advancing? {
      AdvanceFrame(db, pc.frame.run, pc.frame.step, i.newEvent, pc.frame.visit.priority, pc.frame.visit.now);
    } else if pc.Resuming? {
      ResumeFrame(db, pc.run, i.newEvent, 0, pc.now);
    } else if pc.Blocking? {
      if BlockRun(db, pc.frame.run, pc.request, i.text).Some? { BlockOne(db, pc.frame.run, pc.request, i.text, r); }
    } else if pc.Completing? {
      UpdateOne(db, pc.frame.run, Some(COMPLETED), Some(pc.text), None, true, true, r);
    } else if pc.FailingTool? {
      UpdateOne(db, pc.frame.run, Some(FAILED), None, Some(i.text), false, false, r);
    } else if pc.NotingError? {
      UpdateOne(db, pc.frame.run, None, None, Some(i.text), false, false, r);
    }
  }

  lemma BlockOne(db: Database, x: string, request: string, error: string, r: string)
    requires r in db.runs && BlockRun(db, x, request, error).Some?
    ensures var b := BlockRun(db, x, request, error).value;
      && r in b.runs && (x != r ==> b.runs[r] == db.runs[r])
      && (x == r ==> b.runs[r].status == BLOCKED_EFFECT && b.runs[r].stepCount == db.runs[r].stepCount)
  {
  }

  lemma DecisionPlaces(s: Settings, pc: PC, db: Database, h: History, i: Input, r: string)
    requires DecisionPhase(pc) && r in db.runs && Bounded(s, db.runs[r])
    ensures var b := DecisionStep(s, pc, db, h, i).db;
      r in b.runs && (!Mover(pc, r) ==> SamePlace(db.runs[r], b.runs[r])) && Bounded(s, b.runs[r])
  {
    hide DecisionStep, UpdateRun;
    if pc.FailingMaxSteps? {
      MaxStepsUpdate(s, pc, db, h, i);
      UpdateOne(db, pc.run, Some(FAILED), None, Some("max_steps exceeded"), false, false, r);
    } else {
      DecisionStepFrame(s, pc, db, h, i);
    }
  }

  lemma NextPlaces(s: Settings, p: string, pc: PC, db: Database, h: History, i: Input, r: string)
    requires r in db.runs && Bounded(s, db.runs[r])
    ensures var b := Next(s, p, pc, db, h, i).db;
      && r in b.runs
      && (!Mover(pc, r) && db.runs[r].status != BLOCKED_EFFECT ==> SamePlace(db.runs[r], b.runs[r]))
      && (!Mover(pc, r) || pc.FailingMaxSteps? || db.runs[r].stepCount < s.maxSteps ==> Bounded(s, b.runs[r]))
  {
    hide EventStep, DecisionStep, ClosingStep, ToolStep, TickStep;
    if EventPhase(pc) {
      EventStepRuns(p, pc, db, h, i);
    } else if DecisionPhase(pc) {
      DecisionPlaces(s, pc, db, h, i, r);
    } else if ClosingPhase(pc) {
      ClosingPlaces(s, pc, db, h, i, r);
    } else if ToolPhase(pc) {
      ToolStepFrame(s, pc, db, h, i);
    } else if TickPhase(pc) {
      TickStepFrame(pc, db, h, i);
    }
  }

  /** New runs start at generation 0. */
  lemma NextNewRuns(s: Settings, p: string, pc: PC, db: Database, h: History, i: Input, r: string)
    requires r !in db.runs && r in Next(s, p, pc, db, h, i).db.runs
    ensures Bounded(s, Next(s, p, pc, db, h, i).db.runs[r])
  {
    hide EventStep, DecisionStep, ClosingStep, ToolStep, TickStep;
    if EventPhase(pc) {
      EventStepRuns(p, pc, db, h, i);
    } else if DecisionPhase(pc) {
      if pc.FailingMaxSteps? { MaxStepsUpdate(s, pc, db, h, i); } else { DecisionStepFrame(s, pc, db, h, i); }
    } else if ClosingPhase(pc) {
      ClosingNoNewRuns(pc, db, h, i, r);
    } else if ToolPhase(pc) {
      ToolStepFrame(s, pc, db, h, i);
    } else if TickPhase(pc) {
      TickStepFrame(pc, db, h, i);
    }
  }

  lemma ClosingNoNewRuns(pc: PC, db: Database, h: History, i: Input, r: string)
    requires ClosingPhase(pc) && r !in db.runs
    ensures r !in ClosingStep(pc, db, h, i).db.runs
  {
    hide AdvanceRunStep, ResumeRun;
    if pc.Advancing? {
      AdvanceFrame(db, pc.frame.run, pc.frame.step, i.newEvent, pc.frame.visit.priority, pc.frame.visit.now);
    } else if pc.Resuming? {
      ResumeFrame(db, pc.run, i.newEvent, 0, pc.now);
    }
  }
  // ---- the whole system -----------------------------------------------------------------

  /** One generation has one event. */
  lemma OneEvent(db: Database, e: string, e': string)
    requires CoreOk(db) && e in db.events && e' in db.events
    requires db.events[e].work.RunStep? && db.events[e'].work == db.events[e].work
    ensures e == e'
  {
    hide SourcesIndexed, TasksAnswered, Left;
    assert StepEventOk(db.runs, db.events[e]) && StepEventOk(db.runs, db.events[e']);
  }

  /** A mover works on the event of its run. */
  lemma MoverEvent(db: Database, pc: PC, r: string)
    requires PcOk(db, pc) && Mover(pc, r)
    ensures Delivers(pc) && EventOf(pc) in db.events
    ensures db.events[EventOf(pc)].work.RunStep? && db.events[EventOf(pc)].work.run == r
  {
    hide MayAck, AdmitTask, NoStepWork;
  }

  lemma InStepEvent(db: Database, pc: PC, calm: bool)
    requires PcOk(db, pc) && InStep(pc, calm)
    ensures Delivers(pc) && EventOf(pc) in db.events
  {
    hide MayAck, AdmitTask, NoStepWork;
  }

  ghost predicate Invariants(s: Settings, c: Config, calm: bool) {
    QueueInv(c) && LeaseInv(s, c) && HeldInv(s, c, calm)
  }

  /** What the one who moves a run holds. */
  lemma MoverHolds(s: Settings, c: Config, p: string, r: string, calm: bool)
    requires Invariants(s, c, calm) && p in c.procs && Mover(c.procs[p], r)
    requires Owns(c.db, EventOf(c.procs[p]), p)
    ensures r in c.db.runs && c.db.runs[r].status == RUNNING
    ensures c.db.events[EventOf(c.procs[p])].work == RunStep(r, c.db.runs[r].stepCount)
    ensures !c.procs[p].FailingMaxSteps? ==> c.db.runs[r].stepCount < s.maxSteps
  {
    hide QueueOk, PcOk, LeaseInv, Delivers;
    MoverEvent(c.db, c.procs[p], r);
    assert Holding(s, c.db, p, c.procs[p], calm);
  }

  lemma WorkPlaces(s: Settings, c: Config, p: string, i: Input, r: string, calm: bool)
    requires Invariants(s, c, calm) && Enabled(c, Work(p), i) && Held(c, Work(p)) && r in c.db.runs
    ensures var b := Apply(s, c, Work(p), i).db;
      && r in b.runs && Bounded(s, b.runs[r])
      && (Mover(Pc(c, p), r) || c.db.runs[r].status == BLOCKED_EFFECT || SamePlace(c.db.runs[r], b.runs[r]))
  {
    hide QueueOk, PcOk, LeaseInv, Next, Mover, EventOf, Bounded;
    WorkKnown(c, p, i);
    WorkDb(s, c, p, i);
    var pc := c.procs[p];
    NextPlaces(s, p, pc, c.db, c.hist, i, r);
    if Mover(pc, r) {
      assert PcOk(c.db, pc);
      MoverEvent(c.db, pc, r);
      MoverHolds(s, c, p, r, calm);
    }
  }

  /** The owner of an event keeps finding its run in place while others work. */
  lemma OthersWork(s: Settings, c: Config, p: string, i: Input, q: string, calm: bool)
    requires Invariants(s, c, calm) && Enabled(c, Work(p), i) && Held(c, Work(p)) && q in c.procs && q != p
    ensures Holding(s, Apply(s, c, Work(p), i).db, q, c.procs[q], calm)
  {
    hide QueueOk, PcOk, LeaseOk, PcLease, Next, Mover, EventOf, Bounded, InStep, AtStep, Grows, Enabled;
    var c' := Apply(s, c, Work(p), i);
    var pc := c.procs[q];
    WorkKnown(c, p, i);
    WorkDb(s, c, p, i);
    if InStep(pc, calm) {
      assert PcOk(c.db, pc);
      InStepEvent(c.db, pc, calm);
      var e := EventOf(pc);
      if e in c'.db.events && c'.db.events[e].leaseOwner == Some(q) {
        NextLease(s, p, c.procs[p], c.db, c.hist, i);
        assert c.db.events[e].leaseOwner == Some(q) by { KeptOwner(p, q, c.db.events, c'.db.events, e); }
        assert Holding(s, c.db, q, pc, calm);
        ApplyGrows(s, c, Work(p), i);
        StillAtStep(s, c, p, i, q, e, !pc.FailingMaxSteps?, calm);
      }
    }
  }

  lemma KeptOwner(p: string, q: string, a: map<string, EventRow>, b: map<string, EventRow>, e: string)
    requires LeasesKept(p, a, b) && e in a && e in b && b[e].leaseOwner == Some(q) && p != q
    ensures a[e].leaseOwner == Some(q)
  {
  }

  lemma StillAtStep(s: Settings, c: Config, p: string, i: Input, q: string, e: string, below: bool, calm: bool)
    requires Invariants(s, c, calm) && Enabled(c, Work(p), i) && Held(c, Work(p)) && p != q && p in c.procs
    requires Grows(c.db, Apply(s, c, Work(p), i).db) && AtStep(s, c.db, e, below) && c.db.events[e].leaseOwner == Some(q)
    ensures AtStep(s, Apply(s, c, Work(p), i).db, e, below)
  {
    hide QueueOk, PcOk, LeaseInv, Apply, Mover, EventOf, Bounded, Grows, Enabled;
    var b := Apply(s, c, Work(p), i).db;
    var r := c.db.events[e].work.run;
    EventIdentity(c.db, b, e);
    WorkPlaces(s, c, p, i, r, calm);
    if Mover(Pc(c, p), r) {
      assert PcOk(c.db, c.procs[p]);
      MoverEvent(c.db, c.procs[p], r);
      MoverHolds(s, c, p, r, calm);
      OwnEvent(s, c, p, r, e);
    }
  }

  /** Two processes cannot both own the event of one generation. */
  lemma OwnEvent(s: Settings, c: Config, p: string, r: string, e: string)
    requires QueueInv(c) && p in c.procs && Delivers(c.procs[p]) && Owns(c.db, EventOf(c.procs[p]), p) && e in c.db.events
    requires c.db.events[e].work.RunStep? && c.db.events[EventOf(c.procs[p])].work == c.db.events[e].work
    ensures c.db.events[e].leaseOwner == Some(p)
  {
    hide CoreOk, PcOk, Delivers, EventOf;
    OneEvent(c.db, e, EventOf(c.procs[p]));
  }

  lemma WorkHeld(s: Settings, c: Config, p: string, i: Input, calm: bool)
    requires Invariants(s, c, calm) && Enabled(c, Work(p), i) && Held(c, Work(p))
    ensures HeldInv(s, Apply(s, c, Work(p), i), calm)
  {
    hide QueueOk, PcOk, LeaseInv, Next, Bounded, Holding, Delivers, EventOf;
    var c' := Apply(s, c, Work(p), i);
    WorkKnown(c, p, i);
    WorkDb(s, c, p, i);
    forall r | r in c'.db.runs
      ensures Bounded(s, c'.db.runs[r])
    {
      if r in c.db.runs {
        WorkPlaces(s, c, p, i, r, calm);
      } else {
        NextNewRuns(s, p, c.procs[p], c.db, c.hist, i, r);
      }
    }
    forall q | q in c'.procs
      ensures Holding(s, c'.db, q, c'.procs[q], calm)
    {
      if q == p {
        assert PcOk(c.db, c.procs[p]);
        OwnHolding(s, p, c.procs[p], c.db, c.hist, i, calm);
      } else {
        OthersWork(s, c, p, i, q, calm);
      }
    }
  }

  lemma OwnHolding(s: Settings, p: string, pc: PC, db: Database, h: History, i: Input, calm: bool)
    requires PcOk(db, pc) && Holding(s, db, p, pc, calm)
    requires Delivers(pc) ==> Owns(db, EventOf(pc), p)
    ensures var r := Next(s, p, pc, db, h, i); Holding(s, r.db, p, r.pc, calm)
  {
    hide PcOk, AtStep, Next;
    OwnNext(s, p, pc, db, h, i, calm);
  }

  // ---- other actions --------------------------------------------------------------------

  lemma UnwindInStep(pc: PC, calm: bool)
    requires calm ==> !Closed(pc)
    ensures InStep(Unwind(pc), calm) ==>
      && InStep(pc, calm) && EventOf(Unwind(pc)) == EventOf(pc) && !pc.FailingMaxSteps? && !Unwind(pc).FailingMaxSteps?
  {
  }

  lemma DispatchInStep(v: Visit, work: Work, calm: bool)
    ensures !InStep(Dispatch(v, work), calm)
  {
    hide AdmitTask;
  }

  lemma ResumeInStep(c: Config, p: string, run: string, now: int, calm: bool)
    ensures !InStep(StartResume(c, p, run, now), calm)
  {
  }

  /** Host calls and claims leave the runs where they are and give nobody a lease, but the claimant. */
  lemma HostPlaces(s: Settings, c: Config, a: Action, i: Input, calm: bool)
    requires !a.Work? && HeldInv(s, c, calm)
    ensures forall r | r in Apply(s, c, a, i).db.runs :: Bounded(s, Apply(s, c, a, i).db.runs[r])
  {
    hide Enqueue, CreateRunWithInitialStep, Unwind, StartResume, Dispatch, IsHexDigest, LowerHex, Next, Holding;
    if a.HostEnqueue? {
      var at := if a.availableAt.Some? then a.availableAt.value else i.now;
      EnqueueFrame(c.db, i.newEvent, a.work, a.priority, a.dedup, i.now, at);
    } else if a.HostSubmit? {
      CreateFrame(c.db, i.newRun, i.newEvent, a.task, a.capabilities, a.source, 0, i.now);
    }
  }

  lemma HostOwners(s: Settings, c: Config, a: Action, i: Input, e: string, p: string)
    requires !a.Work? && e in c.db.events && e in Apply(s, c, a, i).db.events
    requires Apply(s, c, a, i).db.events[e].leaseOwner == Some(p) && !(a.ClaimNext? && a.p == p)
    ensures c.db.events[e].leaseOwner == Some(p)
  {
    hide CreateRunWithInitialStep, Unwind, StartResume, Dispatch, IsHexDigest, LowerHex, Next, Quiet;
    if a.HostSubmit? {
      CreateQuiet(c.db, i.newRun, i.newEvent, a.task, a.capabilities, a.source, 0, i.now);
      if CreateRunWithInitialStep(c.db, i.newRun, i.newEvent, a.task, a.capabilities, a.source, 0, i.now).Some? {
        QuietRow(c.db, Apply(s, c, a, i).db, e);
      }
    }
  }

  lemma QuietRow(a: Database, b: Database, e: string)
    requires Quiet(a, b) && e in a.events
    ensures e in b.events && b.events[e] == a.events[e]
  {
  }

  lemma HostAtStep(s: Settings, c: Config, a: Action, i: Input, e: string, below: bool)
    requires !a.Work? && Enabled(c, a, i) && AtStep(s, c.db, e, below)
    ensures AtStep(s, Apply(s, c, a, i).db, e, below)
  {
    hide Apply, Enabled, Grows;
    ApplyGrows(s, c, a, i);
    EventIdentity(c.db, Apply(s, c, a, i).db, e);
    HostRuns(s, c, a, i, c.db.events[e].work.run);
  }

  /** A counter that another action leaves, or sets to something outside a step. */
  lemma HostHolding(s: Settings, c: Config, a: Action, i: Input, q: string, calm: bool)
    requires Invariants(s, c, calm) && !a.Work? && Enabled(c, a, i) && (calm ==> Calm(c, a)) && q in Apply(s, c, a, i).procs
    ensures Holding(s, Apply(s, c, a, i).db, q, Apply(s, c, a, i).procs[q], calm)
  {
    hide QueueOk, PcOk, LeaseInv, Apply, Enabled, AtStep, EventOf, InStep, Unwind;
    var c' := Apply(s, c, a, i);
    var pc' := c'.procs[q];
    if InStep(pc', calm) {
      HostCounter(s, c, a, i, q, calm);
      var pc := c.procs[q];
      assert PcOk(c.db, pc) && Holding(s, c.db, q, pc, calm);
      InStepEvent(c.db, pc, calm);
      var e := EventOf(pc);
      if e in c'.db.events && c'.db.events[e].leaseOwner == Some(q) {
        HostOwners(s, c, a, i, e, q);
        HostAtStep(s, c, a, i, e, !pc.FailingMaxSteps?);
      }
    }
  }

  lemma HostCounter(s: Settings, c: Config, a: Action, i: Input, q: string, calm: bool)
    requires !a.Work? && Enabled(c, a, i) && (calm ==> Calm(c, a)) && q in Apply(s, c, a, i).procs
    requires InStep(Apply(s, c, a, i).procs[q], calm)
    ensures q in c.procs && InStep(c.procs[q], calm) && EventOf(Apply(s, c, a, i).procs[q]) == EventOf(c.procs[q])
    ensures Apply(s, c, a, i).procs[q].FailingMaxSteps? == c.procs[q].FailingMaxSteps?
    ensures !(a.ClaimNext? && a.p == q)
  {
    hide Enqueue, CreateRunWithInitialStep, Reconcile, AddSchedule, Claim, Next, Unwind, StartResume, Dispatch, InStep, EventOf;
    hide BestEligible, NoneEligible, DueListing, Closed;
    IdleOutside(i, calm);
    if a.Throw? {
      if a.p !in c.procs { IdleUnwinds(); }
      UnwindInStep(Pc(c, a.p), calm);
    } else if a.ClaimNext? {
      if i.choice.Some? && i.choice.value in c.db.events {
        var row := c.db.events[i.choice.value];
        DispatchInStep(Visit(i.choice.value, row.priority, row.attempts + 1, i.now), row.work, calm);
      }
    } else if a.Resume? {
      ResumeInStep(c, a.p, a.run, i.now, calm);
    }
  }

  lemma IdleUnwinds()
    ensures Unwind(Idle) == Idle
  {
  }

  lemma IdleOutside(i: Input, calm: bool)
    ensures !InStep(Idle, calm) && !InStep(Aborted, calm)
    ensures forall e, now :: !InStep(EnqueueJournaling(e, now), calm)
    ensures forall t :: !InStep(Ticking(t), calm)
  {
  }

  lemma ApplyHeld(s: Settings, c: Config, a: Action, i: Input, calm: bool)
    requires Invariants(s, c, calm) && Enabled(c, a, i) && Held(c, a) && (calm ==> Calm(c, a))
    ensures HeldInv(s, Apply(s, c, a, i), calm)
  {
    hide QueueInv, LeaseInv, Enabled, Apply, Held, Calm, Holding, Bounded;
    if a.Work? {
      WorkHeld(s, c, a.p, i, calm);
    } else {
      HostPlaces(s, c, a, i, calm);
      forall q | q in Apply(s, c, a, i).procs
        ensures Holding(s, Apply(s, c, a, i).db, q, Apply(s, c, a, i).procs[q], calm)
      {
        HostHolding(s, c, a, i, q, calm);
      }
    }
  }

  lemma HeldIsExecution(s: Settings, trace: seq<Config>, calm: bool)
    requires HeldExecution(s, trace, calm)
    ensures Execution(s, trace)
  {
    hide Enabled, Apply, Held, Calm;
    forall n | 0 <= n < |trace| - 1
      ensures Step(s, trace[n], trace[n + 1])
    {
      assert HeldStep(s, trace[n], trace[n + 1], calm);
      var a, i := HeldTaken(s, trace[n], trace[n + 1], calm);
    }
  }

  lemma HeldTaken(s: Settings, c: Config, c': Config, calm: bool) returns (a: Action, i: Input)
    requires HeldStep(s, c, c', calm)
    ensures Enabled(c, a, i) && Held(c, a) && (calm ==> Calm(c, a)) && c' == Apply(s, c, a, i)
  {
    hide Enabled, Apply, Held, Calm;
    a, i :| Enabled(c, a, i) && Held(c, a) && (calm ==> Calm(c, a)) && c' == Apply(s, c, a, i);
  }

  lemma HeldInitial(s: Settings, calm: bool)
    ensures HeldInv(s, INITIAL_CONFIG, calm)
  {
  }

  lemma {:induction false} HeldReachable(s: Settings, trace: seq<Config>, calm: bool, n: nat)
    requires HeldExecution(s, trace, calm) && n < |trace|
    ensures Invariants(s, trace[n], calm)
  {
    hide HeldStep, QueueInv, LeaseInv, HeldInv, Execution, Enabled, Apply, Held, Calm;
    HeldIsExecution(s, trace, calm);
    ExecutionInv(s, trace, n);
    LeaseExecution(s, trace, n);
    if n == 0 {
      assert HeldInv(s, INITIAL_CONFIG, calm) by { HeldInitial(s, calm); }
    } else {
      HeldReachable(s, trace, calm, n - 1);
      assert HeldStep(s, trace[n - 1], trace[n - 1 + 1], calm);
      var a, i := HeldTaken(s, trace[n - 1], trace[n], calm);
      ApplyHeld(s, trace[n - 1], a, i, calm);
    }
  }

  // ---- what it says ---------------------------------------------------------------------

  /** (M) The step bound needs no single worker, only leases that last: while every delivery's statements are
      done by the owner of its event, no run passes `max_steps`, and a blocked one is below it. */
  lemma StepBoundHeld(s: Settings, trace: seq<Config>, n: nat, r: string)
    requires HeldExecution(s, trace, false) && n < |trace| && r in trace[n].db.runs
    ensures trace[n].db.runs[r].stepCount <= s.maxSteps
    ensures trace[n].db.runs[r].status == BLOCKED_EFFECT ==> trace[n].db.runs[r].stepCount < s.maxSteps
  {
    hide HeldExecution, QueueInv, LeaseInv, Holding;
    HeldReachable(s, trace, false, n);
    assert Bounded(s, trace[n].db.runs[r]);
  }

  predicate SameButError(a: RunRow, b: RunRow) {
    b == a.(lastError := b.lastError)
  }

  lemma NotingOnly(s: Settings, p: string, pc: PC, db: Database, h: History, i: Input, r: string)
    requires pc.NotingError? && r in db.runs
    ensures var b := Next(s, p, pc, db, h, i).db; r in b.runs && SameButError(db.runs[r], b.runs[r])
  {
    hide EventStep, DecisionStep, ToolStep, TickStep, UpdateRun;
    UpdateOne(db, pc.frame.run, None, None, Some(i.text), false, false, r);
  }

  lemma StoppedStep(s: Settings, c: Config, a: Action, i: Input, r: string, calm: bool)
    requires Invariants(s, c, calm) && Enabled(c, a, i) && Held(c, a) && r in c.db.runs && Stopped(c.db.runs[r])
    ensures var b := Apply(s, c, a, i).db;
      && r in b.runs && SameButError(c.db.runs[r], b.runs[r]) && (calm ==> b.runs[r] == c.db.runs[r])
  {
    hide QueueInv, LeaseInv, Enabled, Apply, Holding, AtStep, EventOf;
    OnlyLateUpdates(s, c, a, i, r);
    if a.Work? && Rewrites(c.db.runs[r], Pc(c, a.p), r, i.text) {
      var pc := Pc(c, a.p);
      assert a.p in c.procs && pc == c.procs[a.p] by { WorkKnown(c, a.p, i); }
      RewriterHolds(s, c, a.p, r, i.text, calm);
      WorkDb(s, c, a.p, i);
      NotingOnly(s, a.p, pc, c.db, c.hist, i, r);
    }
  }

  /** A rewriter that owns its event is not rewriting a stopped run, unless it only notes an error late. */
  lemma RewriterHolds(s: Settings, c: Config, p: string, r: string, text: string, calm: bool)
    requires Invariants(s, c, calm) && Held(c, Work(p)) && p in c.procs && r in c.db.runs && Stopped(c.db.runs[r])
    requires Rewrites(c.db.runs[r], c.procs[p], r, text)
    ensures c.procs[p].NotingError? && !calm
  {
    hide QueueOk, LeaseInv, AtStep;
    var pc := c.procs[p];
    assert PcOk(c.db, pc) && Holding(s, c.db, p, pc, calm);
    if Mover(pc, r) {
      MoverEvent(c.db, pc, r);
      MoverHolds(s, c, p, r, calm);
    } else if calm {
      NotingHolds(s, c.db, p, pc, r);
    }
  }

  lemma NotingHolds(s: Settings, db: Database, p: string, pc: PC, r: string)
    requires PcOk(db, pc) && pc.NotingError? && pc.frame.run == r && Owns(db, EventOf(pc), p) && Holding(s, db, p, pc, true)
    ensures r in db.runs && db.runs[r].status == RUNNING
  {
    hide PcPromise;
  }

  /** (M) Complete once: under the same condition a stopped run stays as it is, its status, generation and
      result; only a late note of an error may still change `last_error`. If in addition no exception
      strikes between a closing write and its acknowledgement, the whole row never changes again. */
  lemma {:induction false} StoppedStays(s: Settings, trace: seq<Config>, calm: bool, m: nat, n: nat, r: string)
    requires HeldExecution(s, trace, calm) && m <= n < |trace| && r in trace[m].db.runs && Stopped(trace[m].db.runs[r])
    ensures r in trace[n].db.runs && SameButError(trace[m].db.runs[r], trace[n].db.runs[r])
    ensures calm ==> trace[n].db.runs[r] == trace[m].db.runs[r]
    decreases n - m
  {
    hide HeldStep, Invariants, Enabled, Apply, Held, Calm;
    if m < n {
      StoppedStays(s, trace, calm, m, n - 1, r);
      HeldReachable(s, trace, calm, n - 1);
      assert HeldStep(s, trace[n - 1], trace[n - 1 + 1], calm);
      var a, i := HeldTaken(s, trace[n - 1], trace[n], calm);
      StoppedStep(s, trace[n - 1], a, i, r, calm);
    }
  }
}
