/** Environment (S), no new submissions: the queue drains. Every delivery that raises no exception
    lowers a potential carried by the live events, and with none left every run has stopped. */
module Drain {
  import opened Basics
  import opened JsonValues
  import opened Tables
  import opened Protocol
  import opened Growth
  import opened QueueSafety
  import opened AdmissionSafety
  import opened SoloInvariant

  // ---- the potential --------------------------------------------------------------------

  /** What a live event may still cause: a request its run, a step the steps after it. */
  function Weight(maxSteps: nat, work: Work): nat {
    match work
    case TaskRequested(_) => maxSteps + 3
    case RunStep(_, step) => if step <= maxSteps then maxSteps - step + 1 else 1
    case OtherWork(_, _) => 1
  }

  function RowWeight(maxSteps: nat, row: EventRow): nat {
    if row.status == DONE then 0 else Weight(maxSteps, row.work)
  }

  ghost function Potential(maxSteps: nat, events: map<string, EventRow>): nat {
    if events == map[] then 0
    else
      var e :| e in events;
      RowWeight(maxSteps, events[e]) + Potential(maxSteps, events - {e})
  }

  /** Any event may be taken out first. */
  lemma {:induction false} TakeOut(m: nat, events: map<string, EventRow>, e: string)
    requires e in events
    ensures Potential(m, events) == RowWeight(m, events[e]) + Potential(m, events - {e})
    decreases |events|
  {
    hide RowWeight;
    var first :| first in events && Potential(m, events) == RowWeight(m, events[first]) + Potential(m, events - {first});
    if first != e {
      TakeOut(m, events - {first}, e);
      TakeOut(m, events - {e}, first);
      assert events - {first} - {e} == events - {e} - {first};
    }
  }

  lemma PutIn(m: nat, events: map<string, EventRow>, e: string, row: EventRow)
    ensures Potential(m, events[e := row])
            == Potential(m, events) + RowWeight(m, row) - (if e in events then RowWeight(m, events[e]) else 0)
  {
    hide RowWeight, Potential;
    var events' := events[e := row];
    TakeOut(m, events', e);
    if e in events {
      TakeOut(m, events, e);
      assert events' - {e} == events - {e};
    } else {
      assert events' - {e} == events;
    }
  }

  lemma {:induction false} NothingLive(m: nat, events: map<string, EventRow>, e: string)
    requires Potential(m, events) == 0 && e in events
    ensures events[e].status == DONE
  {
    TakeOut(m, events, e);
  }

  ghost function PotentialOf(s: Settings, db: Database): nat {
    Potential(s.maxSteps, db.events)
  }

  // ---- statements -----------------------------------------------------------------------

  lemma EnqueueStepCost(s: Settings, db: Database, newId: string, run: string, step: nat, priority: int, now: int)
    ensures var r := EnqueueStep(db, newId, run, step, priority, now);
      r.Some? ==> PotentialOf(s, r.value) <= PotentialOf(s, db) + Weight(s.maxSteps, RunStep(run, step))
  {
    hide Potential, Weight;
    PutIn(s.maxSteps, db.events, newId,
          EventRow(RunStep(run, step), priority, Some(RunStepKey(run, step)), PENDING, now, None, None, 0, now));
  }

  lemma CreateCost(s: Settings, db: Database, newRun: string, newEvent: string, task: string,
                   capabilities: set<string>, source: Option<string>, priority: int, now: int)
    ensures var r := CreateRunWithInitialStep(db, newRun, newEvent, task, capabilities, source, priority, now);
      r.Some? ==> PotentialOf(s, r.value.db) <= PotentialOf(s, db) + s.maxSteps + 1
  {
    hide EnqueueStep, Potential;
    var created := CreateRun(db, newRun, task, capabilities, source);
    if created.Some? {
      EnqueueStepCost(s, created.value.db, newEvent, created.value.run, 0, priority, now);
    }
  }

  lemma AdvanceCost(s: Settings, db: Database, run: string, step: nat, newEvent: string, priority: int, now: int)
    requires step < s.maxSteps
    ensures var r := AdvanceRunStep(db, run, step, newEvent, priority, now);
      r.Some? ==> PotentialOf(s, r.value) < PotentialOf(s, db) + Weight(s.maxSteps, RunStep(run, step))
  {
    hide EnqueueStep, Potential;
    if run in db.runs {
      var row := db.runs[run].(stepCount := step + 1, lastError := None);
      EnqueueStepCost(s, db.(runs := db.runs[run := row]), newEvent, run, step + 1, priority, now);
    }
  }

  lemma ClaimCost(s: Settings, db: Database, e: string, worker: string, now: int)
    requires e in db.events && db.events[e].status != DONE
    ensures PotentialOf(s, Claim(db, e, worker, now, s.lease)) == PotentialOf(s, db)
  {
    hide Potential, Weight;
    var row := db.events[e];
    PutIn(s.maxSteps, db.events, e, row.(status := CLAIMED, leaseOwner := Some(worker),
                                         leaseUntil := Some(now + s.lease), attempts := row.attempts + 1));
  }

  lemma AckCost(s: Settings, db: Database, e: string, worker: string)
    requires Owns(db, e, worker)
    ensures PotentialOf(s, Acknowledge(db, e, worker).value) + Weight(s.maxSteps, db.events[e].work) == PotentialOf(s, db)
  {
    hide Potential, Weight;
    PutIn(s.maxSteps, db.events, e, db.events[e].(status := DONE, leaseOwner := None, leaseUntil := None));
  }

  // ---- one delivery ---------------------------------------------------------------------

  /** The counters of `run_once` between the claim and the closing statement. */
  predicate Delivering(pc: PC) {
    pc.Rejecting? || pc.Submitting? || pc.Loading? || pc.FailingMaxSteps?
    || (FramePhase(pc) && !Exceptional(pc) && !pc.BlockJournaling?) || (CallPhase(pc) && pc.caller.FromStep?)
  }

  /** The delivery has raised. */
  predicate Exceptional(pc: PC) {
    pc.NotingError? || pc.Requeueing? || pc.RequeueJournaling? || pc.Aborted?
  }

  predicate Closing(pc: PC) {
    pc.Acking? || pc.BlockJournaling?
  }

  function ClosingEvent(pc: PC): string
    requires Closing(pc)
  {
    if pc.Acking? then pc.visit.event else pc.frame.visit.event
  }

  /** The potential against its value at the claim: unchanged, then up by less than the event's
      own weight, then lower. */
  ghost predicate Budgeted(s: Settings, db: Database, pc: PC, start: nat) {
    if Exceptional(pc) then true
    else if Delivering(pc) then PotentialOf(s, db) == start
    else if Closing(pc) then
      && ClosingEvent(pc) in db.events
      && PotentialOf(s, db) < start + Weight(s.maxSteps, db.events[ClosingEvent(pc)].work)
    else (pc.AckJournaling? || pc.Idle?) && PotentialOf(s, db) < start
  }

  lemma EventStepBudget(s: Settings, p: string, pc: PC, db: Database, h: History, i: Input, start: nat)
    requires EventPhase(pc) && PcOk(db, pc) && Budgeted(s, db, pc, start)
    ensures var r := EventStep(p, pc, db, h, i); Budgeted(s, r.db, r.pc, start)
  {
    hide Potential, CreateRunWithInitialStep, AdmitTask, Acknowledge, Requeue, Answered, Left, FramesHeld, Backoff, Grows;
    if pc.Rejecting? {
      assert db.events[pc.visit.event].work.TaskRequested?;
    } else if pc.Submitting? {
      CreateCost(s, db, i.newRun, i.newEvent, pc.task, pc.capabilities, Some(pc.visit.event), 0, pc.visit.now);
      CreateGrows(db, i.newRun, i.newEvent, pc.task, pc.capabilities, Some(pc.visit.event), 0, pc.visit.now);
      var r := EventStep(p, pc, db, h, i);
      if r.pc.Acking? { EventIdentity(db, r.db, pc.visit.event); }
    } else if pc.Acking? && Acknowledge(db, pc.visit.event, p).Some? {
      assert Owns(db, pc.visit.event, p) by { AckOwns(db, pc.visit.event, p); }
      AckCost(s, db, pc.visit.event, p);
    }
  }

  lemma AckOwns(db: Database, e: string, p: string)
    requires Acknowledge(db, e, p).Some?
    ensures Owns(db, e, p)
  {
  }

  lemma DecisionStepBudget(s: Settings, pc: PC, db: Database, h: History, i: Input, start: nat)
    requires DecisionPhase(pc) && PcOk(db, pc) && Budgeted(s, db, pc, start)
    ensures var r := DecisionStep(s, pc, db, h, i); Budgeted(s, r.db, r.pc, start)
  {
    hide Potential, RecordDecision, RecordMessage, Answered, Left;
    if pc.RecordingCall? || pc.RecordingFinal? {
      DecisionMessageFrame(s, pc, db, h, i);
    } else if !pc.FailingMaxSteps? {
      DecisionStepFrame(s, pc, db, h, i);
    }
  }

  lemma ClosingStepBudget(s: Settings, pc: PC, db: Database, h: History, i: Input, start: nat)
    requires ClosingPhase(pc) && PcOk(db, pc) && Budgeted(s, db, pc, start)
    requires pc.Advancing? ==> pc.frame.step < s.maxSteps
    ensures var r := ClosingStep(pc, db, h, i); Budgeted(s, r.db, r.pc, start)
  {
    hide Potential, AdvanceRunStep, ResumeRun, Answered, Left, Grows;
    if pc.Advancing? {
      var f := pc.frame;
      AdvanceCost(s, db, f.run, f.step, i.newEvent, f.visit.priority, f.visit.now);
      AdvanceGrows(db, f.run, f.step, i.newEvent, f.visit.priority, f.visit.now);
      var r := ClosingStep(pc, db, h, i);
      if r.pc.Acking? { EventIdentity(db, r.db, f.visit.event); }
    }
  }

  lemma ToolStepBudget(s: Settings, pc: PC, db: Database, h: History, i: Input, start: nat)
    requires ToolPhase(pc) && PcOk(db, pc) && Budgeted(s, db, pc, start)
    ensures var r := ToolStep(s, pc, db, h, i); Budgeted(s, r.db, r.pc, start)
  {
    hide Potential, Weight, Admissible, AdmitEffect, SetEffect, MarkUnknown, RecordMessage, AddCompletion, SameLedger;
    hide PcPromise, StoredCall, FrameHeld;
    ToolStepFrame(s, pc, db, h, i);
  }

  lemma NextBudget(s: Settings, p: string, pc: PC, db: Database, h: History, i: Input, start: nat)
    requires PcOk(db, pc) && PcSolo(s, ViewOf(db, h), pc) && Budgeted(s, db, pc, start)
    ensures var r := Next(s, p, pc, db, h, i); Budgeted(s, r.db, r.pc, start) || pc.Idle? || Exceptional(pc)
  {
    hide PcOk, EffectPromise, Potential, EventStep, DecisionStep, ClosingStep, ToolStep, TickStep;
    if Exceptional(pc) {
    } else if EventPhase(pc) {
      EventStepBudget(s, p, pc, db, h, i, start);
    } else if DecisionPhase(pc) {
      DecisionStepBudget(s, pc, db, h, i, start);
    } else if ClosingPhase(pc) {
      ClosingStepBudget(s, pc, db, h, i, start);
    } else if ToolPhase(pc) {
      ToolStepBudget(s, pc, db, h, i, start);
    }
  }

  /** `p` claims an event. */
  ghost predicate Claims(s: Settings, c: Config, c': Config, p: string) {
    hide Enabled, Apply;
    exists i: Input :: i.choice.Some? && Enabled(c, ClaimNext(p), i) && c' == Apply(s, c, ClaimNext(p), i)
  }

  /** `p` executes its next statement. */
  ghost predicate Works(s: Settings, c: Config, c': Config, p: string) {
    hide Enabled, Apply;
    exists i: Input :: Enabled(c, Work(p), i) && c' == Apply(s, c, Work(p), i)
  }

  /** No submission: the queue and the counter of `p` stand still. */
  predicate Elsewhere(c: Config, c': Config, p: string) {
    c'.db.events == c.db.events && Pc(c', p) == Pc(c, p)
  }

  /** One exception-free `run_once` of `p`, from its claim to its return; steps that touch neither
      the queue nor `p` may come between its statements. */
  ghost predicate Delivery(s: Settings, trace: seq<Config>, from: nat, to: nat, p: string) {
    && from < to < |trace| && Claims(s, trace[from], trace[from + 1], p)
    && (forall k: nat | from < k < to :: Works(s, trace[k], trace[k + 1], p) || Elsewhere(trace[k], trace[k + 1], p))
    && (forall k: nat | from < k <= to :: !Exceptional(Pc(trace[k], p)))
    && (forall k: nat | from < k < to :: !Pc(trace[k], p).Idle?)
    && Pc(trace[to], p).Idle?
  }

  lemma ClaimBudget(s: Settings, c: Config, c': Config, p: string)
    requires QueueInv(c) && Claims(s, c, c', p)
    ensures Budgeted(s, c'.db, Pc(c', p), PotentialOf(s, c.db))
  {
    hide QueueInv, Potential, AdmitTask, BestEligible, Dispatch;
    var i: Input :| i.choice.Some? && Enabled(c, ClaimNext(p), i) && c' == Apply(s, c, ClaimNext(p), i);
    var id := i.choice.value;
    assert id in c.db.events && c.db.events[id].status != DONE by { Chosen(c.db, id, i.now); }
    ClaimCost(s, c.db, id, p, i.now);
    DispatchBudget(s, c'.db, Visit(id, c.db.events[id].priority, c.db.events[id].attempts + 1, i.now), c.db.events[id].work);
  }

  lemma Chosen(db: Database, id: string, now: int)
    requires BestEligible(db, id, now)
    ensures id in db.events && db.events[id].status != DONE
  {
  }

  lemma DispatchBudget(s: Settings, db: Database, v: Visit, work: Work)
    requires v.event in db.events
    ensures Budgeted(s, db, Dispatch(v, work), PotentialOf(s, db))
  {
    hide Potential, AdmitTask;
  }

  lemma WorkBudget(s: Settings, c: Config, c': Config, p: string, start: nat)
    requires QueueInv(c) && SoloInv(s, c) && Works(s, c, c', p) && !Exceptional(Pc(c, p))
    requires Budgeted(s, c.db, Pc(c, p), start)
    ensures Budgeted(s, c'.db, Pc(c', p), start)
  {
    hide QueueOk, PcOk, SoloDb, PcSolo, Completions, Potential, Next, Budgeted, Solo;
    var i: Input :| Enabled(c, Work(p), i) && c' == Apply(s, c, Work(p), i);
    WorkKnown(c, p, i);
    NextBudget(s, p, c.procs[p], c.db, c.hist, i, start);
  }

  lemma ElsewhereBudget(s: Settings, c: Config, c': Config, p: string, start: nat)
    requires Elsewhere(c, c', p) && Budgeted(s, c.db, Pc(c, p), start)
    ensures Budgeted(s, c'.db, Pc(c', p), start)
  {
    hide Potential;
  }

  lemma {:induction false} DeliveryBudget(s: Settings, trace: seq<Config>, from: nat, to: nat, p: string, k: nat)
    requires SoloExecution(s, trace) && Delivery(s, trace, from, to, p) && from < k <= to
    ensures Budgeted(s, trace[k].db, Pc(trace[k], p), PotentialOf(s, trace[from].db))
    decreases k
  {
    hide SoloExecution, Execution, QueueInv, SoloInv, AdmissionInv, Budgeted, Exceptional, Works, Claims, Elsewhere, Potential;
    SoloIsExecution(s, trace);
    ExecutionInv(s, trace, k - 1);
    if k == from + 1 {
      ClaimBudget(s, trace[from], trace[k], p);
    } else {
      DeliveryBudget(s, trace, from, to, p, k - 1);
      SoloReachable(s, trace, k - 1);
      if Works(s, trace[k - 1], trace[k - 1 + 1], p) {
        WorkBudget(s, trace[k - 1], trace[k], p, PotentialOf(s, trace[from].db));
      } else {
        ElsewhereBudget(s, trace[k - 1], trace[k], p, PotentialOf(s, trace[from].db));
      }
    }
  }

  /** Every `run_once` that claims an event and raises nothing strictly lowers the potential. */
  lemma DeliveryLowers(s: Settings, trace: seq<Config>, from: nat, to: nat, p: string)
    requires SoloExecution(s, trace) && Delivery(s, trace, from, to, p)
    ensures PotentialOf(s, trace[to].db) < PotentialOf(s, trace[from].db)
  {
    hide SoloExecution, Potential, Works, Claims, Elsewhere;
    DeliveryBudget(s, trace, from, to, p, to);
  }

  // ---- a whole drain --------------------------------------------------------------------

  datatype Span = Span(p: string, from: nat, to: nat)

  /** A run of deliveries one after the other, with a standing queue between them. */
  ghost predicate Drains(s: Settings, trace: seq<Config>, spans: seq<Span>) {
    && (forall j: nat | j < |spans| :: Delivery(s, trace, spans[j].from, spans[j].to, spans[j].p))
    && (forall j: nat | 0 < j < |spans| ::
          && spans[j - 1].to <= spans[j].from
          && trace[spans[j].from].db.events == trace[spans[j - 1].to].db.events)
  }

  lemma {:induction false} EachLowers(s: Settings, trace: seq<Config>, spans: seq<Span>, j: nat)
    requires SoloExecution(s, trace) && Drains(s, trace, spans) && j < |spans|
    ensures spans[j].to < |trace|
    ensures PotentialOf(s, trace[spans[j].to].db) + j + 1 <= PotentialOf(s, trace[spans[0].from].db)
  {
    hide SoloExecution, Potential;
    DeliveryLowers(s, trace, spans[j].from, spans[j].to, spans[j].p);
    if j > 0 {
      EachLowers(s, trace, spans, j - 1);
    }
  }

  /** Without new submissions there are at most as many exception-free deliveries as the potential
      says, and at the end the potential has gone down by at least their number. */
  lemma QueueDrains(s: Settings, trace: seq<Config>, spans: seq<Span>)
    requires SoloExecution(s, trace) && Drains(s, trace, spans) && spans != []
    ensures var last := spans[|spans| - 1].to;
      last < |trace| && PotentialOf(s, trace[last].db) + |spans| <= PotentialOf(s, trace[spans[0].from].db)
  {
    hide SoloExecution, Drains, Potential;
    EachLowers(s, trace, spans, |spans| - 1);
  }

  /** At zero live events every run is COMPLETED, FAILED or BLOCKED_EFFECT. */
  lemma DrainedIsStopped(s: Settings, trace: seq<Config>, n: nat, run: string)
    requires Execution(s, trace) && n < |trace| && run in trace[n].db.runs
    requires PotentialOf(s, trace[n].db) == 0
    ensures trace[n].db.runs[run].status in {COMPLETED, FAILED, BLOCKED_EFFECT}
  {
    hide Execution, Potential;
    NoStrandedRun(s, trace, n, run);
    var db := trace[n].db;
    if db.runs[run].status == RUNNING {
      var e :| Live(db, e, run, db.runs[run].stepCount);
      NothingLive(s.maxSteps, db.events, e);
    }
  }
}
