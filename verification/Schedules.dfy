/** Environment (M): recurring schedules. For any tick times, a crash between the enqueues and the
    `next_at` update, and overlapping tickers, occurrences are emitted once, never early and never
    skipped. */
module Schedules {
  import opened Basics
  import opened Tables
  import opened Protocol
  import opened Growth
  import opened QueueSafety

  /** The tables and history the argument is about. */
  datatype Plan = Plan(
    events: map<string, EventRow>, keys: map<DedupKey, string>, schedules: map<string, ScheduleRow>,
    origins: map<string, int>)

  function PlanOf(db: Database, h: History): Plan {
    Plan(db.events, db.eventKeys, db.schedules, h.origins)
  }

  predicate Recurring(v: Plan, id: string) {
    id in v.origins && id in v.schedules && v.schedules[id].every.Some? && v.schedules[id].every.value > 0
  }

  /** Point `k` of a grid. */
  function Nth(first: int, every: int, k: nat): int {
    first + k * every
  }

  function GridPoint(v: Plan, id: string, k: nat): int {
    if Recurring(v, id) then Nth(v.origins[id], v.schedules[id].every.value, k) else 0
  }

  /** The event of one occurrence: the schedule's work, under the occurrence's key, enqueued no
      earlier than the occurrence. */
  predicate Emitted(v: Plan, id: string, at: int) {
    && id in v.schedules && OccurrenceKey(id, at) in v.keys
    && v.keys[OccurrenceKey(id, at)] in v.events
    && var row := v.events[v.keys[OccurrenceKey(id, at)]];
       row.work == v.schedules[id].work && row.priority == 0 && at <= row.createdAt
       && row.dedup == Some(OccurrenceKey(id, at))
  }

  ghost predicate Covered(v: Plan, id: string, n: nat) {
    forall k: nat | k < n :: Emitted(v, id, GridPoint(v, id, k))
  }

  /** `at` is grid point `n` and everything below has its event. */
  ghost predicate Reached(v: Plan, id: string, at: int) {
    exists n: nat :: at == GridPoint(v, id, n) && Covered(v, id, n)
  }

  ghost predicate OnGrid(v: Plan, id: string, at: int) {
    exists n: nat :: at == GridPoint(v, id, n)
  }

  ghost predicate ScheduleOk(v: Plan, id: string)
    requires id in v.schedules
  {
    Recurring(v, id) && Reached(v, id, v.schedules[id].nextAt)
  }

  ghost predicate KeyOk(v: Plan, key: DedupKey) {
    key.OccurrenceKey? ==> Recurring(v, key.schedule) && OnGrid(v, key.schedule, key.at) && Emitted(v, key.schedule, key.at)
  }

  ghost predicate PlanOk(v: Plan) {
    && (forall id | id in v.schedules :: ScheduleOk(v, id))
    && (forall key | key in v.keys :: KeyOk(v, key))
  }

  // ---- program counters -----------------------------------------------------------------

  /** A row a ticker read earlier: its identity is current, its `next_at` was right then. */
  ghost predicate DueOk(v: Plan, now: int, due: Due) {
    && Recurring(v, due.id) && SameSchedule(due.row, v.schedules[due.id])
    && due.row.nextAt <= now && Reached(v, due.id, due.row.nextAt)
  }

  predicate SameSchedule(a: ScheduleRow, b: ScheduleRow) {
    a.work == b.work && a.every == b.every
  }

  /** `pending` are the last points before `nextAt`, due by `now`; the ones before them are emitted. */
  ghost predicate PendingAt(v: Plan, now: int, id: string, pending: seq<int>, nextAt: int, n: nat) {
    && |pending| <= n && nextAt == GridPoint(v, id, n) && Covered(v, id, n - |pending|)
    && Consecutive(v, now, id, pending, n - |pending|)
  }

  /** `pending` holds the grid points from number `from`, none after `now`. */
  ghost predicate Consecutive(v: Plan, now: int, id: string, pending: seq<int>, from: nat) {
    forall j: nat | j < |pending| :: pending[j] == GridPoint(v, id, from + j) && pending[j] <= now
  }

  ghost predicate PendingOk(v: Plan, now: int, id: string, pending: seq<int>, nextAt: int) {
    exists n: nat :: PendingAt(v, now, id, pending, nextAt, n)
  }

  ghost predicate PcPlan(v: Plan, pc: PC) {
    && (TickPhase(pc) ==> forall j | 0 <= j < |pc.tick.rows| :: DueOk(v, pc.tick.now, pc.tick.rows[j]))
    && (pc.Emitting? || pc.EmitJournaling? ==>
          && Recurring(v, pc.due.id) && SameSchedule(pc.due.row, v.schedules[pc.due.id])
          && PendingOk(v, pc.tick.now, pc.due.id, pc.pending, pc.nextAt))
  }

  // ---- the tables may only grow ---------------------------------------------------------

  predicate EventSame(a: EventRow, b: EventRow) {
    a.work == b.work && a.priority == b.priority && a.dedup == b.dedup && a.createdAt == b.createdAt
  }

  /** Everything but new rows and `next_at` is as before. */
  ghost predicate Extends(a: Plan, b: Plan) {
    && SubMap(a.keys, b.keys)
    && (forall e | e in a.events :: e in b.events && EventSame(a.events[e], b.events[e]))
    && (forall id | id in a.schedules :: id in b.schedules && SameSchedule(a.schedules[id], b.schedules[id]))
    && (forall id | id in a.schedules && id in a.origins :: id in b.origins && b.origins[id] == a.origins[id])
  }

  lemma EmittedLater(a: Plan, b: Plan, id: string, at: int)
    requires Extends(a, b) && Emitted(a, id, at)
    ensures Emitted(b, id, at)
  {
  }

  lemma GridSame(a: Plan, b: Plan, id: string, k: nat)
    requires Extends(a, b) && Recurring(a, id)
    ensures Recurring(b, id) && GridPoint(b, id, k) == GridPoint(a, id, k)
  {
  }

  lemma CoveredLater(a: Plan, b: Plan, id: string, n: nat)
    requires Extends(a, b) && Recurring(a, id) && Covered(a, id, n)
    ensures Covered(b, id, n)
  {
    hide Extends, Emitted, GridPoint;
    forall k: nat | k < n
      ensures Emitted(b, id, GridPoint(b, id, k))
    {
      GridSame(a, b, id, k);
      EmittedLater(a, b, id, GridPoint(a, id, k));
    }
  }

  lemma ReachedLater(a: Plan, b: Plan, id: string, at: int)
    requires Extends(a, b) && Recurring(a, id)
    ensures Reached(a, id, at) ==> Reached(b, id, at)
    ensures OnGrid(a, id, at) ==> OnGrid(b, id, at)
  {
    hide Extends, GridPoint, Covered;
    if OnGrid(a, id, at) {
      var n: nat :| at == GridPoint(a, id, n);
      GridSame(a, b, id, n);
    }
    if Reached(a, id, at) {
      var n: nat :| at == GridPoint(a, id, n) && Covered(a, id, n);
      GridSame(a, b, id, n);
      CoveredLater(a, b, id, n);
    }
  }

  lemma PendingLater(a: Plan, b: Plan, now: int, id: string, pending: seq<int>, nextAt: int)
    requires Extends(a, b) && Recurring(a, id) && PendingOk(a, now, id, pending, nextAt)
    ensures PendingOk(b, now, id, pending, nextAt)
  {
    hide Extends, GridPoint, Covered;
    var n: nat :| PendingAt(a, now, id, pending, nextAt, n);
    var from: nat := n - |pending|;
    GridSame(a, b, id, n);
    CoveredLater(a, b, id, from);
    forall j: nat | j < |pending|
      ensures pending[j] == GridPoint(b, id, from + j) && pending[j] <= now
    {
      GridSame(a, b, id, from + j);
    }
    assert PendingAt(b, now, id, pending, nextAt, n);
  }

  lemma PcLater(a: Plan, b: Plan, pc: PC)
    requires Extends(a, b) && PcPlan(a, pc)
    ensures PcPlan(b, pc)
  {
    hide Reached, PendingOk;
    if TickPhase(pc) {
      forall j | 0 <= j < |pc.tick.rows|
        ensures DueOk(b, pc.tick.now, pc.tick.rows[j])
      {
        var due := pc.tick.rows[j];
        assert DueOk(a, pc.tick.now, due);
        ReachedLater(a, b, due.id, due.row.nextAt);
      }
      if !pc.Ticking? {
        PendingLater(a, b, pc.tick.now, pc.due.id, pc.pending, pc.nextAt);
      }
    }
  }

  lemma KeyLater(a: Plan, b: Plan, key: DedupKey)
    requires Extends(a, b) && KeyOk(a, key)
    ensures KeyOk(b, key)
  {
    hide Extends, Emitted, OnGrid, Recurring;
    if key.OccurrenceKey? {
      ReachedLater(a, b, key.schedule, key.at);
      EmittedLater(a, b, key.schedule, key.at);
      GridSame(a, b, key.schedule, 0);
    }
  }

  /** New rows and keys that are no occurrences keep the plan. */
  lemma PlanLater(a: Plan, b: Plan)
    requires Extends(a, b) && PlanOk(a) && b.schedules == a.schedules
    requires forall key | key in b.keys && key.OccurrenceKey? :: key in a.keys
    ensures PlanOk(b)
  {
    hide Extends, KeyOk, Reached, Recurring;
    forall id | id in b.schedules
      ensures ScheduleOk(b, id)
    {
      assert ScheduleOk(a, id);
      ReachedLater(a, b, id, a.schedules[id].nextAt);
      GridSame(a, b, id, 0);
    }
    forall key | key in b.keys
      ensures KeyOk(b, key)
    {
      if key.OccurrenceKey? {
        KeyLater(a, b, key);
      } else {
        OtherKey(b, key);
      }
    }
  }

  lemma OtherKey(v: Plan, key: DedupKey)
    requires !key.OccurrenceKey?
    ensures KeyOk(v, key)
  {
  }

  // ---- the ticker's arithmetic ----------------------------------------------------------

  lemma NextPoint(v: Plan, id: string, n: nat)
    requires Recurring(v, id)
    ensures GridPoint(v, id, n + 1) == GridPoint(v, id, n) + v.schedules[id].every.value
  {
  }

  lemma {:induction false} PointsAhead(v: Plan, id: string, n: nat, m: nat)
    requires Recurring(v, id)
    ensures GridPoint(v, id, n + m) == GridPoint(v, id, n) + m * v.schedules[id].every.value
  {
    if m > 0 {
      PointsAhead(v, id, n, m - 1);
      NextPoint(v, id, n + m - 1);
    }
  }

  /** The inner loop of `tick` collects consecutive grid points, none after `now`. */
  lemma {:induction false} OccurrencesOnGrid(v: Plan, id: string, n: nat, now: int, room: int)
    requires Recurring(v, id)
    ensures Consecutive(v, now, id, Occurrences(GridPoint(v, id, n), v.schedules[id].every.value, now, room), n)
    decreases if room > 0 then room else 0
  {
    hide GridPoint;
    if room > 0 && GridPoint(v, id, n) <= now {
      NextPoint(v, id, n);
      OccurrencesOnGrid(v, id, n + 1, now, room - 1);
      var every := v.schedules[id].every.value;
      Prepend(v, id, n, now, Occurrences(GridPoint(v, id, n + 1), every, now, room - 1));
    }
  }

  lemma Prepend(v: Plan, id: string, n: nat, now: int, rest: seq<int>)
    requires Consecutive(v, now, id, rest, n + 1) && GridPoint(v, id, n) <= now
    ensures Consecutive(v, now, id, [GridPoint(v, id, n)] + rest, n)
  {
    hide GridPoint;
    var pending := [GridPoint(v, id, n)] + rest;
    forall j: nat | j < |pending|
      ensures pending[j] == GridPoint(v, id, n + j) && pending[j] <= now
    {
      if j > 0 {
        assert rest[j - 1] == GridPoint(v, id, n + 1 + (j - 1));
      }
    }
  }

  lemma StartRow(v: Plan, now: int, due: Due, room: int)
    requires DueOk(v, now, due)
    ensures var pending := Occurrences(due.row.nextAt, due.row.every.value, now, room);
      PendingOk(v, now, due.id, pending, due.row.nextAt + |pending| * due.row.every.value)
  {
    hide GridPoint, Covered, Consecutive;
    var pending := Occurrences(due.row.nextAt, due.row.every.value, now, room);
    var n: nat :| due.row.nextAt == GridPoint(v, due.id, n) && Covered(v, due.id, n);
    OccurrencesOnGrid(v, due.id, n, now, room);
    PointsAhead(v, due.id, n, |pending|);
    assert PendingAt(v, now, due.id, pending, due.row.nextAt + |pending| * due.row.every.value, n + |pending|);
  }

  /** Emitting the first pending point. */
  lemma EmitOne(v: Plan, now: int, id: string, pending: seq<int>, nextAt: int)
    requires Recurring(v, id) && pending != [] && PendingOk(v, now, id, pending, nextAt)
    ensures OnGrid(v, id, pending[0]) && pending[0] <= now
    ensures Emitted(v, id, pending[0]) ==> PendingOk(v, now, id, pending[1..], nextAt)
  {
    hide GridPoint, Emitted;
    var n: nat :| PendingAt(v, now, id, pending, nextAt, n);
    var from: nat := n - |pending|;
    assert pending[0] == GridPoint(v, id, from + 0) && pending[0] <= now;
    if Emitted(v, id, pending[0]) {
      var rest := pending[1..];
      forall j: nat | j < |rest|
        ensures rest[j] == GridPoint(v, id, from + 1 + j) && rest[j] <= now
      {
        assert rest[j] == pending[j + 1] && pending[j + 1] == GridPoint(v, id, from + (j + 1));
      }
      forall k: nat | k < from + 1
        ensures Emitted(v, id, GridPoint(v, id, k))
      {
        if k == from { assert Emitted(v, id, GridPoint(v, id, from + 0)); }
      }
      assert PendingAt(v, now, id, rest, nextAt, n);
    }
  }

  /** Writing `next_at` once nothing is pending. */
  lemma MoveOn(v: Plan, now: int, id: string, nextAt: int, b: Plan)
    requires PlanOk(v) && Recurring(v, id) && PendingOk(v, now, id, [], nextAt)
    requires b == v.(schedules := v.schedules[id := v.schedules[id].(nextAt := nextAt)])
    ensures PlanOk(b) && Extends(v, b)
  {
    hide KeyOk, Covered, Emitted, GridPoint;
    forall x | x in b.schedules
      ensures ScheduleOk(b, x)
    {
      assert ScheduleOk(v, x);
      ReachedLater(v, b, x, b.schedules[x].nextAt);
      if x == id {
        var n: nat :| PendingAt(v, now, id, [], nextAt, n);
        assert Reached(v, id, nextAt);
      }
    }
    forall key | key in b.keys
      ensures KeyOk(b, key)
    {
      KeyLater(v, b, key);
    }
  }

  /** Inserting the event of one occurrence. */
  lemma Emit(v: Plan, now: int, id: string, at: int, e: string, row: EventRow, b: Plan)
    requires PlanOk(v) && Recurring(v, id) && OnGrid(v, id, at) && at <= now
    requires e !in v.events && OccurrenceKey(id, at) !in v.keys
    requires row.work == v.schedules[id].work && row.priority == 0 && row.createdAt == now
    requires row.dedup == Some(OccurrenceKey(id, at))
    requires b == v.(events := v.events[e := row], keys := v.keys[OccurrenceKey(id, at) := e])
    ensures PlanOk(b) && Extends(v, b) && Emitted(b, id, at)
  {
    hide Reached, OnGrid, GridPoint;
    assert Extends(v, b);
    forall x | x in b.schedules
      ensures ScheduleOk(b, x)
    {
      assert ScheduleOk(v, x);
      ReachedLater(v, b, x, v.schedules[x].nextAt);
    }
    forall key | key in b.keys
      ensures KeyOk(b, key)
    {
      if key == OccurrenceKey(id, at) {
        ReachedLater(v, b, id, at);
      } else {
        KeyLater(v, b, key);
      }
    }
  }

  lemma TickStepPlan(pc: PC, db: Database, h: History, i: Input)
    requires TickPhase(pc) && PlanOk(PlanOf(db, h)) && PcPlan(PlanOf(db, h), pc)
    ensures var r := TickStep(pc, db, h, i); var b := PlanOf(r.db, r.hist);
      PlanOk(b) && Extends(PlanOf(db, h), b) && PcPlan(b, r.pc)
  {
    hide PlanOk, Extends, PcPlan;
    PlanSame(PlanOf(db, h));
    var r := TickStep(pc, db, h, i);
    if pc.EmitJournaling? {
      assert PlanOf(r.db, r.hist) == PlanOf(db, h);
      assert PcPlan(PlanOf(db, h), r.pc) by { JournaledPlan(PlanOf(db, h), pc, r.pc); }
    } else if pc.Ticking? {
      TickingPlan(pc, db, h, i);
    } else if pc.pending == [] {
      ReschedulePlan(pc, db, h, i);
    } else {
      EmittingPlan(pc, db, h, i);
    }
  }

  lemma PlanSame(v: Plan)
    ensures Extends(v, v)
  {
  }

  lemma JournaledPlan(v: Plan, pc: PC, next: PC)
    requires pc.EmitJournaling? && next == Emitting(pc.tick, pc.due, pc.pending, pc.nextAt) && PcPlan(v, pc)
    ensures PcPlan(v, next)
  {
    hide DueOk, PendingOk;
  }

  lemma TickingPlan(pc: PC, db: Database, h: History, i: Input)
    requires pc.Ticking? && PcPlan(PlanOf(db, h), pc)
    ensures var r := TickStep(pc, db, h, i); PlanOf(r.db, r.hist) == PlanOf(db, h) && PcPlan(PlanOf(db, h), r.pc)
  {
    hide Reached, PendingOk, Occurrences;
    if pc.tick.rows != [] {
      var due := pc.tick.rows[0];
      assert DueOk(PlanOf(db, h), pc.tick.now, due);
      StartRow(PlanOf(db, h), pc.tick.now, due, pc.tick.cap - pc.tick.emitted);
    }
  }

  lemma ReschedulePlan(pc: PC, db: Database, h: History, i: Input)
    requires pc.Emitting? && pc.pending == [] && PlanOk(PlanOf(db, h)) && PcPlan(PlanOf(db, h), pc)
    ensures var r := TickStep(pc, db, h, i); var b := PlanOf(r.db, r.hist);
      PlanOk(b) && Extends(PlanOf(db, h), b) && PcPlan(b, r.pc)
  {
    hide PlanOk, Extends, DueOk, PendingOk;
    var v := PlanOf(db, h);
    var r := TickStep(pc, db, h, i);
    var b := PlanOf(r.db, r.hist);
    MoveOn(v, pc.tick.now, pc.due.id, pc.nextAt, b);
    assert PcPlan(b, Ticking(pc.tick)) by {
      assert PcPlan(v, Ticking(pc.tick));
      PcLater(v, b, Ticking(pc.tick));
    }
  }

  lemma EmittingPlan(pc: PC, db: Database, h: History, i: Input)
    requires pc.Emitting? && pc.pending != [] && PlanOk(PlanOf(db, h)) && PcPlan(PlanOf(db, h), pc)
    ensures var r := TickStep(pc, db, h, i); var b := PlanOf(r.db, r.hist);
      PlanOk(b) && Extends(PlanOf(db, h), b) && PcPlan(b, r.pc)
  {
    hide PlanOk, Extends, DueOk, PendingOk, PcPlan, OnGrid, Reached, Covered, Emitted, Recurring, KeyOk;
    var v := PlanOf(db, h);
    var at := pc.pending[0];
    var due := pc.due;
    var t' := pc.tick.(emitted := pc.tick.emitted + 1);
    var r := TickStep(pc, db, h, i);
    var b := PlanOf(r.db, r.hist);
    EmittingParts(v, pc);
    EmitOne(v, pc.tick.now, due.id, pc.pending, pc.nextAt);
    var outcome := Enqueue(db, i.newEvent, due.row.work, 0, Some(OccurrenceKey(due.id, at)), pc.tick.now, at);
    if outcome.Inserted? {
      var row := EventRow(due.row.work, 0, Some(OccurrenceKey(due.id, at)), PENDING, at, None, None, 0, pc.tick.now);
      Emit(v, pc.tick.now, due.id, at, i.newEvent, row, b);
      PcLater(v, b, pc);
      EmittingParts(b, pc);
      EmitOne(b, pc.tick.now, due.id, pc.pending, pc.nextAt);
    } else {
      PlanSame(v);
      if outcome.Reused? { KeyEmitted(v, OccurrenceKey(due.id, at)); }
    }
    EmittingNext(b, pc, r.pc);
  }

  lemma EmittingParts(v: Plan, pc: PC)
    requires pc.Emitting? && PcPlan(v, pc)
    ensures Recurring(v, pc.due.id) && SameSchedule(pc.due.row, v.schedules[pc.due.id])
    ensures PendingOk(v, pc.tick.now, pc.due.id, pc.pending, pc.nextAt)
  {
    hide DueOk, PendingOk, Recurring;
  }

  lemma KeyEmitted(v: Plan, key: DedupKey)
    requires PlanOk(v) && key in v.keys && key.OccurrenceKey?
    ensures Emitted(v, key.schedule, key.at)
  {
    hide Emitted, ScheduleOk, OnGrid, Recurring;
    assert KeyOk(v, key);
  }

  lemma EmittingNext(v: Plan, pc: PC, next: PC)
    requires pc.Emitting? && pc.pending != [] && PcPlan(v, pc)
    requires var t' := pc.tick.(emitted := pc.tick.emitted + 1);
      || next == Aborted
      || (next == Emitting(t', pc.due, pc.pending[1..], pc.nextAt)
          && PendingOk(v, pc.tick.now, pc.due.id, pc.pending[1..], pc.nextAt))
      || (next.EmitJournaling? && next == EmitJournaling(next.event, t', pc.due, pc.pending[1..], pc.nextAt)
          && PendingOk(v, pc.tick.now, pc.due.id, pc.pending[1..], pc.nextAt))
    ensures PcPlan(v, next)
  {
    hide DueOk, PendingOk, Recurring;
  }

  // ---- everything else ------------------------------------------------------------------

  /** No new occurrence keys, no schedule touched. */
  ghost predicate NoEmission(a: Database, b: Database) {
    b.schedules == a.schedules && forall key | key in b.eventKeys && key.OccurrenceKey? :: key in a.eventKeys
  }

  lemma EnqueueNoEmission(db: Database, newId: string, work: Work, priority: int, dedup: Option<DedupKey>, now: int, at: int)
    requires dedup.Some? ==> !dedup.value.OccurrenceKey?
    ensures var r := Enqueue(db, newId, work, priority, dedup, now, at); r.Inserted? ==> NoEmission(db, r.db)
  {
  }

  lemma EnqueueStepNoEmission(db: Database, newId: string, run: string, step: nat, priority: int, now: int)
    ensures var r := EnqueueStep(db, newId, run, step, priority, now); r.Some? ==> NoEmission(db, r.value)
  {
    EnqueueNoEmission(db, newId, RunStep(run, step), priority, Some(RunStepKey(run, step)), now, now);
  }

  lemma CreateNoEmission(db: Database, newRun: string, newEvent: string, task: string, capabilities: set<string>,
                         source: Option<string>, priority: int, now: int)
    ensures var r := CreateRunWithInitialStep(db, newRun, newEvent, task, capabilities, source, priority, now);
      r.Some? ==> NoEmission(db, r.value.db)
  {
    hide EnqueueStep;
    var created := CreateRun(db, newRun, task, capabilities, source);
    if created.Some? {
      EnqueueStepNoEmission(created.value.db, newEvent, created.value.run, 0, priority, now);
    }
  }

  lemma AdvanceNoEmission(db: Database, run: string, step: nat, newEvent: string, priority: int, now: int)
    ensures var r := AdvanceRunStep(db, run, step, newEvent, priority, now); r.Some? ==> NoEmission(db, r.value)
  {
    hide EnqueueStep;
    if run in db.runs {
      var row := db.runs[run].(stepCount := step + 1, lastError := None);
      EnqueueStepNoEmission(db.(runs := db.runs[run := row]), newEvent, run, step + 1, priority, now);
    }
  }

  lemma ResumeNoEmission(db: Database, run: string, newEvent: string, priority: int, now: int)
    ensures var r := ResumeRun(db, run, newEvent, priority, now); r.Some? ==> NoEmission(db, r.value)
  {
    hide EnqueueStep;
    if run in db.runs {
      var next := db.runs[run].stepCount + 1;
      var row := db.runs[run].(status := RUNNING, blockedRequest := None, lastError := None, stepCount := next);
      var db1 := Log(db.(runs := db.runs[run := row]), RunEffectRecovered(run, next, now));
      EnqueueStepNoEmission(db1, newEvent, run, next, priority, now);
    }
  }

  lemma EventStepNoEmission(p: string, pc: PC, db: Database, h: History, i: Input)
    requires EventPhase(pc)
    ensures var r := EventStep(p, pc, db, h, i); NoEmission(db, r.db) && r.hist.origins == h.origins && !TickPhase(r.pc)
  {
    hide CreateRunWithInitialStep, Backoff;
    if pc.Submitting? {
      CreateNoEmission(db, i.newRun, i.newEvent, pc.task, pc.capabilities, Some(pc.visit.event), 0, pc.visit.now);
    }
  }

  lemma ClosingStepNoEmission(pc: PC, db: Database, h: History, i: Input)
    requires ClosingPhase(pc)
    ensures var r := ClosingStep(pc, db, h, i); NoEmission(db, r.db) && r.hist == h && !TickPhase(r.pc)
  {
    hide AdvanceRunStep, ResumeRun;
    if pc.Advancing? {
      AdvanceNoEmission(db, pc.frame.run, pc.frame.step, i.newEvent, pc.frame.visit.priority, pc.frame.visit.now);
    } else if pc.Resuming? {
      ResumeNoEmission(db, pc.run, i.newEvent, 0, pc.now);
    }
  }

  lemma DecisionStepNoEmission(s: Settings, pc: PC, db: Database, h: History, i: Input)
    requires DecisionPhase(pc)
    ensures var r := DecisionStep(s, pc, db, h, i); NoEmission(db, r.db) && r.hist == h && !TickPhase(r.pc)
  {
    hide FindKey, AdmitTask;
  }

  lemma ToolStepNoEmission(s: Settings, pc: PC, db: Database, h: History, i: Input)
    requires ToolPhase(pc)
    ensures var r := ToolStep(s, pc, db, h, i); NoEmission(db, r.db) && r.hist.origins == h.origins && !TickPhase(r.pc)
  {
    hide Admissible, SetEffect, MarkUnknown, AdmitEffect, RecordMessage, SameLedger, StoredCall, RequestPayload;
    ToolStepFrame(s, pc, db, h, i);
  }

  lemma NextNoEmission(s: Settings, p: string, pc: PC, db: Database, h: History, i: Input)
    requires !TickPhase(pc)
    ensures var r := Next(s, p, pc, db, h, i); NoEmission(db, r.db) && r.hist.origins == h.origins && !TickPhase(r.pc)
  {
    hide NoEmission, EventStep, DecisionStep, ClosingStep, ToolStep, TickStep;
    if EventPhase(pc) {
      EventStepNoEmission(p, pc, db, h, i);
    } else if DecisionPhase(pc) {
      DecisionStepNoEmission(s, pc, db, h, i);
    } else if ClosingPhase(pc) {
      ClosingStepNoEmission(pc, db, h, i);
    } else if ToolPhase(pc) {
      ToolStepNoEmission(s, pc, db, h, i);
    } else {
      assert NoEmission(db, db) by { SameNoEmission(db); }
    }
  }

  lemma SameNoEmission(db: Database)
    ensures NoEmission(db, db)
  {
  }

  lemma GrowsPlan(a: Database, h: History, b: Database, h': History)
    requires Grows(a, b) && PlanOk(PlanOf(a, h)) && NoEmission(a, b) && h'.origins == h.origins
    ensures PlanOk(PlanOf(b, h')) && Extends(PlanOf(a, h), PlanOf(b, h'))
  {
    hide RunsGrow, MessagesGrow, EffectsGrow, PlanOk;
    PlanLater(PlanOf(a, h), PlanOf(b, h'));
  }

  // ---- the whole system -----------------------------------------------------------------

  ghost predicate PlanInv(c: Config) {
    PlanOk(PlanOf(c.db, c.hist)) && forall p | p in c.procs :: PcPlan(PlanOf(c.db, c.hist), c.procs[p])
  }

  lemma NextPlan(s: Settings, p: string, pc: PC, db: Database, h: History, i: Input)
    requires PlanOk(PlanOf(db, h)) && PcPlan(PlanOf(db, h), pc)
    ensures var r := Next(s, p, pc, db, h, i); var b := PlanOf(r.db, r.hist);
      PlanOk(b) && Extends(PlanOf(db, h), b) && PcPlan(b, r.pc)
  {
    hide PlanOk, Extends, PcPlan, Grows, NoEmission, EventStep, DecisionStep, ClosingStep, ToolStep, TickStep;
    if TickPhase(pc) {
      TickStepPlan(pc, db, h, i);
    } else {
      var r := Next(s, p, pc, db, h, i);
      NextGrows(s, p, pc, db, h, i);
      NextNoEmission(s, p, pc, db, h, i);
      GrowsPlan(db, h, r.db, r.hist);
      ElsewherePlan(PlanOf(r.db, r.hist), r.pc);
    }
  }

  lemma ElsewherePlan(v: Plan, pc: PC)
    requires !TickPhase(pc)
    ensures PcPlan(v, pc)
  {
  }

  lemma OthersPlan(c: Config, c': Config, p: string)
    requires PlanInv(c) && PlanOk(PlanOf(c'.db, c'.hist)) && Extends(PlanOf(c.db, c.hist), PlanOf(c'.db, c'.hist))
    requires forall q | q in c'.procs && q != p :: q in c.procs && c'.procs[q] == c.procs[q]
    requires p in c'.procs ==> PcPlan(PlanOf(c'.db, c'.hist), c'.procs[p])
    ensures PlanInv(c')
  {
    hide PlanOk, Extends, PcPlan;
    forall q | q in c'.procs
      ensures PcPlan(PlanOf(c'.db, c'.hist), c'.procs[q])
    {
      if q != p {
        PcLater(PlanOf(c.db, c.hist), PlanOf(c'.db, c'.hist), c.procs[q]);
      }
    }
  }

  lemma AddIntervalPlan(db: Database, h: History, id: string, work: Work, every: int, firstAt: int)
    requires PlanOk(PlanOf(db, h)) && AddSchedule(db, id, work, every, firstAt).Some?
    ensures var b := PlanOf(AddSchedule(db, id, work, every, firstAt).value, h.(origins := h.origins[id := firstAt]));
      PlanOk(b) && Extends(PlanOf(db, h), b)
  {
    hide KeyOk, Reached;
    var a := PlanOf(db, h);
    var b := PlanOf(AddSchedule(db, id, work, every, firstAt).value, h.(origins := h.origins[id := firstAt]));
    forall x | x in b.schedules
      ensures ScheduleOk(b, x)
    {
      if x != id {
        assert ScheduleOk(a, x);
        ReachedLater(a, b, x, a.schedules[x].nextAt);
      } else {
        FirstReached(b, id);
      }
    }
    forall key | key in b.keys
      ensures KeyOk(b, key)
    {
      KeyLater(a, b, key);
    }
  }

  lemma FirstReached(v: Plan, id: string)
    requires Recurring(v, id)
    ensures Reached(v, id, v.origins[id])
  {
    assert v.origins[id] == GridPoint(v, id, 0) && Covered(v, id, 0);
  }

  /** The rows a ticker reads are as the plan has them. */
  lemma ListingPlan(c: Config, now: int, cap: int, rows: seq<Due>)
    requires PlanInv(c) && DueListing(c.db, now, rows)
    ensures PcPlan(PlanOf(c.db, c.hist), Ticking(TickState(now, cap, 0, rows)))
  {
    hide Reached, KeyOk;
    var v := PlanOf(c.db, c.hist);
    forall j | 0 <= j < |rows|
      ensures DueOk(v, now, rows[j])
    {
      assert ScheduleOk(v, rows[j].id);
    }
  }

  lemma HostPlan(s: Settings, c: Config, a: Action, i: Input)
    requires a.HostSubmit? || a.HostReconcile? || a.HostEnqueue?
    requires PlanInv(c) && Enabled(c, a, i)
    ensures PlanInv(Apply(s, c, a, i))
  {
    hide PlanOk, Extends, PcPlan, Grows, CreateRunWithInitialStep, Enqueue, IsHexDigest, LowerHex, Next;
    var c' := Apply(s, c, a, i);
    ApplyGrows(s, c, a, i);
    if a.HostSubmit? {
      CreateNoEmission(c.db, i.newRun, i.newEvent, a.task, a.capabilities, a.source, 0, i.now);
    } else if a.HostEnqueue? {
      var at := if a.availableAt.Some? then a.availableAt.value else i.now;
      EnqueueNoEmission(c.db, i.newEvent, a.work, a.priority, a.dedup, i.now, at);
    }
    GrowsPlan(c.db, c.hist, c'.db, c'.hist);
    var p := if a.HostEnqueue? then a.p else "";
    if a.HostEnqueue? && p in c'.procs && !(p in c.procs && c'.procs[p] == c.procs[p]) {
      ElsewherePlan(PlanOf(c'.db, c'.hist), c'.procs[p]);
    } else if p in c.procs {
      PcLater(PlanOf(c.db, c.hist), PlanOf(c'.db, c'.hist), c.procs[p]);
    }
    OthersPlan(c, c', p);
  }

  lemma ClaimPlan(s: Settings, c: Config, p: string, i: Input)
    requires PlanInv(c) && Enabled(c, ClaimNext(p), i)
    ensures PlanInv(ApplyClaim(s, c, p, i))
  {
    hide PlanOk, Extends, PcPlan, Grows, Dispatch;
    var c' := ApplyClaim(s, c, p, i);
    if i.choice.Some? {
      ClaimGrows(c.db, i.choice.value, p, i.now, s.lease);
      GrowsPlan(c.db, c.hist, c'.db, c'.hist);
      assert PcPlan(PlanOf(c'.db, c'.hist), c'.procs[p]) by {
        DispatchElsewhere(Visit(i.choice.value, c.db.events[i.choice.value].priority,
                                c.db.events[i.choice.value].attempts + 1, i.now), c.db.events[i.choice.value].work);
        ElsewherePlan(PlanOf(c'.db, c'.hist), c'.procs[p]);
      }
      OthersPlan(c, c', p);
    }
  }

  lemma DispatchElsewhere(v: Visit, work: Work)
    ensures !TickPhase(Dispatch(v, work))
  {
    hide AdmitTask;
  }

  lemma UnwindPlan(v: Plan, pc: PC)
    ensures PcPlan(v, Unwind(pc))
  {
    hide DueOk, PendingOk;
  }

  lemma ApplyPlanInv(s: Settings, c: Config, a: Action, i: Input)
    requires PlanInv(c) && Enabled(c, a, i)
    ensures PlanInv(Apply(s, c, a, i))
  {
    hide PlanOk, Extends, PcPlan, Next, Unwind, ApplyClaim, DueListing, AddSchedule;
    var v := PlanOf(c.db, c.hist);
    var c' := Apply(s, c, a, i);
    PlanSame(v);
    if a.Work? {
      WorkKnown(c, a.p, i);
      NextPlan(s, a.p, c.procs[a.p], c.db, c.hist, i);
      OthersPlan(c, c', a.p);
    } else if a.ClaimNext? {
      ClaimPlan(s, c, a.p, i);
    } else if a.Resume? || a.Crash? {
      ElsewherePlan(v, c'.procs[a.p]);
      OthersPlan(c, c', a.p);
    } else if a.Tick? {
      ListingPlan(c, i.now, a.cap, a.rows);
      OthersPlan(c, c', a.p);
    } else if a.Throw? {
      UnwindPlan(v, Pc(c, a.p));
      OthersPlan(c, c', a.p);
    } else if a.AddInterval? {
      if AddSchedule(c.db, a.id, a.work, a.every, a.firstAt).Some? {
        AddIntervalPlan(c.db, c.hist, a.id, a.work, a.every, a.firstAt);
        forall p | p in c.procs ensures PcPlan(PlanOf(c'.db, c'.hist), c.procs[p]) {
          PcLater(v, PlanOf(c'.db, c'.hist), c.procs[p]);
        }
      }
    } else {
      HostPlan(s, c, a, i);
    }
  }

  lemma PlanInitial()
    ensures PlanInv(INITIAL_CONFIG)
  {
  }

  lemma PlanStep(s: Settings, c: Config, c': Config)
    requires PlanInv(c) && Step(s, c, c')
    ensures PlanInv(c')
  {
    hide PlanInv, Apply, Enabled;
    var a, i :| Enabled(c, a, i) && c' == Apply(s, c, a, i);
    ApplyPlanInv(s, c, a, i);
  }

  lemma {:induction false} PlanExecution(s: Settings, trace: seq<Config>, n: nat)
    requires Execution(s, trace) && n < |trace|
    ensures PlanInv(trace[n])
  {
    hide Step, PlanInv;
    if n == 0 {
      assert PlanInv(INITIAL_CONFIG) by { PlanInitial(); }
    } else {
      PlanExecution(s, trace, n - 1);
      assert Step(s, trace[n - 1], trace[n]);
      PlanStep(s, trace[n - 1], trace[n]);
    }
  }

  // ---- what it says ---------------------------------------------------------------------

  /** Event `e` was enqueued for occurrence `at` of schedule `id`. */
  predicate EventFor(db: Database, id: string, at: int, e: string) {
    e in db.events && db.events[e].dedup == Some(OccurrenceKey(id, at))
  }

  /** `e` is the one event of the occurrence, enqueued at or after its time. */
  ghost predicate OnlyEventFor(db: Database, id: string, at: int, work: Work, e: string) {
    && EventFor(db, id, at, e) && db.events[e].work == work && at <= db.events[e].createdAt
    && forall e' | EventFor(db, id, at, e') :: e' == e
  }

  ghost predicate HasOneEvent(db: Database, id: string, at: int, work: Work) {
    exists e :: OnlyEventFor(db, id, at, work, e)
  }

  lemma EmittedOnce(db: Database, h: History, id: string, at: int)
    requires KeysIndexed(db) && Emitted(PlanOf(db, h), id, at)
    ensures OnlyEventFor(db, id, at, db.schedules[id].work, db.eventKeys[OccurrenceKey(id, at)])
    ensures HasOneEvent(db, id, at, db.schedules[id].work)
  {
  }

  /** Never skipped, emitted once: in every reachable state `next_at` is a point first_at + m*every of
      its schedule's grid, and each earlier point has exactly one event, carrying the schedule's
      work, enqueued at or after the point. */
  lemma NeverSkipped(s: Settings, trace: seq<Config>, n: nat, id: string)
    requires Execution(s, trace) && n < |trace| && id in trace[n].db.schedules
    ensures var db := trace[n].db; var row := db.schedules[id];
      && id in trace[n].hist.origins && row.every.Some? && row.every.value > 0
      && exists m: nat :: row.nextAt == Nth(trace[n].hist.origins[id], row.every.value, m)
           && forall k: nat | k < m :: HasOneEvent(db, id, Nth(trace[n].hist.origins[id], row.every.value, k), row.work)
  {
    hide Execution, PcPlan, PcOk, SourcesIndexed, StepEventsOk, TasksAnswered, AllScheduled, OnlyEventFor, Emitted, KeyOk;
    PlanExecution(s, trace, n);
    ExecutionInv(s, trace, n);
    var db := trace[n].db;
    var v := PlanOf(db, trace[n].hist);
    var row := db.schedules[id];
    assert ScheduleOk(v, id);
    var m: nat :| row.nextAt == GridPoint(v, id, m) && Covered(v, id, m);
    forall k: nat | k < m
      ensures HasOneEvent(db, id, Nth(v.origins[id], row.every.value, k), row.work)
    {
      assert Emitted(v, id, GridPoint(v, id, k));
      EmittedOnce(db, trace[n].hist, id, GridPoint(v, id, k));
    }
  }

  /** Never early, never off the grid, never twice: every occurrence event belongs to a grid point of a
      known schedule, was enqueued at or after that point with the schedule's work, and is the only
      event of the point. */
  lemma NeverEarly(s: Settings, trace: seq<Config>, n: nat, id: string, at: int, e: string)
    requires Execution(s, trace) && n < |trace| && EventFor(trace[n].db, id, at, e)
    ensures var db := trace[n].db; var h := trace[n].hist;
      && id in db.schedules && id in h.origins && db.schedules[id].every.Some?
      && (exists k: nat :: at == Nth(h.origins[id], db.schedules[id].every.value, k))
      && OnlyEventFor(db, id, at, db.schedules[id].work, e)
  {
    hide Execution, PcPlan, PcOk, SourcesIndexed, StepEventsOk, TasksAnswered, AllScheduled, OnlyEventFor, ScheduleOk;
    PlanExecution(s, trace, n);
    ExecutionInv(s, trace, n);
    var v := PlanOf(trace[n].db, trace[n].hist);
    assert KeyOk(v, OccurrenceKey(id, at));
    EmittedOnce(trace[n].db, trace[n].hist, id, at);
  }
  /** Exactly once from occurrence to run: whatever event carries an occurrence, no two runs are ever
      bound to that occurrence, and once the event is DONE its request has been answered, by a run
      with its task and capabilities or by a rejection. */
  lemma OccurrenceToRun(s: Settings, trace: seq<Config>, n: nat, id: string, at: int, e: string, e': string,
                        r: string, r': string)
    requires Execution(s, trace) && n < |trace|
    requires EventFor(trace[n].db, id, at, e) && EventFor(trace[n].db, id, at, e')
    ensures var db := trace[n].db; var row := db.events[e];
      && (row.work.TaskRequested? && row.status == DONE ==>
            if WellFormed(row.work.payload)
            then exists r :: r in db.runs && db.runs[r].source == Some(e) && Fulfils(db.runs[r], row.work.payload)
            else Rejected(db.journal, e))
      && (r in db.runs && r' in db.runs && db.runs[r].source == Some(e) && db.runs[r'].source == Some(e') ==> r == r')
  {
    hide Execution, PcOk, StepEventsOk, AllScheduled, TasksAnswered, WellFormed, Fulfils;
    ExecutionInv(s, trace, n);
    if trace[n].db.events[e].work.TaskRequested? { AnsweredOnce(s, trace, n, e); }
  }
}
