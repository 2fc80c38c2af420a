/** The `Scheduler` class. `Tick` is a statement sequence of the protocol, and one tick accounts for
    exactly as many occurrences as its cap and the backlog allow. */
module IntervalScheduler {
  import opened Basics
  import opened Tables
  import opened Protocol
  import opened Paths
  import opened DurableStore
  import opened Schedules

  // ---- backlog --------------------------------------------------------------------------

  /** Occurrences of one row that are due by `now`. */
  function RowBacklog(row: ScheduleRow, now: int): nat {
    if !row.enabled || row.nextAt > now then 0
    else if row.every.None? || row.every.value <= 0 then 1
    else (now - row.nextAt) / row.every.value + 1
  }

  ghost function Backlog(schedules: map<string, ScheduleRow>, now: int): nat {
    if schedules == map[] then 0
    else
      var id :| id in schedules;
      RowBacklog(schedules[id], now) + Backlog(schedules - {id}, now)
  }

  lemma {:induction false} TakeRow(schedules: map<string, ScheduleRow>, now: int, id: string)
    requires id in schedules
    ensures Backlog(schedules, now) == RowBacklog(schedules[id], now) + Backlog(schedules - {id}, now)
    decreases |schedules|
  {
    hide RowBacklog;
    var first :| first in schedules
      && Backlog(schedules, now) == RowBacklog(schedules[first], now) + Backlog(schedules - {first}, now);
    if first != id {
      TakeRow(schedules - {first}, now, id);
      TakeRow(schedules - {id}, now, first);
      assert schedules - {first} - {id} == schedules - {id} - {first};
    }
  }

  lemma ReplaceRow(schedules: map<string, ScheduleRow>, now: int, id: string, row: ScheduleRow)
    requires id in schedules
    ensures Backlog(schedules[id := row], now) + RowBacklog(schedules[id], now)
            == Backlog(schedules, now) + RowBacklog(row, now)
  {
    hide RowBacklog, Backlog;
    TakeRow(schedules, now, id);
    TakeRow(schedules[id := row], now, id);
    assert schedules[id := row] - {id} == schedules - {id};
  }

  lemma {:induction false} NothingDue(schedules: map<string, ScheduleRow>, now: int)
    requires forall id | id in schedules :: RowBacklog(schedules[id], now) == 0
    ensures Backlog(schedules, now) == 0
    decreases |schedules|
  {
    hide RowBacklog;
    if schedules != map[] {
      var id :| id in schedules && Backlog(schedules, now) == RowBacklog(schedules[id], now) + Backlog(schedules - {id}, now);
      NothingDue(schedules - {id}, now);
    }
  }

  /** One interval further, one occurrence less. */
  lemma BacklogStep(row: ScheduleRow, now: int)
    requires row.enabled && row.nextAt <= now && row.every.Some? && row.every.value > 0
    ensures RowBacklog(row.(nextAt := row.nextAt + row.every.value), now) == RowBacklog(row, now) - 1
  {
    var every := row.every.value;
    var d := now - row.nextAt;
    if d >= every {
      DivStep(d, every);
    } else {
      assert d / every == 0;
    }
  }

  lemma DivStep(d: int, every: int)
    requires every > 0 && d >= every
    ensures d / every == (d - every) / every + 1
  {
    var q := (d - every) / every;
    assert d - every == q * every + (d - every) % every;
    assert d == (q + 1) * every + (d - every) % every;
    Quotient(d, every, q + 1, (d - every) % every);
  }

  lemma Quotient(d: int, every: int, q: int, r: int)
    requires every > 0 && 0 <= r < every && d == q * every + r
    ensures d / every == q
  {
    var x := d / every - q;
    assert x * every == r - d % every;
    Multiple(x, every);
  }

  lemma Multiple(x: int, every: int)
    requires every > 0
    ensures x >= 1 ==> x * every >= every
    ensures x <= -1 ==> x * every <= -every
  {
  }

  /** The inner loop of `tick` collects min(room, backlog) points and leaves the rest. */
  lemma {:induction false} OccurrencesCount(row: ScheduleRow, now: int, room: nat)
    requires row.enabled && row.every.Some? && row.every.value > 0
    ensures var n := |Occurrences(row.nextAt, row.every.value, now, room)|;
      && n == Min(room, RowBacklog(row, now))
      && RowBacklog(row.(nextAt := row.nextAt + n * row.every.value), now) == RowBacklog(row, now) - n
    decreases room
  {
    hide RowBacklog;
    if room > 0 && row.nextAt <= now {
      var every := row.every.value;
      var next := row.(nextAt := row.nextAt + every);
      BacklogStep(row, now);
      OccurrencesCount(next, now, room - 1);
      var rest := Occurrences(next.nextAt, every, now, room - 1);
      assert Occurrences(row.nextAt, every, now, room) == [row.nextAt] + rest;
      assert next.nextAt + |rest| * every == row.nextAt + (1 + |rest|) * every;
    } else {
      EmptyBacklog(row, now);
    }
  }

  lemma EmptyBacklog(row: ScheduleRow, now: int)
    ensures row.nextAt > now ==> RowBacklog(row, now) == 0
  {
  }

  /** What `n` ticks leave of a backlog, and when that is nothing. */
  lemma Ceiling(b: nat, cap: nat, k: nat)
    requires cap >= 1
    ensures b <= k * cap <==> k >= (b + cap - 1) / cap
  {
    var q := (b + cap - 1) / cap;
    var r := (b + cap - 1) % cap;
    assert b + cap - 1 == q * cap + r;
    if k >= q {
      Monotone(q, k, cap);
    } else {
      Monotone(k, q - 1, cap);
      assert (q - 1) * cap == q * cap - cap;
    }
  }

  lemma Monotone(a: int, b: int, c: nat)
    requires a <= b
    ensures a * c <= b * c
  {
    assert b * c - a * c == (b - a) * c;
  }

  // ---- the machine's statements ---------------------------------------------------------

  lemma TickOne(s: Settings, p: string, pc: PC, db: Database, h: History, i: Input)
    requires TickPhase(pc)
    ensures Leads(s, p, Result(pc, db, h), TickStep(pc, db, h, i))
  {
    hide Leads, EventStep, DecisionStep, ClosingStep, ToolStep, TickStep;
    One(s, p, Result(pc, db, h), i);
  }

  function WithEvent(newEvent: string): Input {
    Input(0, "", newEvent, None, NoAnswer, Failure(false), "")
  }

  /** Enqueueing one pending occurrence, with its journal entry. */
  lemma EmitPath(s: Settings, p: string, t: TickState, due: Due, pending: seq<int>, nextAt: int, db: Database, h: History,
                 newEvent: string)
    requires pending != []
    ensures var t' := t.(emitted := t.emitted + 1);
      var start := Result(Emitting(t, due, pending, nextAt), db, h);
      match Enqueue(db, newEvent, due.row.work, 0, Some(OccurrenceKey(due.id, pending[0])), t.now, pending[0])
      case Inserted(db', e) =>
        Leads(s, p, start, Result(Emitting(t', due, pending[1..], nextAt), Log(db', EventEnqueued(e, t.now)), h))
      case Reused(_) => Leads(s, p, start, Result(Emitting(t', due, pending[1..], nextAt), db, h))
      case Refused => Leads(s, p, start, Result(Aborted, db, h))
  {
    hide Leads, Enqueue, Log;
    var t' := t.(emitted := t.emitted + 1);
    var start := Result(Emitting(t, due, pending, nextAt), db, h);
    TickOne(s, p, start.pc, db, h, WithEvent(newEvent));
    match Enqueue(db, newEvent, due.row.work, 0, Some(OccurrenceKey(due.id, pending[0])), t.now, pending[0])
    case Inserted(db', e) =>
      var middle := Result(EmitJournaling(e, t', due, pending[1..], nextAt), db', h);
      TickOne(s, p, middle.pc, db', h, WithEvent(newEvent));
      Then(s, p, start, middle, Result(Emitting(t', due, pending[1..], nextAt), Log(db', EventEnqueued(e, t.now)), h));
    case Reused(_) =>
    case Refused =>
  }

  lemma StartRowPath(s: Settings, p: string, t: TickState, db: Database, h: History)
    requires t.rows != []
    ensures var due := t.rows[0]; var t' := t.(rows := t.rows[1..]);
      var pending := if due.row.every.None? then [due.row.nextAt]
                     else Occurrences(due.row.nextAt, due.row.every.value, t.now, t.cap - t.emitted);
      var nextAt := if due.row.every.None? then due.row.nextAt else due.row.nextAt + |pending| * due.row.every.value;
      Leads(s, p, Result(Ticking(t), db, h), Result(Emitting(t', due, pending, nextAt), db, h))
  {
    hide Leads, Occurrences;
    TickOne(s, p, Ticking(t), db, h, WithEvent(""));
  }

  lemma EndRowPath(s: Settings, p: string, t: TickState, due: Due, nextAt: int, db: Database, h: History)
    ensures var db' := if due.row.every.None? then DisableSchedule(db, due.id) else SetNextAt(db, due.id, nextAt);
      Leads(s, p, Result(Emitting(t, due, [], nextAt), db, h),
            Result(if t.emitted >= t.cap then Idle else Ticking(t), db', h))
  {
    hide Leads, DisableSchedule, SetNextAt;
    TickOne(s, p, Emitting(t, due, [], nextAt), db, h, WithEvent(""));
  }

  lemma EndTickPath(s: Settings, p: string, t: TickState, db: Database, h: History)
    requires t.rows == []
    ensures Leads(s, p, Result(Ticking(t), db, h), Result(Idle, db, h))
  {
    hide Leads;
    TickOne(s, p, Ticking(t), db, h, WithEvent(""));
  }

  /** A tick of the class is a tick of the system. */
  lemma TickReaches(s: Settings, c: Config, p: string, now: int, cap: int, rows: seq<Due>, b: Result)
    requires Pc(c, p).Idle? && DueListing(c.db, now, rows)
    requires Leads(s, p, Result(Ticking(TickState(now, cap, 0, rows)), c.db, c.hist), b)
    ensures Reaches(s, c, At(c.procs, p, b))
  {
    hide Leads, Step, DueListing;
    var a := Result(Ticking(TickState(now, cap, 0, rows)), c.db, c.hist);
    LeadsReaches(s, c.procs, p, a, b);
    assert Step(s, c, At(c.procs, p, a)) by { TickIsStep(s, c, p, now, cap, rows); }
    ReachesOn(s, c, At(c.procs, p, a), At(c.procs, p, b));
  }

  lemma TickIsStep(s: Settings, c: Config, p: string, now: int, cap: int, rows: seq<Due>)
    requires Pc(c, p).Idle? && DueListing(c.db, now, rows)
    ensures Step(s, c, At(c.procs, p, Result(Ticking(TickState(now, cap, 0, rows)), c.db, c.hist)))
  {
    hide Next, DueListing;
    var i := Input(now, "", "", None, NoAnswer, Failure(false), "");
    assert Enabled(c, Tick(p, cap, rows), i);
    assert At(c.procs, p, Result(Ticking(TickState(now, cap, 0, rows)), c.db, c.hist)) == Apply(s, c, Tick(p, cap, rows), i);
  }

  /** Intervals are positive, and an occurrence key in use belongs to the schedule's own event: what
      every execution keeps (`Schedules.PlanExecution`). */
  ghost predicate Consistent(db: Database) {
    && (forall id | id in db.schedules && db.schedules[id].every.Some? :: db.schedules[id].every.value > 0)
    && (forall id, at: int | id in db.schedules && OccurrenceKey(id, at) in db.eventKeys ::
          Occurs(db, db.eventKeys[OccurrenceKey(id, at)], db.schedules[id].work))
  }

  /** Environment (M): every reachable database is consistent. */
  lemma AlwaysConsistent(s: Settings, trace: seq<Config>, n: nat)
    requires Execution(s, trace) && n < |trace|
    ensures Consistent(trace[n].db)
  {
    hide Execution, PcPlan, Reached, OnGrid;
    PlanExecution(s, trace, n);
    var v := PlanOf(trace[n].db, trace[n].hist);
    forall id | id in v.schedules
      ensures v.schedules[id].every.Some? && v.schedules[id].every.value > 0
    {
      assert ScheduleOk(v, id);
    }
    forall id, at: int | id in v.schedules && OccurrenceKey(id, at) in v.keys
      ensures Occurs(trace[n].db, v.keys[OccurrenceKey(id, at)], v.schedules[id].work)
    {
      assert KeyOk(v, OccurrenceKey(id, at));
    }
  }

  predicate Occurs(db: Database, e: string, work: Work) {
    e in db.events && db.events[e].work == work && db.events[e].priority == 0
  }

  /** A free identifier and the schedule's own work: the occurrence is inserted, or found. */
  lemma EnqueueConsistent(db: Database, newId: string, id: string, at: int, now: int)
    requires Consistent(db) && id in db.schedules && newId !in db.events
    ensures match Enqueue(db, newId, db.schedules[id].work, 0, Some(OccurrenceKey(id, at)), now, at)
            case Inserted(db', e) => Consistent(Log(db', EventEnqueued(e, now))) && db'.schedules == db.schedules
            case Reused(_) => true
            case Refused => false
  {
    var key := OccurrenceKey(id, at);
    if key in db.eventKeys {
      assert Occurs(db, db.eventKeys[key], db.schedules[id].work);
    } else {
      var r := Enqueue(db, newId, db.schedules[id].work, 0, Some(key), now, at);
      forall x, point: int | x in r.db.schedules && OccurrenceKey(x, point) in r.db.eventKeys
        ensures Occurs(r.db, r.db.eventKeys[OccurrenceKey(x, point)], r.db.schedules[x].work)
      {
        if OccurrenceKey(x, point) != key {
          assert Occurs(db, db.eventKeys[OccurrenceKey(x, point)], db.schedules[x].work);
        }
      }
    }
  }

  /** The row after its occurrences are enqueued. */
  function RowAfter(row: ScheduleRow, nextAt: int): ScheduleRow {
    if row.every.None? then row.(enabled := false) else row.(nextAt := nextAt)
  }

  lemma RowAccount(row: ScheduleRow, now: int, room: nat, pending: seq<int>, nextAt: int)
    requires row.enabled && row.nextAt <= now && room >= 1 && (row.every.Some? ==> row.every.value > 0)
    requires row.every.None? ==> |pending| == 1
    requires row.every.Some? ==>
      && pending == Occurrences(row.nextAt, row.every.value, now, room)
      && nextAt == row.nextAt + |pending| * row.every.value
    ensures |pending| == Min(room, RowBacklog(row, now))
    ensures RowBacklog(RowAfter(row, nextAt), now) == RowBacklog(row, now) - |pending|
  {
    if row.every.Some? {
      OccurrencesCount(row, now, room);
    }
  }

  /** Writing a row back keeps the keys' owners. */
  lemma RowConsistent(db: Database, id: string, row: ScheduleRow)
    requires Consistent(db) && id in db.schedules
    requires row.work == db.schedules[id].work && row.every == db.schedules[id].every
    ensures Consistent(db.(schedules := db.schedules[id := row]))
  {
    hide Occurs;
    var b := db.(schedules := db.schedules[id := row]);
    forall x, at: int | x in b.schedules && OccurrenceKey(x, at) in b.eventKeys
      ensures Occurs(b, b.eventKeys[OccurrenceKey(x, at)], b.schedules[x].work)
    {
      assert Occurs(db, db.eventKeys[OccurrenceKey(x, at)], db.schedules[x].work);
      OccursSame(db, b, db.eventKeys[OccurrenceKey(x, at)], db.schedules[x].work);
    }
  }

  lemma OccursSame(a: Database, b: Database, e: string, work: Work)
    requires Occurs(a, e, work) && b.events == a.events
    ensures Occurs(b, e, work)
  {
  }

  /** What is still due is in the rows to come; the rest has no backlog. */
  ghost predicate Remaining(schedules: map<string, ScheduleRow>, now: int, rows: seq<Due>) {
    && (forall j | 0 <= j < |rows| :: rows[j].id in schedules && schedules[rows[j].id] == rows[j].row)
    && (forall i, j | 0 <= i < j < |rows| :: rows[i].id != rows[j].id)
    && (forall j | 0 <= j < |rows| :: rows[j].row.enabled && rows[j].row.nextAt <= now)
    && (forall id | id in schedules && !Listed(rows, id) :: RowBacklog(schedules[id], now) == 0)
  }

  lemma ListingRemains(db: Database, now: int, rows: seq<Due>)
    requires DueListing(db, now, rows)
    ensures Remaining(db.schedules, now, rows)
  {
    forall id | id in db.schedules && !Listed(rows, id)
      ensures RowBacklog(db.schedules[id], now) == 0
    {
      if db.schedules[id].enabled && db.schedules[id].nextAt <= now {
        assert Listed(rows, id);
      }
    }
  }

  lemma ListedTail(rows: seq<Due>, id: string)
    requires rows != []
    ensures Listed(rows, id) ==> id == rows[0].id || Listed(rows[1..], id)
  {
    if Listed(rows, id) && id != rows[0].id {
      var i :| 0 <= i < |rows| && rows[i].id == id;
      assert rows[1..][i - 1].id == id;
    }
  }

  lemma NextRemaining(schedules: map<string, ScheduleRow>, now: int, rows: seq<Due>, row: ScheduleRow)
    requires Remaining(schedules, now, rows) && rows != []
    requires RowBacklog(row, now) == 0
    ensures Remaining(schedules[rows[0].id := row], now, rows[1..])
  {
    hide RowBacklog;
    var schedules' := schedules[rows[0].id := row];
    forall id | id in schedules' && !Listed(rows[1..], id)
      ensures RowBacklog(schedules'[id], now) == 0
    {
      ListedTail(rows, id);
    }
  }

  predicate Listed(rows: seq<Due>, id: string) {
    exists i :: 0 <= i < |rows| && rows[i].id == id
  }

  lemma ListedMore(rows: seq<Due>, due: Due)
    ensures forall id :: Listed(rows + [due], id) <==> Listed(rows, id) || id == due.id
  {
    var more := rows + [due];
    forall id
      ensures Listed(more, id) <==> Listed(rows, id) || id == due.id
    {
      if Listed(rows, id) {
        var i :| 0 <= i < |rows| && rows[i].id == id;
        assert more[i].id == id;
      }
      assert more[|rows|].id == due.id;
    }
  }

  class Scheduler {
    const store: Store

    constructor (store: Store)
      ensures this.store == store
    {
      this.store := store;
    }

    /** `add_interval`: a positive interval, a new row whose first occurrence is `firstAt`. */
    method AddInterval(newId: string, work: Work, every: int, firstAt: int) returns (ok: bool)
      modifies store
      ensures ok <==> AddSchedule(old(store.db), newId, work, every, firstAt).Some?
      ensures store.db == if ok then AddSchedule(old(store.db), newId, work, every, firstAt).value else old(store.db)
      ensures ok <==> every > 0 && newId !in old(store.db).schedules
      ensures ok ==> store.db == old(store.db).(
                schedules := old(store.db).schedules[newId := ScheduleRow(work, Some(every), firstAt, true)])
    {
      if every <= 0 || newId in store.db.schedules {
        return false;
      }
      store.db := store.db.(schedules := store.db.schedules[newId := ScheduleRow(work, Some(every), firstAt, true)]);
      return true;
    }

    /** SELECT ... WHERE enabled=1 AND next_at <= ? ORDER BY next_at ASC. */
    method DueRows(now: int) returns (rows: seq<Due>)
      ensures DueListing(store.db, now, rows)
    {
      rows := [];
      var due := set id | id in store.db.schedules && store.db.schedules[id].enabled && store.db.schedules[id].nextAt <= now;
      var todo := due;
      while todo != {}
        invariant todo <= due
        invariant forall i | 0 <= i < |rows| ::
                    rows[i].id in due - todo && rows[i].row == store.db.schedules[rows[i].id]
        invariant forall id | id in due && id !in todo :: Listed(rows, id)
        invariant forall i, j | 0 <= i < j < |rows| :: rows[i].id != rows[j].id && rows[i].row.nextAt <= rows[j].row.nextAt
        invariant forall i, id | 0 <= i < |rows| && id in todo :: rows[i].row.nextAt <= store.db.schedules[id].nextAt
        decreases |todo|
      {
        var first := Earliest(todo);
        ListedMore(rows, Due(first, store.db.schedules[first]));
        rows := rows + [Due(first, store.db.schedules[first])];
        todo := todo - {first};
      }
      assert forall id | id in store.db.schedules && store.db.schedules[id].enabled && store.db.schedules[id].nextAt <= now ::
          id in due && Listed(rows, id);
    }

    method Earliest(ids: set<string>) returns (first: string)
      requires ids != {} && ids <= store.db.schedules.Keys
      ensures first in ids && forall id | id in ids :: store.db.schedules[first].nextAt <= store.db.schedules[id].nextAt
    {
      first :| first in ids;
      var todo := ids - {first};
      while todo != {}
        invariant todo <= ids && first in ids
        invariant forall id | id in ids - todo :: store.db.schedules[first].nextAt <= store.db.schedules[id].nextAt
        decreases |todo|
      {
        var id :| id in todo;
        if store.db.schedules[id].nextAt < store.db.schedules[first].nextAt {
          first := id;
        }
        todo := todo - {id};
      }
    }

    /** The occurrences of one row: consecutive due points while there is room. */
    method Collect(row: ScheduleRow, now: int, room: int) returns (pending: seq<int>, nextAt: int)
      ensures row.every.None? ==> pending == [row.nextAt] && nextAt == row.nextAt
      ensures row.every.Some? ==>
        && pending == Occurrences(row.nextAt, row.every.value, now, room)
        && nextAt == row.nextAt + |pending| * row.every.value
    {
      nextAt := row.nextAt;
      if row.every.None? {
        return [row.nextAt], nextAt;
      }
      var every := row.every.value;
      pending := [];
      while nextAt <= now && |pending| < room
        invariant nextAt == row.nextAt + |pending| * every
        invariant |pending| <= Max(room, 0)
        invariant Occurrences(row.nextAt, every, now, room) == pending + Occurrences(nextAt, every, now, room - |pending|)
        decreases room - |pending|
      {
        ghost var rest := Occurrences(nextAt, every, now, room - |pending|);
        assert rest == [nextAt] + Occurrences(nextAt + every, every, now, room - |pending| - 1);
        assert pending + ([nextAt] + Occurrences(nextAt + every, every, now, room - |pending| - 1))
            == (pending + [nextAt]) + Occurrences(nextAt + every, every, now, room - |pending| - 1);
        pending := pending + [nextAt];
        nextAt := nextAt + every;
      }
      assert Occurrences(nextAt, every, now, room - |pending|) == [];
    }

    /** The occurrences of one row, enqueued one by one under their dedup keys. */
    method EmitRow(ghost t: TickState, due: Due, pending: seq<int>, now: int, ghost nextAt: int,
                   ghost s: Settings, ghost p: string, ghost start: Result, ghost h: History) returns (ok: bool)
      requires t.now == now && Leads(s, p, start, Result(Emitting(t, due, pending, nextAt), store.db, h))
      modifies store
      ensures Leads(s, p, start,
                    Result(if ok then Emitting(t.(emitted := t.emitted + |pending|), due, [], nextAt) else Aborted, store.db, h))
      ensures store.db.schedules == old(store.db).schedules
      ensures ok ==> Emits(old(store.db), store.db, due, pending, now)
      ensures old(Consistent(store.db) && due.id in store.db.schedules && store.db.schedules[due.id].work == due.row.work) ==>
                ok && Consistent(store.db)
    {
      hide Leads, Enqueue, Log, Consistent, Emits;
      assert pending[..0] == [];
      EmitsNone(store.db, due, now);
      for i := 0 to |pending|
        invariant Leads(s, p, start, Result(Emitting(t.(emitted := t.emitted + i), due, pending[i..], nextAt), store.db, h))
        invariant store.db.schedules == old(store.db).schedules
        invariant Emits(old(store.db), store.db, due, pending[..i], now)
        invariant old(Consistent(store.db) && due.id in store.db.schedules && store.db.schedules[due.id].work == due.row.work) ==>
                    Consistent(store.db)
      {
        var db := store.db;
        var newId := store.NewId(db.events.Keys);
        ghost var t' := t.(emitted := t.emitted + i);
        EmitPath(s, p, t', due, pending[i..], nextAt, db, h, newId);
        EnqueueSchedules(db, newId, due, pending[i], now);
        if Consistent(db) && due.id in db.schedules && db.schedules[due.id].work == due.row.work {
          EnqueueConsistent(db, newId, due.id, pending[i], now);
        }
        var id := store.EnqueueEvent(newId, due.row.work, 0, Some(OccurrenceKey(due.id, pending[i])), now, Some(pending[i]));
        assert pending[i..][1..] == pending[i + 1..];
        ghost var middle := Result(Emitting(t', due, pending[i..], nextAt), db, h);
        Then(s, p, start, middle,
             Result(if id.Some? then Emitting(t'.(emitted := t'.emitted + 1), due, pending[i + 1..], nextAt) else Aborted,
                    store.db, h));
        if id.None? {
          return false;
        }
        assert pending[..i + 1] == pending[..i] + [pending[i]];
        assert OneEnqueued(db, store.db, due, pending[i], now, newId);
        EmitsMore(old(store.db), db, store.db, due, pending[..i], pending[i], now, newId);
      }
      assert pending[..|pending|] == pending;
      return true;
    }

    /** `tick`: visits the due rows in order until the cap is reached. It is a statement sequence of the
        protocol, and on a consistent store it accounts for exactly min(cap, total backlog)
        occurrences and leaves the rest of the backlog. */
    method Tick(now: int, cap: int, ghost s: Settings, ghost p: string, ghost h: History)
      returns (r: Option<int>, ghost rows: seq<Due>)
      modifies store
      ensures DueListing(old(store.db), now, rows)
      ensures Leads(s, p, Result(Ticking(TickState(now, cap, 0, rows)), old(store.db), h),
                    Result(if r.Some? then Idle else Aborted, store.db, h))
      ensures old(Consistent(store.db)) && cap >= 1 ==>
        && r.Some? && Consistent(store.db)
        && r.value == Min(cap, Backlog(old(store.db).schedules, now))
        && Backlog(store.db.schedules, now) == Backlog(old(store.db).schedules, now) - r.value
    {
      hide Leads, Consistent, Backlog, DueListing, RowBacklog, Occurrences, Remaining;
      var emitted := 0;
      var listing := DueRows(now);
      rows := listing;
      ListingRemains(store.db, now, listing);
      ghost var start := Result(Ticking(TickState(now, cap, 0, rows)), store.db, h);
      ghost var sound := Consistent(store.db) && cap >= 1;
      ghost var before := store.db;
      Stay(s, p, start);
      assert listing[0..] == listing;
      for i := 0 to |listing|
        invariant Leads(s, p, start, Result(Ticking(TickState(now, cap, emitted, listing[i..])), store.db, h))
        invariant sound ==> Consistent(store.db) && 0 <= emitted < cap && Remaining(store.db.schedules, now, listing[i..])
        invariant sound ==> Backlog(store.db.schedules, now) + emitted == Backlog(before.schedules, now)
      {
        var due := listing[i];
        ghost var t := TickState(now, cap, emitted, listing[i..]);
        ghost var t1 := t.(rows := listing[i + 1..]);
        assert t.rows[0] == due && t.rows[1..] == t1.rows;
        StartRowPath(s, p, t, store.db, h);
        var pending, nextAt := Collect(due.row, now, cap - emitted);
        ghost var middle := Result(Ticking(t), store.db, h);
        Then(s, p, start, middle, Result(Emitting(t1, due, pending, nextAt), store.db, h));
        if sound { RemainingFirst(store.db, now, t.rows, cap - emitted, pending, nextAt); }
        var ok := EmitRow(t1, due, pending, now, nextAt, s, p, start, h);
        if !ok {
          return None, rows;
        }
        ghost var t2 := t1.(emitted := emitted + |pending|);
        ghost var schedules := store.db.schedules;
        EndRowPath(s, p, t2, due, nextAt, store.db, h);
        ghost var emitting := Result(Emitting(t2, due, [], nextAt), store.db, h);
        if sound { RowWritten(store.db, now, t.rows, pending, nextAt); }
        emitted := emitted + |pending|;
        if due.row.every.None? {
          store.db := DisableSchedule(store.db, due.id);
        } else {
          store.db := SetNextAt(store.db, due.id, nextAt);
        }
        Then(s, p, start, emitting, Result(if emitted >= cap then Idle else Ticking(t2), store.db, h));
        if emitted >= cap {
          return Some(emitted), rows;
        }
      }
      ghost var last := Result(Ticking(TickState(now, cap, emitted, [])), store.db, h);
      EndTickPath(s, p, TickState(now, cap, emitted, []), store.db, h);
      assert listing[|listing|..] == [];
      Then(s, p, start, last, Result(Idle, store.db, h));
      if sound { NothingRemains(store.db.schedules, now); }
      r := Some(emitted);
    }

    /** Repeated ticks at a fixed time empty any backlog in ceil(backlog / cap) ticks, and not sooner. */
    method TickRepeatedly(now: int, cap: int, n: nat, ghost s: Settings, ghost p: string, ghost h: History)
      returns (emitted: int)
      requires Consistent(store.db) && cap >= 1
      modifies store
      ensures Consistent(store.db)
      ensures Backlog(store.db.schedules, now) == Max(0, Backlog(old(store.db).schedules, now) - n * cap)
      ensures Backlog(store.db.schedules, now) == 0 <==> n >= (Backlog(old(store.db).schedules, now) + cap - 1) / cap
      ensures emitted == Min(n * cap, Backlog(old(store.db).schedules, now))
    {
      hide Consistent, Backlog, DueListing, Leads;
      emitted := 0;
      ghost var backlog := Backlog(store.db.schedules, now);
      for i := 0 to n
        invariant Consistent(store.db)
        invariant Backlog(store.db.schedules, now) == Max(0, backlog - i * cap)
        invariant emitted + Backlog(store.db.schedules, now) == backlog
      {
        OneTickMore(backlog, cap, i, Backlog(store.db.schedules, now));
        var r, rows := Tick(now, cap, s, p, h);
        emitted := emitted + r.value;
      }
      Ceiling(backlog, cap, n);
    }
  }

  /** Each occurrence has its event under its own key, with the schedule's work and priority 0; a new one is
      pending, available at the occurrence and created now. No other event has changed. */
  predicate Emits(a: Database, b: Database, due: Due, occurrences: seq<int>, now: int) {
    && RowsKept(a, b) && NewRows(a, b, due, occurrences, now) && NewKeys(a, b, due, now)
    && (forall at | at in occurrences :: EmitsOne(b, due, at))
  }

  predicate RowsKept(a: Database, b: Database) {
    && (forall e | e in a.events :: e in b.events && b.events[e] == a.events[e])
    && (forall key | key in a.eventKeys :: key in b.eventKeys && b.eventKeys[key] == a.eventKeys[key])
  }

  predicate NewRows(a: Database, b: Database, due: Due, occurrences: seq<int>, now: int) {
    forall e | e in b.events && e !in a.events :: exists at | at in occurrences :: b.events[e] == OccurrenceRow(due, at, now)
  }

  predicate NewKeys(a: Database, b: Database, due: Due, now: int) {
    forall key | key in b.eventKeys && key !in a.eventKeys ::
      key.OccurrenceKey? && b.eventKeys[key] in b.events && b.events[b.eventKeys[key]] == OccurrenceRow(due, key.at, now)
  }

  function OccurrenceRow(due: Due, at: int, now: int): EventRow {
    EventRow(due.row.work, 0, Some(OccurrenceKey(due.id, at)), PENDING, at, None, None, 0, now)
  }

  predicate EmitsOne(b: Database, due: Due, at: int) {
    var key := OccurrenceKey(due.id, at);
    && key in b.eventKeys && b.eventKeys[key] in b.events
    && b.events[b.eventKeys[key]].work == due.row.work && b.events[b.eventKeys[key]].priority == 0
  }

  /** What `EnqueueEvent` does for one occurrence. */
  predicate OneEnqueued(a: Database, b: Database, due: Due, at: int, now: int, newId: string) {
    var key := OccurrenceKey(due.id, at);
    if key in a.eventKeys then
      && b.events == a.events && b.eventKeys == a.eventKeys && a.eventKeys[key] in a.events
      && a.events[a.eventKeys[key]].work == due.row.work && a.events[a.eventKeys[key]].priority == 0
    else
      && newId !in a.events && b.eventKeys == a.eventKeys[key := newId]
      && b.events == a.events[newId := OccurrenceRow(due, at, now)]
  }

  lemma EmitsNone(db: Database, due: Due, now: int)
    ensures Emits(db, db, due, [], now)
  {
  }

  lemma EmitsMore(a: Database, middle: Database, b: Database, due: Due, before: seq<int>, at: int, now: int, newId: string)
    requires Emits(a, middle, due, before, now) && OneEnqueued(middle, b, due, at, now, newId)
    ensures Emits(a, b, due, before + [at], now)
  {
    hide RowsKept, NewRows, NewKeys, EmitsOne, OneEnqueued, OccurrenceRow;
    RowsGrow(a, middle, b, due, before, at, now, newId);
    KeysGrow(a, middle, b, due, at, now, newId);
    forall x | x in before + [at]
      ensures EmitsOne(b, due, x)
    {
      if x != at { assert x in before && EmitsOne(middle, due, x); }
      StillEmitted(middle, b, due, at, now, newId, x);
    }
  }

  lemma RowsGrow(a: Database, middle: Database, b: Database, due: Due, before: seq<int>, at: int, now: int, newId: string)
    requires RowsKept(a, middle) && NewRows(a, middle, due, before, now) && OneEnqueued(middle, b, due, at, now, newId)
    ensures RowsKept(a, b) && NewRows(a, b, due, before + [at], now)
  {
    hide OccurrenceRow;
    assert at in before + [at] && forall x | x in before :: x in before + [at];
  }

  lemma KeysGrow(a: Database, middle: Database, b: Database, due: Due, at: int, now: int, newId: string)
    requires NewKeys(a, middle, due, now) && OneEnqueued(middle, b, due, at, now, newId)
    ensures NewKeys(a, b, due, now)
  {
    hide OccurrenceRow;
  }

  lemma StillEmitted(middle: Database, b: Database, due: Due, at: int, now: int, newId: string, x: int)
    requires OneEnqueued(middle, b, due, at, now, newId) && (x == at || EmitsOne(middle, due, x))
    ensures EmitsOne(b, due, x)
  {
  }

  lemma OneTickMore(b: nat, cap: nat, i: nat, left: nat)
    requires left == Max(0, b - i * cap)
    ensures left - Min(cap, left) == Max(0, b - (i + 1) * cap)
  {
    assert (i + 1) * cap == i * cap + cap;
  }

  lemma EnqueueSchedules(db: Database, newId: string, due: Due, at: int, now: int)
    ensures var r := Enqueue(db, newId, due.row.work, 0, Some(OccurrenceKey(due.id, at)), now, at);
      r.Inserted? ==> r.db.schedules == db.schedules && Log(r.db, EventEnqueued(r.id, now)).schedules == db.schedules
  {
  }

  lemma NothingRemains(schedules: map<string, ScheduleRow>, now: int)
    requires Remaining(schedules, now, [])
    ensures Backlog(schedules, now) == 0
  {
    hide RowBacklog, Backlog;
    assert forall id | id in schedules :: !Listed([], id);
    NothingDue(schedules, now);
  }

  /** The first remaining row: what it contributes. */
  lemma RemainingFirst(db: Database, now: int, rows: seq<Due>, room: int, pending: seq<int>, nextAt: int)
    requires rows != [] && Remaining(db.schedules, now, rows) && Consistent(db) && room >= 1
    requires var row := rows[0].row;
      && (row.every.None? ==> |pending| == 1)
      && (row.every.Some? ==> pending == Occurrences(row.nextAt, row.every.value, now, room)
                              && nextAt == row.nextAt + |pending| * row.every.value)
    ensures rows[0].id in db.schedules && db.schedules[rows[0].id] == rows[0].row
    ensures |pending| == Min(room, RowBacklog(rows[0].row, now))
    ensures RowBacklog(RowAfter(rows[0].row, nextAt), now) == RowBacklog(rows[0].row, now) - |pending|
  {
    hide RowBacklog, Occurrences;
    RowAccount(rows[0].row, now, room, pending, nextAt);
  }

  /** Writing it back: the total goes down by what was enqueued. */
  lemma RowWritten(db: Database, now: int, rows: seq<Due>, pending: seq<int>, nextAt: int)
    requires rows != [] && Remaining(db.schedules, now, rows) && Consistent(db)
    requires RowBacklog(RowAfter(rows[0].row, nextAt), now) == RowBacklog(rows[0].row, now) - |pending|
    ensures var id := rows[0].id;
      var b := if rows[0].row.every.None? then DisableSchedule(db, id) else SetNextAt(db, id, nextAt);
      && Consistent(b) && Backlog(b.schedules, now) + |pending| == Backlog(db.schedules, now)
      && (|pending| == RowBacklog(rows[0].row, now) ==> Remaining(b.schedules, now, rows[1..]))
  {
    hide RowBacklog, Backlog, Consistent;
    var id := rows[0].id;
    var row := RowAfter(rows[0].row, nextAt);
    ReplaceRow(db.schedules, now, id, row);
    RowConsistent(db, id, row);
    if |pending| == RowBacklog(rows[0].row, now) {
      NextRemaining(db.schedules, now, rows, row);
    }
  }
}
