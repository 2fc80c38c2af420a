/** Environment (M): the queue's lease discipline. Each event's history of claims, retries and
    acknowledgements is accepted by one automaton with clock constraints, the row always agrees
    with the last entry, and the time between attempts follows from the automaton alone. */
module LeaseSafety {
  import opened Basics
  import opened JsonValues
  import opened Tables
  import opened Protocol
  import opened Growth

  // ---- the automaton --------------------------------------------------------------------

  /** May `next` follow `prev` (nothing, for the first entry)? */
  predicate Follows(s: Settings, prev: Option<LeaseEvent>, next: LeaseEvent) {
    match next
    case Claimed(_, at, until, attempt) =>
      && until == at + s.lease
      && (match prev
          case None => attempt == 1
          case Some(Claimed(_, _, expiry, n)) => at >= expiry && attempt == n + 1
          case Some(Retried(_, retryAt, n)) => at >= retryAt && attempt == n + 1
          case Some(Acked(_)) => false)
    case Acked(worker) => prev.Some? && prev.value.Claimed? && prev.value.worker == worker
    case Retried(worker, retryAt, attempt) =>
      && prev.Some? && prev.value.Claimed? && prev.value.worker == worker
      && prev.value.attempt == attempt && retryAt == prev.value.at + Backoff(attempt)
  }

  function Last(l: seq<LeaseEvent>): Option<LeaseEvent> {
    if l == [] then None else Some(l[|l| - 1])
  }

  ghost predicate Disciplined(s: Settings, l: seq<LeaseEvent>) {
    forall i | 0 <= i < |l| :: Follows(s, Last(l[..i]), l[i])
  }

  function ClaimCount(journal: seq<JournalEntry>, e: string): nat {
    if journal == [] then 0
    else
      var last := journal[|journal| - 1];
      ClaimCount(journal[..|journal| - 1], e) + if last.EventClaimed? && last.event == e then 1 else 0
  }

  /** The row says what the last entry says. */
  predicate RowAgrees(row: EventRow, last: Option<LeaseEvent>) {
    match last
    case None => row.status == PENDING && row.leaseOwner == None && row.attempts == 0
    case Some(Claimed(worker, _, until, attempt)) =>
      row.status == CLAIMED && row.leaseOwner == Some(worker) && row.leaseUntil == Some(until) && row.attempts == attempt
    case Some(Acked(_)) => row.status == DONE && row.leaseOwner == None
    case Some(Retried(_, retryAt, attempt)) =>
      row.status == PENDING && row.leaseOwner == None && row.availableAt == retryAt && row.attempts == attempt
  }

  ghost predicate EventLease(s: Settings, db: Database, h: History, e: string)
    requires e in db.events
  {
    var l := LeasesOf(h, e);
    Disciplined(s, l) && RowAgrees(db.events[e], Last(l)) && ClaimCount(db.journal, e) == db.events[e].attempts
  }

  ghost predicate KnownEvents(db: Database, h: History) {
    && (forall e | e in h.leases :: e in db.events)
    && (forall i | 0 <= i < |db.journal| && db.journal[i].EventClaimed? :: db.journal[i].event in db.events)
  }

  ghost predicate LeaseOk(s: Settings, db: Database, h: History) {
    KnownEvents(db, h) && forall e | e in db.events :: EventLease(s, db, h, e)
  }

  // ---- program counters -----------------------------------------------------------------

  /** If `p` still owns the event it visits, the row is as `p` left it at the claim. */
  predicate VisitOk(s: Settings, db: Database, p: string, v: Visit) {
    v.event in db.events && db.events[v.event].leaseOwner == Some(p) ==>
      && db.events[v.event].leaseUntil == Some(v.now + s.lease)
      && db.events[v.event].attempts == v.attempts
  }

  predicate VisitPhase(pc: PC) {
    pc.Rejecting? || pc.Submitting? || pc.Acking? || pc.AckJournaling? || pc.Loading? || pc.FailingMaxSteps?
  }

  function Visits(pc: PC): set<Visit> {
    if VisitPhase(pc) then {pc.visit} + (if pc.Acking? && pc.handler.Some? then {pc.handler.value.visit} else {})
    else if FramePhase(pc) then {pc.frame.visit}
    else if CallPhase(pc) && pc.caller.FromStep? then {pc.caller.frame.visit}
    else {}
  }

  ghost predicate PcLease(s: Settings, db: Database, p: string, pc: PC) {
    forall v | v in Visits(pc) :: v.event in db.events && VisitOk(s, db, p, v)
  }

  // ---- statements that leave leases alone -----------------------------------------------

  predicate Unleased(row: EventRow) {
    row.status == PENDING && row.leaseOwner == None && row.leaseUntil == None && row.attempts == 0
  }

  ghost predicate NoNewClaims(a: seq<JournalEntry>, b: seq<JournalEntry>) {
    a <= b && forall i | |a| <= i < |b| :: !b[i].EventClaimed?
  }

  ghost predicate RowsQuiet(a: map<string, EventRow>, b: map<string, EventRow>) {
    && (forall e | e in a :: e in b && b[e] == a[e])
    && (forall e | e in b && e !in a :: Unleased(b[e]))
  }

  ghost predicate Quiet(a: Database, b: Database) {
    NoNewClaims(a.journal, b.journal) && RowsQuiet(a.events, b.events)
  }

  lemma {:induction false} CountSame(a: seq<JournalEntry>, b: seq<JournalEntry>, e: string)
    requires NoNewClaims(a, b)
    ensures ClaimCount(b, e) == ClaimCount(a, e)
    decreases |b|
  {
    if |b| == |a| {
      assert a == b;
    } else {
      var b' := b[..|b| - 1];
      assert a <= b';
      CountSame(a, b', e);
    }
  }

  lemma {:induction false} CountUnknown(journal: seq<JournalEntry>, e: string)
    requires forall i | 0 <= i < |journal| && journal[i].EventClaimed? :: journal[i].event != e
    ensures ClaimCount(journal, e) == 0
  {
    if journal != [] {
      CountUnknown(journal[..|journal| - 1], e);
    }
  }

  lemma QuietLease(s: Settings, a: Database, b: Database, h: History)
    requires Quiet(a, b) && LeaseOk(s, a, h)
    ensures LeaseOk(s, b, h)
  {
    hide Disciplined, ClaimCount;
    forall i | 0 <= i < |b.journal| && b.journal[i].EventClaimed?
      ensures b.journal[i].event in b.events
    {
      assert i < |a.journal|;
      assert b.journal[i] == a.journal[i];
    }
    forall e | e in b.events
      ensures EventLease(s, b, h, e)
    {
      CountSame(a.journal, b.journal, e);
      if e in a.events {
        assert EventLease(s, a, h, e);
      } else {
        CountUnknown(a.journal, e);
        assert LeasesOf(h, e) == [];
        assert Disciplined(s, []) by { EmptyDisciplined(s); }
      }
    }
  }

  lemma EmptyDisciplined(s: Settings)
    ensures Disciplined(s, [])
  {
  }

  lemma QuietSame(a: Database, b: Database)
    requires b.events == a.events && NoNewClaims(a.journal, b.journal)
    ensures Quiet(a, b)
  {
  }

  lemma QuietTransitive(a: Database, b: Database, c: Database)
    requires Quiet(a, b) && Quiet(b, c)
    ensures Quiet(a, c)
  {
  }

  lemma EnqueueQuiet(db: Database, newId: string, work: Work, priority: int, dedup: Option<DedupKey>, now: int, at: int)
    ensures var r := Enqueue(db, newId, work, priority, dedup, now, at); r.Inserted? ==> Quiet(db, r.db)
  {
  }

  lemma EnqueueStepQuiet(db: Database, newId: string, run: string, step: nat, priority: int, now: int)
    ensures var r := EnqueueStep(db, newId, run, step, priority, now); r.Some? ==> Quiet(db, r.value)
  {
    EnqueueQuiet(db, newId, RunStep(run, step), priority, Some(RunStepKey(run, step)), now, now);
  }

  lemma CreateQuiet(db: Database, newRun: string, newEvent: string, task: string, capabilities: set<string>,
                    source: Option<string>, priority: int, now: int)
    ensures var r := CreateRunWithInitialStep(db, newRun, newEvent, task, capabilities, source, priority, now);
      r.Some? ==> Quiet(db, r.value.db)
  {
    hide EnqueueStep;
    var created := CreateRun(db, newRun, task, capabilities, source);
    if created.Some? {
      EnqueueStepQuiet(created.value.db, newEvent, created.value.run, 0, priority, now);
    }
  }

  lemma AdvanceQuiet(db: Database, run: string, step: nat, newEvent: string, priority: int, now: int)
    ensures var r := AdvanceRunStep(db, run, step, newEvent, priority, now); r.Some? ==> Quiet(db, r.value)
  {
    hide EnqueueStep;
    if run in db.runs {
      var row := db.runs[run].(stepCount := step + 1, lastError := None);
      EnqueueStepQuiet(db.(runs := db.runs[run := row]), newEvent, run, step + 1, priority, now);
    }
  }

  lemma ResumeQuiet(db: Database, run: string, newEvent: string, priority: int, now: int)
    ensures var r := ResumeRun(db, run, newEvent, priority, now); r.Some? ==> Quiet(db, r.value)
  {
    hide EnqueueStep, Quiet;
    if run in db.runs {
      var next := db.runs[run].stepCount + 1;
      var row := db.runs[run].(status := RUNNING, blockedRequest := None, lastError := None, stepCount := next);
      var db1 := Log(db.(runs := db.runs[run := row]), RunEffectRecovered(run, next, now));
      EnqueueStepQuiet(db1, newEvent, run, next, priority, now);
      QuietSame(db, db1);
      var r := EnqueueStep(db1, newEvent, run, next, priority, now);
      if r.Some? {
        QuietTransitive(db, db1, r.value);
      }
    }
  }

  lemma ClosingStepQuiet(pc: PC, db: Database, h: History, i: Input)
    requires ClosingPhase(pc)
    ensures var r := ClosingStep(pc, db, h, i); Quiet(db, r.db) && r.hist == h
  {
    hide Quiet, AdvanceRunStep, ResumeRun;
    QuietSame(db, db);
    if pc.Advancing? {
      AdvanceQuiet(db, pc.frame.run, pc.frame.step, i.newEvent, pc.frame.visit.priority, pc.frame.visit.now);
    } else if pc.Resuming? {
      ResumeQuiet(db, pc.run, i.newEvent, 0, pc.now);
    } else {
      QuietSame(db, ClosingStep(pc, db, h, i).db);
    }
  }

  lemma DecisionStepQuiet(s: Settings, pc: PC, db: Database, h: History, i: Input)
    requires DecisionPhase(pc)
    ensures var r := DecisionStep(s, pc, db, h, i); Quiet(db, r.db) && r.hist == h
  {
    hide Quiet, AfterLoad, Act, FindKey;
    QuietSame(db, DecisionStep(s, pc, db, h, i).db);
  }

  lemma ToolStepQuiet(s: Settings, pc: PC, db: Database, h: History, i: Input)
    requires ToolPhase(pc)
    ensures var r := ToolStep(s, pc, db, h, i); Quiet(db, r.db) && r.hist.leases == h.leases
  {
    hide Quiet, AfterLookup, AfterRecovery, AfterRaise, SetEffect, MarkUnknown, AdmitEffect, RecordMessage, SameLedger;
    ToolStepFrame(s, pc, db, h, i);
    QuietSame(db, ToolStep(s, pc, db, h, i).db);
  }

  lemma TickStepQuiet(pc: PC, db: Database, h: History, i: Input)
    requires TickPhase(pc)
    ensures var r := TickStep(pc, db, h, i); Quiet(db, r.db) && r.hist == h
  {
    hide Quiet, Enqueue, Occurrences;
    if pc.Emitting? && pc.pending != [] {
      var at := pc.pending[0];
      QuietSame(db, db);
      EnqueueQuiet(db, i.newEvent, pc.due.row.work, 0, Some(OccurrenceKey(pc.due.id, at)), pc.tick.now, at);
    } else {
      QuietSame(db, TickStep(pc, db, h, i).db);
    }
  }

  lemma EventStepQuiet(p: string, pc: PC, db: Database, h: History, i: Input)
    requires EventPhase(pc) && !pc.Acking? && !pc.Requeueing?
    ensures var r := EventStep(p, pc, db, h, i); Quiet(db, r.db) && r.hist == h
  {
    hide Quiet, CreateRunWithInitialStep;
    if pc.Submitting? {
      QuietSame(db, db);
      CreateQuiet(db, i.newRun, i.newEvent, pc.task, pc.capabilities, Some(pc.visit.event), 0, pc.visit.now);
    } else {
      QuietSame(db, EventStep(p, pc, db, h, i).db);
    }
  }

  // ---- claim, acknowledge, requeue ------------------------------------------------------

  lemma Extend(s: Settings, l: seq<LeaseEvent>, next: LeaseEvent)
    requires Disciplined(s, l) && Follows(s, Last(l), next)
    ensures Disciplined(s, l + [next]) && Last(l + [next]) == Some(next)
  {
    var l' := l + [next];
    forall i | 0 <= i < |l'|
      ensures Follows(s, Last(l'[..i]), l'[i])
    {
      if i < |l| {
        assert l'[..i] == l[..i];
      } else {
        assert l'[..i] == l;
      }
    }
  }

  lemma CountAppend(journal: seq<JournalEntry>, entry: JournalEntry, e: string)
    ensures ClaimCount(journal + [entry], e)
            == ClaimCount(journal, e) + if entry.EventClaimed? && entry.event == e then 1 else 0
  {
    assert (journal + [entry])[..|journal|] == journal;
  }

  lemma LeaseKnown(a: Database, h: History, e: string, next: LeaseEvent, b: Database)
    requires KnownEvents(a, h) && e in a.events && b.events.Keys == a.events.Keys
    requires if next.Claimed? then b.journal == a.journal + [EventClaimed(e, next.worker, next.attempt, next.until, next.at)]
             else b.journal == a.journal
    ensures KnownEvents(b, AddLease(h, e, next))
  {
  }

  /** One event row and its history move together. */
  lemma LeaseMove(s: Settings, a: Database, h: History, e: string, row: EventRow, next: LeaseEvent, b: Database)
    requires LeaseOk(s, a, h) && e in a.events
    requires Follows(s, Last(LeasesOf(h, e)), next) && RowAgrees(row, Some(next))
    requires b.events == a.events[e := row]
    requires next.Claimed? ==> b.journal == a.journal + [EventClaimed(e, next.worker, next.attempt, next.until, next.at)]
    requires next.Claimed? ==> row.attempts == a.events[e].attempts + 1
    requires !next.Claimed? ==> b.journal == a.journal && row.attempts == a.events[e].attempts
    ensures LeaseOk(s, b, AddLease(h, e, next))
  {
    hide Follows, RowAgrees, Disciplined, ClaimCount, KnownEvents;
    var h' := AddLease(h, e, next);
    assert EventLease(s, a, h, e);
    Extend(s, LeasesOf(h, e), next);
    assert KnownEvents(b, h') by { LeaseKnown(a, h, e, next, b); }
    forall x | x in b.events
      ensures EventLease(s, b, h', x)
    {
      assert EventLease(s, a, h, x);
      if next.Claimed? {
        CountAppend(a.journal, EventClaimed(e, next.worker, next.attempt, next.until, next.at), x);
      }
    }
  }

  lemma ClaimLease(s: Settings, db: Database, h: History, e: string, p: string, now: int)
    requires LeaseOk(s, db, h) && e in db.events && Eligible(db.events[e], now)
    ensures LeaseOk(s, Claim(db, e, p, now, s.lease), AddLease(h, e, Claimed(p, now, now + s.lease, db.events[e].attempts + 1)))
  {
    hide KnownEvents, Disciplined;
    assert EventLease(s, db, h, e);
    var row := Claim(db, e, p, now, s.lease).events[e];
    LeaseMove(s, db, h, e, row, Claimed(p, now, now + s.lease, db.events[e].attempts + 1), Claim(db, e, p, now, s.lease));
  }

  lemma AckLease(s: Settings, db: Database, h: History, e: string, p: string)
    requires LeaseOk(s, db, h)
    ensures var r := Acknowledge(db, e, p); r.Some? ==> LeaseOk(s, r.value, AddLease(h, e, Acked(p)))
  {
    hide KnownEvents, Disciplined;
    var r := Acknowledge(db, e, p);
    if r.Some? {
      assert EventLease(s, db, h, e);
      LeaseMove(s, db, h, e, r.value.events[e], Acked(p), r.value);
    }
  }

  lemma RequeueLease(s: Settings, db: Database, h: History, p: string, v: Visit)
    requires LeaseOk(s, db, h) && VisitOk(s, db, p, v)
    ensures var retryAt := v.now + Backoff(v.attempts);
      var r := Requeue(db, v.event, p, retryAt);
      r.Some? ==> LeaseOk(s, r.value, AddLease(h, v.event, Retried(p, retryAt, v.attempts)))
  {
    hide KnownEvents, Disciplined, Backoff;
    var retryAt := v.now + Backoff(v.attempts);
    var r := Requeue(db, v.event, p, retryAt);
    if r.Some? {
      assert EventLease(s, db, h, v.event);
      var l := LeasesOf(h, v.event);
      assert Last(l).Some? && Last(l).value.Claimed? && Last(l).value.at == v.now by { LastClaim(s, l, v.now); }
      LeaseMove(s, db, h, v.event, r.value.events[v.event], Retried(p, retryAt, v.attempts), r.value);
    }
  }

  lemma LastClaim(s: Settings, l: seq<LeaseEvent>, now: int)
    requires Disciplined(s, l) && Last(l).Some? && Last(l).value.Claimed? && Last(l).value.until == now + s.lease
    ensures Last(l).value.at == now
  {
    assert Follows(s, Last(l[..|l| - 1]), l[|l| - 1]);
  }

  // ---- every step -----------------------------------------------------------------------

  lemma QuietKeeps(s: Settings, p: string, pc: PC, a: Database, b: Database)
    requires Quiet(a, b)
    ensures LeasesKept(p, a.events, b.events)
    ensures PcLease(s, a, p, pc) ==> PcLease(s, b, p, pc)
  {
    hide Visits;
  }

  lemma VisitsOfOthers(s: Settings, a: Database, b: Database, p: string, q: string, pc: PC)
    requires LeasesKept(p, a.events, b.events) && p != q && PcLease(s, a, q, pc)
    requires forall e | e in a.events :: e in b.events
    ensures PcLease(s, b, q, pc)
  {
    hide Visits;
  }

  lemma EventStepVisits(p: string, pc: PC, db: Database, h: History, i: Input)
    requires EventPhase(pc)
    ensures Visits(EventStep(p, pc, db, h, i).pc) <= Visits(pc)
  {
    hide Log, CreateRunWithInitialStep, Acknowledge, Requeue;
  }

  lemma DecisionStepVisits(s: Settings, pc: PC, db: Database, h: History, i: Input)
    requires DecisionPhase(pc)
    ensures Visits(DecisionStep(s, pc, db, h, i).pc) <= Visits(pc)
  {
    hide RecordDecision, RecordMessage, UpdateRun;
  }

  lemma ClosingStepVisits(pc: PC, db: Database, h: History, i: Input)
    requires ClosingPhase(pc)
    ensures Visits(ClosingStep(pc, db, h, i).pc) <= Visits(pc)
  {
    hide AdvanceRunStep, ResumeRun, UpdateRun, BlockRun, Log;
  }

  lemma ToolStepVisits(s: Settings, pc: PC, db: Database, h: History, i: Input)
    requires ToolPhase(pc)
    ensures Visits(ToolStep(s, pc, db, h, i).pc) <= Visits(pc)
  {
    hide Admissible, AdmitEffect, SetEffect, MarkUnknown, RecordMessage, AddCompletion, StoredCall;
  }

  lemma NextVisits(s: Settings, p: string, pc: PC, db: Database, h: History, i: Input)
    ensures Visits(Next(s, p, pc, db, h, i).pc) <= Visits(pc)
  {
    hide EventStep, DecisionStep, ClosingStep, ToolStep, Enqueue, Occurrences;
    if EventPhase(pc) {
      EventStepVisits(p, pc, db, h, i);
    } else if DecisionPhase(pc) {
      DecisionStepVisits(s, pc, db, h, i);
    } else if ClosingPhase(pc) {
      ClosingStepVisits(pc, db, h, i);
    } else if ToolPhase(pc) {
      ToolStepVisits(s, pc, db, h, i);
    }
  }

  /** Acknowledging or requeueing gives up the row. */
  lemma ReleaseLease(s: Settings, p: string, pc: PC, db: Database, h: History, i: Input)
    requires (pc.Acking? || pc.Requeueing?) && LeaseOk(s, db, h) && PcLease(s, db, p, pc)
    ensures var r := EventStep(p, pc, db, h, i);
      LeaseOk(s, r.db, r.hist) && PcLease(s, r.db, p, pc) && LeasesKept(p, db.events, r.db.events)
  {
    hide LeaseOk, Backoff;
    if pc.Acking? {
      AckLease(s, db, h, pc.visit.event, p);
    } else {
      RequeueLease(s, db, h, p, pc.frame.visit);
    }
  }

  lemma NextQuiet(s: Settings, p: string, pc: PC, db: Database, h: History, i: Input)
    requires !pc.Acking? && !pc.Requeueing?
    ensures var r := Next(s, p, pc, db, h, i); Quiet(db, r.db) && r.hist.leases == h.leases
  {
    hide EventStep, DecisionStep, ClosingStep, ToolStep, TickStep, Quiet;
    if EventPhase(pc) {
      EventStepQuiet(p, pc, db, h, i);
    } else if DecisionPhase(pc) {
      DecisionStepQuiet(s, pc, db, h, i);
    } else if ClosingPhase(pc) {
      ClosingStepQuiet(pc, db, h, i);
    } else if ToolPhase(pc) {
      ToolStepQuiet(s, pc, db, h, i);
    } else if TickPhase(pc) {
      TickStepQuiet(pc, db, h, i);
    } else {
      QuietSame(db, db);
    }
  }

  lemma LeasesOnly(s: Settings, db: Database, h: History, h': History)
    requires LeaseOk(s, db, h) && h'.leases == h.leases
    ensures LeaseOk(s, db, h')
  {
    hide Disciplined, ClaimCount;
    forall e | e in db.events
      ensures EventLease(s, db, h', e)
    {
      assert EventLease(s, db, h, e);
    }
  }

  lemma NextLease(s: Settings, p: string, pc: PC, db: Database, h: History, i: Input)
    requires LeaseOk(s, db, h) && PcLease(s, db, p, pc)
    ensures var r := Next(s, p, pc, db, h, i);
      LeaseOk(s, r.db, r.hist) && PcLease(s, r.db, p, r.pc) && LeasesKept(p, db.events, r.db.events)
  {
    hide LeaseOk, LeasesKept, Quiet, Visits, EventStep, DecisionStep, ClosingStep, ToolStep, TickStep;
    var r := Next(s, p, pc, db, h, i);
    NextVisits(s, p, pc, db, h, i);
    if pc.Acking? || pc.Requeueing? {
      ReleaseLease(s, p, pc, db, h, i);
    } else {
      NextQuiet(s, p, pc, db, h, i);
      QuietKeeps(s, p, pc, db, r.db);
      QuietLease(s, db, r.db, h);
      LeasesOnly(s, r.db, h, r.hist);
    }
  }

  // ---- the invariant of the whole system ------------------------------------------------

  ghost predicate LeaseInv(s: Settings, c: Config) {
    LeaseOk(s, c.db, c.hist) && forall p | p in c.procs :: PcLease(s, c.db, p, c.procs[p])
  }

  lemma OthersLease(s: Settings, c: Config, c': Config, p: string)
    requires LeaseInv(s, c) && LeaseOk(s, c'.db, c'.hist) && LeasesKept(p, c.db.events, c'.db.events)
    requires forall e | e in c.db.events :: e in c'.db.events
    requires forall q | q in c'.procs && q != p :: q in c.procs && c'.procs[q] == c.procs[q]
    requires p in c'.procs ==> PcLease(s, c'.db, p, c'.procs[p])
    ensures LeaseInv(s, c')
  {
    hide LeaseOk, PcLease, LeasesKept;
    forall q | q in c'.procs
      ensures PcLease(s, c'.db, q, c'.procs[q])
    {
      if q != p {
        VisitsOfOthers(s, c.db, c'.db, p, q, c.procs[q]);
      }
    }
  }

  /** A step that leaves rows and histories alone and moves at most the counter of `p`. */
  lemma QuietInv(s: Settings, c: Config, c': Config, p: string)
    requires LeaseInv(s, c) && Quiet(c.db, c'.db) && c'.hist.leases == c.hist.leases
    requires forall q | q in c'.procs && q != p :: q in c.procs && c'.procs[q] == c.procs[q]
    requires p in c'.procs ==> Visits(c'.procs[p]) <= Visits(Pc(c, p))
    ensures LeaseInv(s, c')
  {
    hide LeaseOk, Visits, NoNewClaims;
    QuietLease(s, c.db, c'.db, c.hist);
    LeasesOnly(s, c'.db, c.hist, c'.hist);
    if p in c'.procs {
      assert Visits(Idle) == {} by { IdleVisits(); }
      QuietKeeps(s, p, Pc(c, p), c.db, c'.db);
    }
    QuietKeeps(s, p, Idle, c.db, c'.db);
    OthersLease(s, c, c', p);
  }

  lemma IdleVisits()
    ensures Visits(Idle) == {}
  {
  }

  lemma DispatchVisits(v: Visit, work: Work)
    ensures Visits(Dispatch(v, work)) <= {v}
  {
    hide AdmitTask;
  }

  lemma ClaimInv(s: Settings, c: Config, p: string, i: Input)
    requires LeaseInv(s, c) && Enabled(c, ClaimNext(p), i) && i.choice.Some?
    ensures LeaseInv(s, ApplyClaim(s, c, p, i))
  {
    hide LeaseOk, Dispatch, Visits;
    var e := i.choice.value;
    var c' := ApplyClaim(s, c, p, i);
    ClaimLease(s, c.db, c.hist, e, p, i.now);
    var v := Visit(e, c.db.events[e].priority, c.db.events[e].attempts + 1, i.now);
    DispatchVisits(v, c.db.events[e].work);
    OthersLease(s, c, c', p);
  }

  lemma UnwindVisits(pc: PC)
    ensures Visits(Unwind(pc)) <= Visits(pc)
  {
  }

  lemma ReconcileQuiet(db: Database, request: string, effectOccurred: bool, evidence: string, result: Option<Json>)
    ensures var r := Reconcile(db, request, effectOccurred, evidence, result); r.Some? ==> Quiet(db, r.value)
  {
    hide Quiet, IsHexDigest, LowerHex;
    var r := Reconcile(db, request, effectOccurred, evidence, result);
    if r.Some? { QuietSame(db, r.value); }
  }

  lemma AddScheduleQuiet(db: Database, id: string, work: Work, every: int, firstAt: int)
    ensures var r := AddSchedule(db, id, work, every, firstAt); r.Some? ==> Quiet(db, r.value)
  {
    hide Quiet;
    var r := AddSchedule(db, id, work, every, firstAt);
    if r.Some? { QuietSame(db, r.value); }
  }

  lemma HostInv(s: Settings, c: Config, a: Action, i: Input)
    requires a.HostSubmit? || a.HostReconcile? || a.AddInterval? || a.HostEnqueue?
    requires LeaseInv(s, c) && Enabled(c, a, i)
    ensures LeaseInv(s, Apply(s, c, a, i))
  {
    hide LeaseInv, Quiet, Enqueue, CreateRunWithInitialStep, Next, Reconcile, AddSchedule;
    var c' := Apply(s, c, a, i);
    QuietSame(c.db, c.db);
    if a.HostSubmit? {
      CreateQuiet(c.db, i.newRun, i.newEvent, a.task, a.capabilities, a.source, 0, i.now);
      QuietInv(s, c, c', "");
    } else if a.HostEnqueue? {
      var at := if a.availableAt.Some? then a.availableAt.value else i.now;
      EnqueueQuiet(c.db, i.newEvent, a.work, a.priority, a.dedup, i.now, at);
      QuietInv(s, c, c', a.p);
    } else {
      if a.HostReconcile? {
        ReconcileQuiet(c.db, a.request, a.effectOccurred, a.evidence, a.result);
      } else {
        AddScheduleQuiet(c.db, a.id, a.work, a.every, a.firstAt);
      }
      QuietInv(s, c, c', "");
    }
  }

  lemma ApplyLeaseInv(s: Settings, c: Config, a: Action, i: Input)
    requires LeaseInv(s, c) && Enabled(c, a, i)
    ensures LeaseInv(s, Apply(s, c, a, i))
  {
    hide LeaseOk, PcLease, Quiet, Visits, LeasesKept, Grows, Next, Unwind, ApplyClaim, StartResume, AddSchedule, Enqueue, Reconcile;
    QuietSame(c.db, c.db);
    if a.Work? {
      NextLease(s, a.p, Pc(c, a.p), c.db, c.hist, i);
      NextKeys(s, a.p, Pc(c, a.p), c.db, c.hist, i);
      OthersLease(s, c, Apply(s, c, a, i), a.p);
    } else if a.ClaimNext? {
      if i.choice.Some? {
        ClaimInv(s, c, a.p, i);
      } else {
        ClaimNone(s, c, a.p, i);
      }
    } else if a.Resume? {
      ResumeVisits(c, a.p, a.run, i.now);
      QuietInv(s, c, Apply(s, c, a, i), a.p);
    } else if a.Tick? || a.Crash? {
      PassiveVisits(i.now, if a.Tick? then a.cap else 0, if a.Tick? then a.rows else []);
      QuietInv(s, c, Apply(s, c, a, i), a.p);
    } else if a.Throw? {
      UnwindVisits(Pc(c, a.p));
      QuietInv(s, c, Apply(s, c, a, i), a.p);
    } else {
      HostInv(s, c, a, i);
    }
  }

  lemma ClaimNone(s: Settings, c: Config, p: string, i: Input)
    requires i.choice.None?
    ensures ApplyClaim(s, c, p, i) == c
  {
  }

  lemma ResumeVisits(c: Config, p: string, run: string, now: int)
    ensures Visits(StartResume(c, p, run, now)) == {}
  {
  }

  lemma PassiveVisits(now: int, cap: int, rows: seq<Due>)
    ensures Visits(Idle) == {} && Visits(Ticking(TickState(now, cap, 0, rows))) == {}
  {
  }

  lemma NextKeys(s: Settings, p: string, pc: PC, db: Database, h: History, i: Input)
    ensures forall e | e in db.events :: e in Next(s, p, pc, db, h, i).db.events
  {
    hide Next;
    NextGrows(s, p, pc, db, h, i);
  }

  lemma {:induction false} LeaseExecution(s: Settings, trace: seq<Config>, n: nat)
    requires Execution(s, trace) && n < |trace|
    ensures LeaseInv(s, trace[n])
  {
    hide Step, LeaseInv;
    if n == 0 {
      assert LeaseInv(s, INITIAL_CONFIG) by { LeaseInitial(s); }
    } else {
      LeaseExecution(s, trace, n - 1);
      assert Step(s, trace[n - 1], trace[n]);
      LeaseStep(s, trace[n - 1], trace[n]);
    }
  }

  lemma LeaseInitial(s: Settings)
    ensures LeaseInv(s, INITIAL_CONFIG)
  {
  }

  lemma LeaseStep(s: Settings, c: Config, c': Config)
    requires LeaseInv(s, c) && Step(s, c, c')
    ensures LeaseInv(s, c')
  {
    hide LeaseInv, Apply, Enabled;
    var a, i :| Enabled(c, a, i) && c' == Apply(s, c, a, i);
    ApplyLeaseInv(s, c, a, i);
  }

  // ---- what it says ---------------------------------------------------------------------

  lemma Adjacent(s: Settings, l: seq<LeaseEvent>, k: nat)
    requires Disciplined(s, l) && k < |l|
    ensures Follows(s, if k == 0 then None else Some(l[k - 1]), l[k])
  {
    hide Follows;
    assert Follows(s, Last(l[..k]), l[k]);
  }

  lemma {:induction false} ClaimsApart(s: Settings, l: seq<LeaseEvent>, i: nat, j: nat)
    requires Disciplined(s, l) && i <= j < |l|
    requires forall k | i <= k <= j :: l[k].Claimed?
    ensures l[j].at >= l[i].at + (j - i) * s.lease
    decreases j - i
  {
    hide Disciplined;
    if i < j {
      ClaimsApart(s, l, i, j - 1);
      Adjacent(s, l, j);
      Adjacent(s, l, j - 1);
      assert l[j].at >= l[j - 1].at + s.lease;
      assert (j - i) * s.lease == (j - 1 - i) * s.lease + s.lease;
    }
  }

  /** Claims `i` to `j` with no release between them are a lease apart, each from the next; a
      release comes from the last claimant; an acknowledgement ends the history and only then is
      the row DONE; the journal counts the attempts. */
  lemma LeaseDiscipline(s: Settings, trace: seq<Config>, n: nat, e: string, i: nat, j: nat)
    requires Execution(s, trace) && n < |trace| && e in trace[n].db.events
    requires i <= j < |LeasesOf(trace[n].hist, e)|
    ensures var l := LeasesOf(trace[n].hist, e);
      && ((forall k | i <= k <= j :: l[k].Claimed?) ==> l[j].at >= l[i].at + (j - i) * s.lease)
      && (l[j].Acked? <==> trace[n].db.events[e].status == DONE && j == |l| - 1)
      && (!l[j].Claimed? ==> j > 0 && l[j - 1].Claimed? && l[j - 1].worker == l[j].worker)
      && ClaimCount(trace[n].db.journal, e) == trace[n].db.events[e].attempts
  {
    hide Execution, ClaimCount, Backoff, Disciplined;
    LeaseExecution(s, trace, n);
    var l := LeasesOf(trace[n].hist, e);
    assert EventLease(s, trace[n].db, trace[n].hist, e);
    if forall k | i <= k <= j :: l[k].Claimed? {
      ClaimsApart(s, l, i, j);
    }
    Adjacent(s, l, j);
    if j < |l| - 1 {
      Adjacent(s, l, j + 1);
    }
  }

  /** At every point, crash points included, the `attempts` of an event, claimed or not, is the number of
      its EVENT_CLAIMED entries; it is 0 before the first claim. */
  lemma AttemptsCounted(s: Settings, trace: seq<Config>, n: nat, e: string)
    requires Execution(s, trace) && n < |trace| && e in trace[n].db.events
    ensures ClaimCount(trace[n].db.journal, e) == trace[n].db.events[e].attempts
    ensures LeasesOf(trace[n].hist, e) == [] ==> trace[n].db.events[e].attempts == 0
  {
    hide Execution, ClaimCount, Disciplined;
    LeaseExecution(s, trace, n);
    assert EventLease(s, trace[n].db, trace[n].hist, e);
  }

  function TotalBackoff(n: nat): int {
    if n == 0 then 0 else TotalBackoff(n - 1) + Backoff(n)
  }

  lemma {:induction false} TotalBackoffClosed(n: nat)
    requires n >= 5
    ensures TotalBackoff(n) == TICKS_PER_SECOND * (60 * n - 238)
  {
    if n == 5 {
      assert Pow2(1) == 2 && Pow2(2) == 4 && Pow2(3) == 8 && Pow2(4) == 16 && Pow2(5) == 32;
      assert TotalBackoff(1) == TICKS_PER_SECOND * 2;
      assert TotalBackoff(2) == TICKS_PER_SECOND * 6;
      assert TotalBackoff(3) == TICKS_PER_SECOND * 14;
      assert TotalBackoff(4) == TICKS_PER_SECOND * 30;
    } else {
      TotalBackoffClosed(n - 1);
      assert Pow2(6) == 64 by { assert Pow2(4) == 16; }
      assert Backoff(n) == TICKS_PER_SECOND * 60;
    }
  }

  lemma {:induction false} RetriesApart(s: Settings, l: seq<LeaseEvent>, k: nat)
    requires Disciplined(s, l) && 2 * k < |l|
    requires forall i | 0 <= i < k :: l[2 * i + 1].Retried?
    requires l[2 * k].Claimed?
    ensures l[0].Claimed? && l[2 * k].at >= l[0].at + TotalBackoff(k) && l[2 * k].attempt == k + 1
  {
    hide Disciplined, Backoff;
    if k == 0 {
      Adjacent(s, l, 0);
    } else {
      assert l[2 * (k - 1) + 1].Retried?;
      Adjacent(s, l, 2 * k);
      Adjacent(s, l, 2 * k - 1);
      RetriesApart(s, l, k - 1);
    }
  }

  /** The retry rate: if the first `k` attempts at an event all end in `fail_event`, the next claim
      comes at least the sum of the first `k` back-offs after the first. */
  lemma RetryRate(s: Settings, trace: seq<Config>, n: nat, e: string, k: nat)
    requires Execution(s, trace) && n < |trace| && e in trace[n].db.events
    requires 2 * k < |LeasesOf(trace[n].hist, e)| && LeasesOf(trace[n].hist, e)[2 * k].Claimed?
    requires forall i | 0 <= i < k :: LeasesOf(trace[n].hist, e)[2 * i + 1].Retried?
    ensures var l := LeasesOf(trace[n].hist, e);
      l[0].Claimed? && l[2 * k].at >= l[0].at + TotalBackoff(k)
    ensures k >= 5 ==> TotalBackoff(k) == TICKS_PER_SECOND * (60 * k - 238)
  {
    hide Execution, ClaimCount, Backoff, Disciplined, TotalBackoff;
    LeaseExecution(s, trace, n);
    assert EventLease(s, trace[n].db, trace[n].hist, e);
    RetriesApart(s, LeasesOf(trace[n].hist, e), k);
    if k >= 5 { TotalBackoffClosed(k); }
  }
}
