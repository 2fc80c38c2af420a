/** The `Store` class. One field holds the tables; a method that commits several statements at once
    works on a copy of it and writes it back, or leaves the field alone, which is the rollback. */
module DurableStore {
  import opened Basics
  import opened JsonValues
  import opened Tables
  import opened Growth

  datatype Event = Event(id: string, work: Work, priority: int, attempts: nat)

  /** The `run.step` event of a generation can be had: it is free with a free identifier, or there with
      the same priority. */
  predicate Schedulable(a: Database, newEvent: string, run: string, step: nat, priority: int) {
    var key := RunStepKey(run, step);
    if key in a.eventKeys then
      && a.eventKeys[key] in a.events && a.events[a.eventKeys[key]].work == RunStep(run, step)
      && a.events[a.eventKeys[key]].priority == priority
    else newEvent !in a.events
  }

  /** The `run.step` event of a generation: inserted under its key, or there already. */
  predicate Scheduled(a: Database, b: Database, newEvent: string, run: string, step: nat, priority: int, now: int) {
    var key := RunStepKey(run, step);
    if key in a.eventKeys then
      && b.events == a.events && b.eventKeys == a.eventKeys && a.eventKeys[key] in a.events
      && a.events[a.eventKeys[key]].work == RunStep(run, step) && a.events[a.eventKeys[key]].priority == priority
    else
      && newEvent !in a.events && b.eventKeys == a.eventKeys[key := newEvent]
      && b.events == a.events[newEvent :=
           EventRow(RunStep(run, step), priority, Some(key), PENDING, now, None, None, 0, now)]
  }

  /** Due, and not taken by a live lease. */
  predicate Claimable(row: EventRow, now: int) {
    && row.availableAt <= now && row.status != DONE
    && (row.status == CLAIMED ==> row.leaseUntil.Some? && row.leaseUntil.value <= now)
  }

  /** Each column given is written, the others are as before. */
  predicate Columns(a: RunRow, b: RunRow, status: Option<RunStatus>, finalText: Option<string>, lastError: Option<string>,
                    clearLastError: bool, incrementStep: bool)
  {
    && b == a.(status := b.status, finalText := b.finalText, lastError := b.lastError, stepCount := b.stepCount)
    && b.status == (if status.Some? then status.value else a.status)
    && b.finalText == (if finalText.Some? then finalText else a.finalText)
    && b.lastError == (if clearLastError then None else if lastError.Some? then lastError else a.lastError)
    && b.stepCount == a.stepCount + if incrementStep then 1 else 0
  }

  lemma UpdatedColumns(db: Database, run: string, status: Option<RunStatus>, finalText: Option<string>,
                       lastError: Option<string>, clearLastError: bool, incrementStep: bool)
    requires run in db.runs
    ensures var b := UpdateRun(db, run, status, finalText, lastError, clearLastError, incrementStep);
      && run in b.runs && b == db.(runs := db.runs[run := b.runs[run]])
      && Columns(db.runs[run], b.runs[run], status, finalText, lastError, clearLastError, incrementStep)
  {
  }

  /** The source's run is there with the same request, or both identifiers are free; and its first event
      can be had. */
  predicate Submittable(a: Database, task: string, capabilities: set<string>, source: Option<string>, newRun: string,
                        newEvent: string, priority: int)
  {
    if source.Some? && source.value in a.runSources then
      var r := a.runSources[source.value];
      && r in a.runs && a.runs[r].task == task && a.runs[r].capabilities == capabilities
      && Schedulable(a, newEvent, r, 0, priority)
    else newRun !in a.runs && Schedulable(a, newEvent, newRun, 0, priority)
  }

  /** The source's run, or a new RUNNING one at generation 0 that is now the source's. */
  predicate HasRunOf(a: Database, b: Database, task: string, capabilities: set<string>, source: Option<string>,
                      newRun: string, run: string)
  {
    if source.Some? && source.value in a.runSources then
      SameRuns(a, b) && run == a.runSources[source.value] && run in b.runs && b.runs[run].task == task && b.runs[run].capabilities == capabilities
    else
      && run == newRun && b.runs == a.runs[newRun := RunRow(task, capabilities, RUNNING, 0, None, None, None, source)]
      && b.runSources == if source.Some? then a.runSources[source.value := newRun] else a.runSources
  }

  class Store {
    var db: Database

    constructor ()
      ensures db == EMPTY_DATABASE
    {
      db := EMPTY_DATABASE;
    }

    method AppendJournal(entry: JournalEntry)
      modifies this
      ensures db == Log(old(db), entry)
    {
      db := db.(journal := db.journal + [entry]);
    }

    /** A version 4 UUID: an identifier not in use. */
    method NewId(used: set<string>) returns (id: string)
      ensures id !in used
    {
      id := "";
      var todo := used;
      while todo != {}
        invariant todo <= used
        invariant forall x | x in used && x !in todo :: |x| <= |id|
        decreases |todo|
      {
        var x :| x in todo;
        if |x| > |id| {
          id := x;
        }
        todo := todo - {x};
      }
      id := id + "0";
    }

    // ---- events -------------------------------------------------------------------------

    /** `reuse_or_reject`: the same request gets the same event, another one is refused. */
    method ReuseOrReject(id: string, work: Work, priority: int) returns (ok: bool)
      ensures ok <==> id in db.events && db.events[id].work == work && db.events[id].priority == priority
    {
      if id !in db.events {
        return false;
      }
      var row := db.events[id];
      return row.work == work && row.priority == priority;
    }

    /** `enqueue_event` up to its journal entry. */
    method InsertEvent(newId: string, work: Work, priority: int, dedup: Option<DedupKey>, now: int, availableAt: int)
      returns (r: Enqueued)
      modifies this
      ensures r == Enqueue(old(db), newId, work, priority, dedup, now, availableAt)
      ensures db == if r.Inserted? then r.db else old(db)
    {
      if dedup.Some? && dedup != Some(ExternalKey("")) && dedup.value in db.eventKeys {
        var same := ReuseOrReject(db.eventKeys[dedup.value], work, priority);
        return if same then Reused(db.eventKeys[dedup.value]) else Refused;
      }
      if newId in db.events || (dedup.Some? && dedup.value in db.eventKeys) {
        return Refused;
      }
      db := db.(events := db.events[newId :=
        EventRow(work, priority, dedup, PENDING, availableAt, None, None, 0, now)]);
      if dedup.Some? {
        db := db.(eventKeys := db.eventKeys[dedup.value := newId]);
      }
      return Inserted(db, newId);
    }

    method EnqueueEvent(newId: string, work: Work, priority: int, dedup: Option<DedupKey>, now: int,
                        availableAt: Option<int>) returns (id: Option<string>)
      modifies this
      ensures match Enqueue(old(db), newId, work, priority, dedup, now,
                            if availableAt.Some? then availableAt.value else now)
              case Inserted(db', e) => db == Log(db', EventEnqueued(e, now)) && id == Some(e)
              case Reused(e) => db == old(db) && id == Some(e)
              case Refused => db == old(db) && id == None
      ensures dedup.Some? && dedup.value in old(db).eventKeys ==>
        var e := old(db).eventKeys[dedup.value];
        && db == old(db)
        && id == if dedup != Some(ExternalKey("")) && e in old(db).events
                    && old(db).events[e].work == work && old(db).events[e].priority == priority
                 then Some(e) else None
      ensures !(dedup.Some? && dedup.value in old(db).eventKeys) ==>
        && (id == if newId in old(db).events then None else Some(newId))
        && (id == None ==> db == old(db))
        && (id == Some(newId) ==>
              && db.events == old(db).events[newId := EventRow(
                   work, priority, dedup, PENDING, if availableAt.Some? then availableAt.value else now, None, None, 0, now)]
              && db.eventKeys == (if dedup.Some? then old(db).eventKeys[dedup.value := newId] else old(db).eventKeys)
              && db.journal == old(db).journal + [EventEnqueued(newId, now)])
      ensures SameRuns(old(db), db) && SameTranscripts(old(db), db) && SameLedger(old(db), db)
    {
      var r := InsertEvent(newId, work, priority, dedup, now, if availableAt.Some? then availableAt.value else now);
      match r
      case Inserted(_, e) =>
        AppendJournal(EventEnqueued(e, now));
        return Some(e);
      case Reused(e) => return Some(e);
      case Refused => return None;
    }

    /** The claiming transaction: an eligible row of maximal priority, the oldest among those. */
    method ClaimEvent(worker: string, now: int, lease: int) returns (claimed: Option<Event>)
      modifies this
      ensures claimed.None? ==> NoneEligible(old(db), now) && db == old(db)
      ensures claimed.Some? ==>
        var e := claimed.value;
        && BestEligible(old(db), e.id, now) && db == Claim(old(db), e.id, worker, now, lease)
        && e == Event(e.id, old(db).events[e.id].work, old(db).events[e.id].priority, old(db).events[e.id].attempts + 1)
        && db.events == old(db).events[e.id := old(db).events[e.id].(
             status := CLAIMED, leaseOwner := Some(worker), leaseUntil := Some(now + lease), attempts := e.attempts)]
        && db.journal == old(db).journal + [EventClaimed(e.id, worker, e.attempts, now + lease, now)]
      ensures claimed.None? ==> forall x | x in old(db).events :: !Claimable(old(db).events[x], now)
      ensures claimed.Some? ==>
        && Claimable(old(db).events[claimed.value.id], now)
        && forall x | x in old(db).events && Claimable(old(db).events[x], now) ::
             || claimed.value.priority > old(db).events[x].priority
             || (claimed.value.priority == old(db).events[x].priority
                 && old(db).events[claimed.value.id].createdAt <= old(db).events[x].createdAt)
      ensures SameRuns(old(db), db) && SameTranscripts(old(db), db) && SameLedger(old(db), db)
    {
      var best := SelectEligible(now);
      if best.None? {
        return None;
      }
      var id := best.value;
      var row := db.events[id];
      db := db.(events := db.events[id := row.(
        status := CLAIMED, leaseOwner := Some(worker), leaseUntil := Some(now + lease), attempts := row.attempts + 1)]);
      AppendJournal(EventClaimed(id, worker, row.attempts + 1, now + lease, now));
      return Some(Event(id, row.work, row.priority, row.attempts + 1));
    }

    /** SELECT ... ORDER BY priority DESC, created_at ASC LIMIT 1. */
    method SelectEligible(now: int) returns (best: Option<string>)
      ensures best.None? ==> NoneEligible(db, now)
      ensures best.Some? ==> BestEligible(db, best.value, now)
    {
      best := None;
      var todo := db.events.Keys;
      while todo != {}
        invariant todo <= db.events.Keys
        invariant best.Some? ==> best.value in db.events && Eligible(db.events[best.value], now)
        invariant forall id | id in db.events && id !in todo && Eligible(db.events[id], now) ::
                    best.Some? && Precedes(db.events[best.value], db.events[id])
        decreases |todo|
      {
        var id :| id in todo;
        if Eligible(db.events[id], now) && (best.None? || !Precedes(db.events[best.value], db.events[id])) {
          best := Some(id);
        }
        todo := todo - {id};
      }
    }

    method AckEvent(id: string, worker: string, now: int) returns (ok: bool)
      modifies this
      ensures ok <==> Acknowledge(old(db), id, worker).Some?
      ensures db == if ok then Log(Acknowledge(old(db), id, worker).value, EventAcked(id, worker, now)) else old(db)
      ensures ok <==> id in old(db).events && old(db).events[id].status == CLAIMED && old(db).events[id].leaseOwner == Some(worker)
      ensures ok ==>
        && db.events == old(db).events[id := old(db).events[id].(status := DONE, leaseOwner := None, leaseUntil := None)]
        && db.journal == old(db).journal + [EventAcked(id, worker, now)]
      ensures SameRuns(old(db), db) && SameTranscripts(old(db), db) && SameLedger(old(db), db)
    {
      if id !in db.events || db.events[id].status != CLAIMED || db.events[id].leaseOwner != Some(worker) {
        return false;
      }
      db := db.(events := db.events[id := db.events[id].(status := DONE, leaseOwner := None, leaseUntil := None)]);
      AppendJournal(EventAcked(id, worker, now));
      return true;
    }

    method FailEvent(id: string, worker: string, now: int, retryAt: Option<int>) returns (ok: bool)
      modifies this
      ensures var at := if retryAt.Some? then retryAt.value else now;
        && (ok <==> Requeue(old(db), id, worker, at).Some?)
        && db == if ok then Log(Requeue(old(db), id, worker, at).value, EventRetryScheduled(id, worker, at, now)) else old(db)
      ensures ok <==> id in old(db).events && old(db).events[id].status == CLAIMED && old(db).events[id].leaseOwner == Some(worker)
      ensures ok ==>
        && db.events == old(db).events[id := old(db).events[id].(
             status := PENDING, leaseOwner := None, leaseUntil := None,
             availableAt := if retryAt.Some? then retryAt.value else now)]
      ensures SameRuns(old(db), db) && SameTranscripts(old(db), db) && SameLedger(old(db), db)
    {
      if id !in db.events || db.events[id].status != CLAIMED || db.events[id].leaseOwner != Some(worker) {
        return false;
      }
      var at := if retryAt.Some? then retryAt.value else now;
      db := db.(events := db.events[id := db.events[id].(
        status := PENDING, leaseOwner := None, leaseUntil := None, availableAt := at)]);
      AppendJournal(EventRetryScheduled(id, worker, at, now));
      return true;
    }

    // ---- runs ---------------------------------------------------------------------------

    method InsertRun(newRun: string, task: string, capabilities: set<string>, source: Option<string>)
      returns (run: Option<string>)
      modifies this
      ensures match CreateRun(old(db), newRun, task, capabilities, source)
              case Some(created) => db == created.db && run == Some(created.run)
              case None => db == old(db) && run == None
      ensures source.Some? && source.value in old(db).runSources ==>
        var r := old(db).runSources[source.value];
        && db == old(db)
        && run == if r in db.runs && db.runs[r].task == task && db.runs[r].capabilities == capabilities then Some(r) else None
      ensures !(source.Some? && source.value in old(db).runSources) ==>
        && (run == if newRun in old(db).runs then None else Some(newRun))
        && (run == Some(newRun) ==>
              && db.runs == old(db).runs[newRun := RunRow(task, capabilities, RUNNING, 0, None, None, None, source)]
              && db.runSources == if source.Some? then old(db).runSources[source.value := newRun] else old(db).runSources)
    {
      if source.Some? && source.value in db.runSources {
        var existing := db.runSources[source.value];
        if existing !in db.runs || db.runs[existing].task != task || db.runs[existing].capabilities != capabilities {
          return None;
        }
        return Some(existing);
      }
      if newRun in db.runs {
        return None;
      }
      db := db.(runs := db.runs[newRun := RunRow(task, capabilities, RUNNING, 0, None, None, None, source)]);
      if source.Some? {
        db := db.(runSources := db.runSources[source.value := newRun]);
      }
      return Some(newRun);
    }

    /** The `run.step` event of a generation, inside the caller's transaction. */
    method InsertStep(newEvent: string, run: string, step: nat, priority: int, now: int) returns (ok: bool)
      modifies this
      ensures ok <==> EnqueueStep(old(db), newEvent, run, step, priority, now).Some?
      ensures db == if ok then EnqueueStep(old(db), newEvent, run, step, priority, now).value else old(db)
      ensures ok <==> Schedulable(old(db), newEvent, run, step, priority)
      ensures ok ==> Scheduled(old(db), db, newEvent, run, step, priority, now) && db.runs == old(db).runs
      ensures SameTranscripts(old(db), db) && SameLedger(old(db), db)
    {
      var id := EnqueueEvent(newEvent, RunStep(run, step), priority, Some(RunStepKey(run, step)), now, None);
      return id.Some?;
    }

    method CreateRunWithInitialStep(newRun: string, newEvent: string, task: string, capabilities: set<string>,
                                    source: Option<string>, priority: int, now: int) returns (run: Option<string>)
      modifies this
      ensures match Tables.CreateRunWithInitialStep(old(db), newRun, newEvent, task, capabilities, source, priority, now)
              case Some(created) => db == created.db && run == Some(created.run)
              case None => db == old(db) && run == None
      ensures run.Some? <==> Submittable(old(db), task, capabilities, source, newRun, newEvent, priority)
      ensures run.Some? ==>
        && HasRunOf(old(db), db, task, capabilities, source, newRun, run.value)
        && Scheduled(old(db), db, newEvent, run.value, 0, priority, now)
    {
      var begin := db;
      run := InsertRun(newRun, task, capabilities, source);
      if run.None? {
        return;
      }
      var ok := InsertStep(newEvent, run.value, 0, priority, now);
      if !ok {
        db := begin;
        return None;
      }
    }

    method GetRun(run: string) returns (row: Option<RunRow>)
      ensures row == if run in db.runs then Some(db.runs[run]) else None
    {
      return if run in db.runs then Some(db.runs[run]) else None;
    }

    /** The UPDATE assembled from the given columns; it has no state guard. */
    method UpdateRun(run: string, status: Option<RunStatus>, finalText: Option<string>, lastError: Option<string>,
                     clearLastError: bool, incrementStep: bool)
      modifies this
      ensures db == Tables.UpdateRun(old(db), run, status, finalText, lastError, clearLastError, incrementStep)
      ensures run !in old(db).runs ==> db == old(db)
      ensures run in old(db).runs ==>
        && run in db.runs && db == old(db).(runs := old(db).runs[run := db.runs[run]])
        && Columns(old(db).runs[run], db.runs[run], status, finalText, lastError, clearLastError, incrementStep)
    {
      hide Columns;
      if run in db.runs {
        UpdatedColumns(db, run, status, finalText, lastError, clearLastError, incrementStep);
      }
      if run !in db.runs {
        return;
      }
      var row := db.runs[run];
      if status.Some? {
        row := row.(status := status.value);
      }
      if finalText.Some? {
        row := row.(finalText := finalText);
      }
      if clearLastError {
        row := row.(lastError := None);
      } else if lastError.Some? {
        row := row.(lastError := lastError);
      }
      if incrementStep {
        row := row.(stepCount := row.stepCount + 1);
      }
      db := db.(runs := db.runs[run := row]);
    }

    method AdvanceRunStep(run: string, expected: nat, newEvent: string, priority: int, now: int) returns (ok: bool)
      modifies this
      ensures ok <==> Tables.AdvanceRunStep(old(db), run, expected, newEvent, priority, now).Some?
      ensures db == if ok then Tables.AdvanceRunStep(old(db), run, expected, newEvent, priority, now).value else old(db)
      ensures ok <==>
        && run in old(db).runs && old(db).runs[run].status == RUNNING && old(db).runs[run].stepCount == expected
        && Schedulable(old(db), newEvent, run, expected + 1, priority)
      ensures ok ==>
        && db.runs == old(db).runs[run := old(db).runs[run].(stepCount := expected + 1, lastError := None)]
        && Scheduled(old(db), db, newEvent, run, expected + 1, priority, now)
      ensures SameTranscripts(old(db), db) && SameLedger(old(db), db)
    {
      hide EnqueueStep, Enqueue;
      var begin := db;
      if run !in db.runs || db.runs[run].status != RUNNING || db.runs[run].stepCount != expected {
        return false;
      }
      db := db.(runs := db.runs[run := db.runs[run].(stepCount := db.runs[run].stepCount + 1, lastError := None)]);
      ok := InsertStep(newEvent, run, expected + 1, priority, now);
      if !ok {
        db := begin;
      }
    }

    method BlockRunOnEffect(run: string, request: string, error: string, now: int) returns (ok: bool)
      modifies this
      ensures ok <==> BlockRun(old(db), run, request, error).Some?
      ensures db == if ok then Log(BlockRun(old(db), run, request, error).value, RunBlockedEffect(run, request, now))
                    else old(db)
      ensures ok <==> run in old(db).runs && old(db).runs[run].status == RUNNING
      ensures ok ==>
        && db.runs == old(db).runs[run := old(db).runs[run].(
             status := BLOCKED_EFFECT, blockedRequest := Some(request), lastError := Some(error))]
        && db.journal == old(db).journal + [RunBlockedEffect(run, request, now)]
      ensures db.events == old(db).events && db.eventKeys == old(db).eventKeys
              && SameLedger(old(db), db) && SameTranscripts(old(db), db)
    {
      if run !in db.runs || db.runs[run].status != RUNNING {
        return false;
      }
      db := db.(runs := db.runs[run := db.runs[run].(
        status := BLOCKED_EFFECT, blockedRequest := Some(request), lastError := Some(error))]);
      AppendJournal(RunBlockedEffect(run, request, now));
      return true;
    }

    method ResumeRunAfterEffect(run: string, newEvent: string, priority: int, now: int) returns (ok: bool)
      modifies this
      ensures ok <==> ResumeRun(old(db), run, newEvent, priority, now).Some?
      ensures db == if ok then ResumeRun(old(db), run, newEvent, priority, now).value else old(db)
      ensures ok <==>
        && run in old(db).runs && old(db).runs[run].status == BLOCKED_EFFECT
        && Schedulable(old(db), newEvent, run, old(db).runs[run].stepCount + 1, priority)
      ensures ok ==>
        && db.runs == old(db).runs[run := old(db).runs[run].(
             status := RUNNING, blockedRequest := None, lastError := None, stepCount := old(db).runs[run].stepCount + 1)]
        && Scheduled(old(db), db, newEvent, run, old(db).runs[run].stepCount + 1, priority, now)
      ensures SameTranscripts(old(db), db) && SameLedger(old(db), db)
    {
      hide EnqueueStep, Enqueue;
      var begin := db;
      if run !in db.runs || db.runs[run].status != BLOCKED_EFFECT {
        return false;
      }
      var next := db.runs[run].stepCount + 1;
      db := db.(runs := db.runs[run := db.runs[run].(
        status := RUNNING, blockedRequest := None, lastError := None, stepCount := next)]);
      AppendJournal(RunEffectRecovered(run, next, now));
      ok := InsertStep(newEvent, run, next, priority, now);
      if !ok {
        db := begin;
      }
    }

    // ---- decisions and messages ---------------------------------------------------------

    /** Write-once: the INSERT, or on a key violation the comparison with what is stored. */
    method RecordRunStepDecision(run: string, step: nat, decision: Decision) returns (ok: bool)
      modifies this
      ensures ok <==> RecordDecision(old(db), run, step, decision).Some?
      ensures db == if ok then RecordDecision(old(db), run, step, decision).value else old(db)
      ensures StepId(run, step) in old(db).decisions ==>
                db == old(db) && (ok <==> old(db).decisions[StepId(run, step)] == decision)
      ensures StepId(run, step) !in old(db).decisions ==>
                && (ok <==> run in old(db).runs)
                && (ok ==> db == old(db).(decisions := old(db).decisions[StepId(run, step) := decision]))
    {
      var id := StepId(run, step);
      if id in db.decisions {
        return db.decisions[id] == decision;
      }
      if run !in db.runs {
        return false;
      }
      db := db.(decisions := db.decisions[id := decision]);
      return true;
    }

    method GetRunStepDecision(run: string, step: nat) returns (decision: Option<Decision>)
      ensures decision == if StepId(run, step) in db.decisions then Some(db.decisions[StepId(run, step)]) else None
    {
      return if StepId(run, step) in db.decisions then Some(db.decisions[StepId(run, step)]) else None;
    }

    /** Keyed and write-once: an equal entry under the key is reused, a different one raises. */
    method RecordRunMessage(run: string, message: Message) returns (ok: bool)
      modifies this
      ensures ok <==> RecordMessage(old(db), run, message).Some?
      ensures db == if ok then RecordMessage(old(db), run, message).value else old(db)
      ensures ok ==>
        || (&& db == old(db) && message.key.Some?
            && exists m | m in Transcript(db, run) :: m.key == message.key && m.role == message.role && m.content == message.content)
        || (&& run in old(db).runs && db == old(db).(messages := old(db).messages[run := Transcript(old(db), run) + [message]])
            && (message.key.Some? ==> forall m | m in Transcript(old(db), run) :: m.key != message.key))
      ensures !ok ==>
        || (message.key.Some? && exists m | m in Transcript(old(db), run) ::
              m.key == message.key && (m.role != message.role || m.content != message.content))
        || run !in old(db).runs
    {
      var transcript := Transcript(db, run);
      if message.key.Some? {
        var existing := FindKey(transcript, message.key.value);
        if existing.Some? {
          return existing.value.role == message.role && existing.value.content == message.content;
        }
      }
      if run !in db.runs {
        return false;
      }
      db := db.(messages := db.messages[run := transcript + [message]]);
      return true;
    }
  }
}
