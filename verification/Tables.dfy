/** The durable state: one value per table of the SQLite file, and one function per durable
    statement or transaction. A map is a table with its primary key; `eventKeys` and
    `runSources` are the UNIQUE indexes on `events.dedup_key` and `runs.source_event_id`.
    Every function is total: a violated key or an unmatched WHERE clause gives `None`, the
    exception or the row count the Python code looks at. */
module Tables {
  import opened Basics
  import opened JsonValues

  /** Event kind and payload together. */
  datatype Work =
    | TaskRequested(payload: map<string, Json>)
    | RunStep(run: string, step: nat)
    | OtherWork(kind: string, body: map<string, Json>)

  datatype DedupKey =
    | RunStepKey(run: string, step: nat)
    | OccurrenceKey(schedule: string, at: int)
    | ExternalKey(text: string)

  datatype EventStatus = PENDING | CLAIMED | DONE

  datatype EventRow = EventRow(
    work: Work, priority: int, dedup: Option<DedupKey>, status: EventStatus, availableAt: int,
    leaseOwner: Option<string>, leaseUntil: Option<int>, attempts: nat, createdAt: int)

  datatype RunStatus = RUNNING | COMPLETED | FAILED | BLOCKED_EFFECT

  datatype RunRow = RunRow(
    task: string, capabilities: set<string>, status: RunStatus, stepCount: nat,
    finalText: Option<string>, lastError: Option<string>, blockedRequest: Option<string>,
    source: Option<string>)

  datatype Call = Call(request: string, tool: string, arguments: Json)

  /** What the model answered for one run generation. */
  datatype Decision = ToolCall(call: Call) | FinalText(text: string)

  datatype StepId = StepId(run: string, step: nat)

  datatype MessageKey =
    | AssistantDecisionKey(step: nat)
    | ToolResultKey(step: nat)
    | AssistantFinalKey(step: nat)
    | ReconciledResultKey(request: string)

  datatype Content =
    | CallText(call: Call)
    | ResultText(tool: string, output: Json)
    | ReconciledText(tool: string, output: Json)
    | PlainText(text: string)

  datatype Role = Assistant | Tool

  datatype Message = Message(role: Role, content: Content, key: Option<MessageKey>)

  datatype EffectState = EXECUTING | ATTEMPTED_UNKNOWN | RECONCILED_NO_EFFECT | COMMITTED

  datatype EffectRow = EffectRow(
    tool: string, requestDigest: Digest, request: Json, state: EffectState,
    result: Option<Json>, resultDigest: Option<Digest>)

  datatype Reconciliation = Reconciliation(
    request: string, effectOccurred: bool, evidence: string, result: Option<Json>)

  datatype ScheduleRow = ScheduleRow(work: Work, every: Option<int>, nextAt: int, enabled: bool)

  datatype JournalEntry =
    | EventEnqueued(event: string, at: int)
    | EventClaimed(event: string, worker: string, attempt: nat, leaseUntil: int, at: int)
    | EventAcked(event: string, worker: string, at: int)
    | EventRetryScheduled(event: string, worker: string, retryAt: int, at: int)
    | EventRejected(event: string, at: int)
    | RunBlockedEffect(run: string, request: string, at: int)
    | RunEffectRecovered(run: string, nextStep: nat, at: int)

  datatype Database = Database(
    events: map<string, EventRow>, eventKeys: map<DedupKey, string>,
    runs: map<string, RunRow>, runSources: map<string, string>,
    decisions: map<StepId, Decision>, messages: map<string, seq<Message>>,
    effects: map<string, EffectRow>, reconciliations: seq<Reconciliation>,
    schedules: map<string, ScheduleRow>, journal: seq<JournalEntry>)

  const EMPTY_DATABASE := Database(map[], map[], map[], map[], map[], map[], map[], [], map[], [])

  function Log(db: Database, entry: JournalEntry): Database {
    db.(journal := db.journal + [entry])
  }

  // ---- events ---------------------------------------------------------------------------

  datatype Enqueued = Inserted(db: Database, id: string) | Reused(id: string) | Refused

  /** The SELECT by dedup key followed by the INSERT; an empty key is not looked up but is
      still subject to the UNIQUE constraint. */
  function Enqueue(db: Database, newId: string, work: Work, priority: int, dedup: Option<DedupKey>,
                   now: int, availableAt: int): Enqueued
  {
    if dedup.Some? && dedup.value in db.eventKeys then
      var id := db.eventKeys[dedup.value];
      if dedup != Some(ExternalKey("")) && id in db.events
         && db.events[id].work == work && db.events[id].priority == priority
      then Reused(id) else Refused
    else if newId in db.events then Refused
    else
      var row := EventRow(work, priority, dedup, PENDING, availableAt, None, None, 0, now);
      Inserted(db.(events := db.events[newId := row],
                   eventKeys := if dedup.Some? then db.eventKeys[dedup.value := newId] else db.eventKeys),
               newId)
  }

  predicate Eligible(row: EventRow, now: int) {
    && row.availableAt <= now
    && (row.status == PENDING
        || (row.status == CLAIMED && row.leaseUntil.Some? && row.leaseUntil.value <= now))
  }

  /** ORDER BY priority DESC, created_at ASC. */
  predicate Precedes(a: EventRow, b: EventRow) {
    a.priority > b.priority || (a.priority == b.priority && a.createdAt <= b.createdAt)
  }

  ghost predicate BestEligible(db: Database, id: string, now: int) {
    && id in db.events && Eligible(db.events[id], now)
    && forall other | other in db.events && Eligible(db.events[other], now) ::
         Precedes(db.events[id], db.events[other])
  }

  ghost predicate NoneEligible(db: Database, now: int) {
    forall id | id in db.events :: !Eligible(db.events[id], now)
  }

  /** The claiming transaction, once the row is chosen. */
  function Claim(db: Database, id: string, worker: string, now: int, lease: int): Database
    requires id in db.events
  {
    var row := db.events[id];
    var claimed := row.(status := CLAIMED, leaseOwner := Some(worker),
                        leaseUntil := Some(now + lease), attempts := row.attempts + 1);
    Log(db.(events := db.events[id := claimed]),
        EventClaimed(id, worker, row.attempts + 1, now + lease, now))
  }

  /** `WHERE id=? AND status='CLAIMED' AND lease_owner=?` */
  predicate Owns(db: Database, id: string, worker: string) {
    id in db.events && db.events[id].status == CLAIMED && db.events[id].leaseOwner == Some(worker)
  }

  function Acknowledge(db: Database, id: string, worker: string): Option<Database> {
    if !Owns(db, id, worker) then None
    else
      var row := db.events[id].(status := DONE, leaseOwner := None, leaseUntil := None);
      Some(db.(events := db.events[id := row]))
  }

  function Requeue(db: Database, id: string, worker: string, retryAt: int): Option<Database> {
    if !Owns(db, id, worker) then None
    else
      var row := db.events[id].(status := PENDING, leaseOwner := None, leaseUntil := None,
                                availableAt := retryAt);
      Some(db.(events := db.events[id := row]))
  }

  // ---- runs -----------------------------------------------------------------------------

  /** `enqueue_event` inside an open transaction: the event and its journal entry. */
  function EnqueueStep(db: Database, newId: string, run: string, step: nat, priority: int, now: int)
    : Option<Database>
  {
    match Enqueue(db, newId, RunStep(run, step), priority, Some(RunStepKey(run, step)), now, now)
    case Inserted(db', id) => Some(Log(db', EventEnqueued(id, now)))
    case Reused(_) => Some(db)
    case Refused => None
  }

  datatype Created = CreatedRun(db: Database, run: string)

  function CreateRun(db: Database, freshRun: string, task: string, capabilities: set<string>,
                     source: Option<string>): Option<Created>
  {
    if source.Some? && source.value in db.runSources then
      var run := db.runSources[source.value];
      if run in db.runs && db.runs[run].task == task && db.runs[run].capabilities == capabilities
      then Some(CreatedRun(db, run)) else None
    else if freshRun in db.runs then None
    else
      var row := RunRow(task, capabilities, RUNNING, 0, None, None, None, source);
      Some(CreatedRun(
        db.(runs := db.runs[freshRun := row],
            runSources := if source.Some? then db.runSources[source.value := freshRun] else db.runSources),
        freshRun))
  }

  function CreateRunWithInitialStep(db: Database, freshRun: string, freshEvent: string, task: string,
                                    capabilities: set<string>, source: Option<string>, priority: int,
                                    now: int): Option<Created>
  {
    match CreateRun(db, freshRun, task, capabilities, source)
    case None => None
    case Some(CreatedRun(db1, run)) =>
      match EnqueueStep(db1, freshEvent, run, 0, priority, now)
      case None => None
      case Some(db2) => Some(CreatedRun(db2, run))
  }

  function UpdateRun(db: Database, run: string, status: Option<RunStatus>, finalText: Option<string>,
                     lastError: Option<string>, clearLastError: bool, incrementStep: bool): Database
  {
    if run !in db.runs then db
    else
      var row := db.runs[run];
      var row' := row.(
        status := if status.Some? then status.value else row.status,
        finalText := if finalText.Some? then finalText else row.finalText,
        lastError := if clearLastError then None else if lastError.Some? then lastError else row.lastError,
        stepCount := if incrementStep then row.stepCount + 1 else row.stepCount);
      db.(runs := db.runs[run := row'])
  }

  function FailRun(db: Database, run: string, error: string): Database {
    UpdateRun(db, run, Some(FAILED), None, Some(error), false, false)
  }

  function CompleteRun(db: Database, run: string, text: string): Database {
    UpdateRun(db, run, Some(COMPLETED), Some(text), None, true, true)
  }

  function NoteError(db: Database, run: string, error: string): Database {
    UpdateRun(db, run, None, None, Some(error), false, false)
  }

  /** The advance transaction: next generation and its successor event, or nothing. */
  function AdvanceRunStep(db: Database, run: string, step: nat, freshEvent: string, priority: int, now: int)
    : Option<Database>
  {
    if run !in db.runs || db.runs[run].status != RUNNING || db.runs[run].stepCount != step then None
    else
      var row := db.runs[run].(stepCount := step + 1, lastError := None);
      EnqueueStep(db.(runs := db.runs[run := row]), freshEvent, run, step + 1, priority, now)
  }

  function BlockRun(db: Database, run: string, request: string, error: string): Option<Database> {
    if run !in db.runs || db.runs[run].status != RUNNING then None
    else
      var row := db.runs[run].(status := BLOCKED_EFFECT, blockedRequest := Some(request),
                               lastError := Some(error));
      Some(db.(runs := db.runs[run := row]))
  }

  function ResumeRun(db: Database, run: string, freshEvent: string, priority: int, now: int)
    : Option<Database>
  {
    if run !in db.runs || db.runs[run].status != BLOCKED_EFFECT then None
    else
      var next := db.runs[run].stepCount + 1;
      var row := db.runs[run].(status := RUNNING, blockedRequest := None, lastError := None,
                               stepCount := next);
      EnqueueStep(Log(db.(runs := db.runs[run := row]), RunEffectRecovered(run, next, now)),
                  freshEvent, run, next, priority, now)
  }

  /** INSERT of the decision; a second, identical one is accepted, a different one raises. */
  function RecordDecision(db: Database, run: string, step: nat, decision: Decision): Option<Database> {
    var id := StepId(run, step);
    if id in db.decisions then (if db.decisions[id] == decision then Some(db) else None)
    else if run !in db.runs then None
    else Some(db.(decisions := db.decisions[id := decision]))
  }

  function Transcript(db: Database, run: string): seq<Message> {
    if run in db.messages then db.messages[run] else []
  }

  function FindKey(transcript: seq<Message>, key: MessageKey): (m: Option<Message>)
    ensures m.Some? ==> m.value in transcript && m.value.key == Some(key)
    ensures m.None? ==> forall i | 0 <= i < |transcript| :: transcript[i].key != Some(key)
  {
    if transcript == [] then None
    else if transcript[|transcript| - 1].key == Some(key) then Some(transcript[|transcript| - 1])
    else FindKey(transcript[..|transcript| - 1], key)
  }

  /** INSERT under the unique (run, key) index; an equal entry is reused, a different one raises. */
  function RecordMessage(db: Database, run: string, message: Message): Option<Database> {
    var transcript := Transcript(db, run);
    var existing := if message.key.Some? then FindKey(transcript, message.key.value) else None;
    if existing.Some? then
      (if existing.value.role == message.role && existing.value.content == message.content
       then Some(db) else None)
    else if run !in db.runs then None
    else Some(db.(messages := db.messages[run := transcript + [message]]))
  }

  // ---- effect ledger --------------------------------------------------------------------

  function RequestPayload(call: Call): Json {
    Obj(map["tool" := Str(call.tool), "arguments" := call.arguments])
  }

  /** INSERT of an EXECUTING row; `None` is the primary-key violation. */
  function AdmitEffect(db: Database, call: Call): Option<Database> {
    if call.request in db.effects then None
    else
      var payload := RequestPayload(call);
      Some(db.(effects := db.effects[call.request :=
        EffectRow(call.tool, Sha256(payload), payload, EXECUTING, None, None)]))
  }

  /** The unguarded ledger UPDATE by request id. */
  function SetEffect(db: Database, request: string, state: EffectState, result: Option<Json>): Database {
    if request !in db.effects then db
    else
      var digest := if result.Some? then Some(Sha256(result.value)) else None;
      db.(effects := db.effects[request :=
        db.effects[request].(state := state, result := result, resultDigest := digest)])
  }

  /** The UPDATE that keeps the result columns. */
  function MarkUnknown(db: Database, request: string): Database {
    if request !in db.effects then db
    else db.(effects := db.effects[request := db.effects[request].(state := ATTEMPTED_UNKNOWN)])
  }

  predicate Unresolved(state: EffectState) {
    state == EXECUTING || state == ATTEMPTED_UNKNOWN
  }

  predicate IsHexDigest(text: string) {
    && |text| == 64
    && forall i | 0 <= i < |text| ::
         '0' <= text[i] <= '9' || 'a' <= text[i] <= 'f' || 'A' <= text[i] <= 'F'
  }

  /** The number a hexadecimal digit stands for, in either case. */
  function HexDigit(c: char): Option<nat> {
    if '0' <= c <= '9' then Some(c as int - '0' as int)
    else if 'a' <= c <= 'f' then Some(c as int - 'a' as int + 10)
    else if 'A' <= c <= 'F' then Some(c as int - 'A' as int + 10)
    else None
  }

  /** The same number, written in lower case. */
  function LowerHex(text: string): (r: string)
    ensures |r| == |text|
    ensures forall i | 0 <= i < |text| ::
              HexDigit(r[i]) == HexDigit(text[i]) && !('A' <= r[i] <= 'F') && (HexDigit(text[i]).None? ==> r[i] == text[i])
  {
    seq(|text|, i requires 0 <= i < |text| =>
      if 'A' <= text[i] <= 'F' then (text[i] as int + 32) as char else text[i])
  }

  /** `reconcile`: `None` is any of its ValueError and ToolError exits. */
  function Reconcile(db: Database, request: string, effectOccurred: bool, evidence: string,
                     result: Option<Json>): Option<Database>
  {
    if !IsHexDigest(evidence) then None
    else if request !in db.effects || !Unresolved(db.effects[request].state) then None
    else if effectOccurred != result.Some? then None
    else
      var entry := Reconciliation(request, effectOccurred, LowerHex(evidence), result);
      var db1 := db.(reconciliations := db.reconciliations + [entry]);
      Some(SetEffect(db1, request, if effectOccurred then COMMITTED else RECONCILED_NO_EFFECT, result))
  }

  // ---- schedules ------------------------------------------------------------------------

  function AddSchedule(db: Database, id: string, work: Work, every: int, firstAt: int): Option<Database> {
    if every <= 0 || id in db.schedules then None
    else Some(db.(schedules := db.schedules[id := ScheduleRow(work, Some(every), firstAt, true)]))
  }

  function SetNextAt(db: Database, id: string, nextAt: int): Database {
    if id !in db.schedules then db
    else db.(schedules := db.schedules[id := db.schedules[id].(nextAt := nextAt)])
  }

  function DisableSchedule(db: Database, id: string): Database {
    if id !in db.schedules then db
    else db.(schedules := db.schedules[id := db.schedules[id].(enabled := false)])
  }
}
