/** The durable execution protocol as one transition system. The durable state is the database;
    the volatile state of a process is its program counter. Each durable statement or transaction
    of `Engine.run_once`, `Engine.resume_blocked_effect`, `ToolRegistry.execute` and
    `Scheduler.tick` is one step, and a crash or an exception may come between any two. */
module Protocol {
  import opened Basics
  import opened JsonValues
  import opened Tables
  import opened SchemaRules
  import opened StoredDecisions

  datatype ToolSpec = ToolSpec(schema: Json, capability: string, mutation: bool)

  /** What the deployment fixes: registered tools, `max_steps` and `lease_seconds` in ticks. */
  datatype Settings = Settings(tools: map<string, ToolSpec>, rx: Regex, maxSteps: nat, lease: int)

  ghost predicate ValidSettings(s: Settings) {
    forall name | name in s.tools :: Supported(s.rx, s.tools[name].schema)
  }

  const TICKS_PER_SECOND := 1_000_000

  function Pow2(n: nat): nat {
    if n == 0 then 1 else 2 * Pow2(n - 1)
  }

  /** `min(60.0, 2.0 ** min(attempts, 6))` */
  function Backoff(attempts: nat): int {
    TICKS_PER_SECOND * Min(60, Pow2(Min(attempts, 6)))
  }

  // ---- program counters -----------------------------------------------------------------

  /** The local variables of `run_once` after the claim. */
  datatype Visit = Visit(event: string, priority: int, attempts: nat, now: int)

  /** The locals once the run is loaded. */
  datatype Frame = Frame(visit: Visit, run: string, step: nat, capabilities: set<string>)

  /** Who called `ToolRegistry.execute`. */
  datatype Caller = FromStep(frame: Frame) | FromResume(run: string, now: int, capabilities: set<string>)

  datatype Due = Due(id: string, row: ScheduleRow)

  /** The locals of `tick`: the cap, the running total, the rows still to visit. */
  datatype TickState = TickState(now: int, cap: int, emitted: int, rows: seq<Due>)

  datatype PC =
    | Idle
    | Aborted
    | Rejecting(visit: Visit)
    | Submitting(visit: Visit, task: string, capabilities: set<string>)
    | Acking(visit: Visit, handler: Option<Frame>)
    | AckJournaling(visit: Visit)
    | Loading(visit: Visit, run: string, step: nat)
    | FailingMaxSteps(visit: Visit, run: string)
    | Deciding(frame: Frame)
    | Asking(frame: Frame)
    | RecordingDecision(frame: Frame, decision: Decision)
    | RecordingCall(frame: Frame, call: Call)
    | Executing(caller: Caller, call: Call)
    | Admitting(caller: Caller, call: Call)
    | Rearming(caller: Caller, call: Call)
    | Invoking(caller: Caller, call: Call, mutation: bool)
    | Committing(caller: Caller, call: Call, output: Json)
    | MarkingUnknown(caller: Caller, call: Call, toolError: bool)
    | Returned(caller: Caller, call: Call, output: Json)
    | Raised(caller: Caller, call: Call, toolError: bool)
    | Advancing(frame: Frame)
    | RecordingFinal(frame: Frame, text: string)
    | Completing(frame: Frame, text: string)
    | Blocking(frame: Frame, request: string)
    | BlockJournaling(frame: Frame, request: string)
    | FailingTool(frame: Frame)
    | NotingError(frame: Frame)
    | Requeueing(frame: Frame)
    | RequeueJournaling(frame: Frame)
    | Recovering(run: string, now: int, capabilities: set<string>, request: string)
    | Resuming(run: string, now: int)
    | EnqueueJournaling(event: string, now: int)
    | Ticking(tick: TickState)
    | Emitting(tick: TickState, due: Due, pending: seq<int>, nextAt: int)
    | EmitJournaling(event: string, tick: TickState, due: Due, pending: seq<int>, nextAt: int)

  // ---- inputs and history ---------------------------------------------------------------

  datatype Reply = Answer(decision: Decision) | NoAnswer

  datatype Outcome = Output(value: Json) | Failure(toolError: bool)

  /** Everything a step takes from outside: clock, UUIDs, the row picked among equals, the model,
      the handler, the text of an exception. */
  datatype Input = Input(now: int, newRun: string, newEvent: string, choice: Option<string>,
                         reply: Reply, outcome: Outcome, text: string)

  datatype Invocation = Invocation(call: Call, mutation: bool, granted: set<string>, run: string)

  /** A mutation result handed back by `execute` or `recover_reconciled`. */
  datatype Completion = Completion(request: string, output: Json, digest: Digest)

  datatype LeaseEvent =
    | Claimed(worker: string, at: int, until: int, attempt: nat)
    | Acked(worker: string)
    | Retried(worker: string, retryAt: int, attempt: nat)

  /** History variables; no step reads them. */
  datatype History = History(
    invocations: seq<Invocation>, completions: seq<Completion>,
    leases: map<string, seq<LeaseEvent>>, origins: map<string, int>)

  function LeasesOf(h: History, event: string): seq<LeaseEvent> {
    if event in h.leases then h.leases[event] else []
  }

  function AddLease(h: History, event: string, entry: LeaseEvent): History {
    h.(leases := h.leases[event := LeasesOf(h, event) + [entry]])
  }

  function AddCompletion(h: History, request: string, output: Json): History {
    h.(completions := h.completions + [Completion(request, output, Sha256(output))])
  }

  datatype Config = Config(db: Database, procs: map<string, PC>, hist: History)

  const INITIAL_CONFIG := Config(EMPTY_DATABASE, map[], History([], [], map[], map[]))

  function Pc(c: Config, p: string): PC {
    if p in c.procs then c.procs[p] else Idle
  }

  // ---- local computations ---------------------------------------------------------------

  datatype Admission = Task(task: string, capabilities: set<string>) | BadTask

  function StringSet(items: seq<Json>): set<string> {
    set j | j in items && j.Str? :: j.s
  }

  /** The shape checks on a `task.requested` payload. */
  function AdmitTask(payload: map<string, Json>): Admission {
    var task := if "task" in payload then payload["task"] else Null;
    var capabilities := if "capabilities" in payload then payload["capabilities"] else Arr([]);
    if !task.Str? || Strip(task.s) == "" then BadTask
    else if !StringArray(capabilities) then BadTask
    else Task(Strip(task.s), StringSet(capabilities.items))
  }

  /** `execute`'s checks before anything durable. */
  ghost predicate Admissible(s: Settings, call: Call, granted: set<string>) {
    && call.tool in s.tools
    && s.tools[call.tool].capability in granted
    && Supported(s.rx, s.tools[call.tool].schema)
    && Satisfies(s.rx, s.tools[call.tool].schema, call.arguments)
  }

  function Granted(k: Caller): set<string> {
    if k.FromStep? then k.frame.capabilities else k.capabilities
  }

  function RunOf(k: Caller): string {
    if k.FromStep? then k.frame.run else k.run
  }

  /** The request rebuilt from `request_json`. */
  function StoredCall(request: string, payload: Json): Call {
    if payload.Obj? && "tool" in payload.fields && payload.fields["tool"].Str?
       && "arguments" in payload.fields
    then Call(request, payload.fields["tool"].s, payload.fields["arguments"])
    else Call(request, "", Null)
  }

  /** The inner loop of `tick`: the due points of one interval row that still fit. */
  function Occurrences(nextAt: int, every: int, now: int, room: int): seq<int>
    decreases if room > 0 then room else 0
  {
    if room <= 0 || nextAt > now then [] else [nextAt] + Occurrences(nextAt + every, every, now, room - 1)
  }

  /** `SELECT * FROM schedules WHERE enabled=1 AND next_at <= ? ORDER BY next_at ASC` */
  ghost predicate DueListing(db: Database, now: int, rows: seq<Due>) {
    && (forall i | 0 <= i < |rows| ::
          && rows[i].id in db.schedules && rows[i].row == db.schedules[rows[i].id]
          && rows[i].row.enabled && rows[i].row.nextAt <= now)
    && (forall i, j | 0 <= i < j < |rows| :: rows[i].id != rows[j].id && rows[i].row.nextAt <= rows[j].row.nextAt)
    && (forall id | id in db.schedules && db.schedules[id].enabled && db.schedules[id].nextAt <= now ::
          exists i :: 0 <= i < |rows| && rows[i].id == id)
  }

  function CallMessage(f: Frame, call: Call): Message {
    Message(Assistant, CallText(call), Some(AssistantDecisionKey(f.step)))
  }

  function ResultMessage(f: Frame, call: Call, output: Json): Message {
    Message(Tool, ResultText(call.tool, output), Some(ToolResultKey(f.step)))
  }

  function FinalMessage(f: Frame, text: string): Message {
    Message(Assistant, PlainText(text), Some(AssistantFinalKey(f.step)))
  }

  function ReconciledMessage(call: Call, output: Json): Message {
    Message(Tool, ReconciledText(call.tool, output), Some(ReconciledResultKey(call.request)))
  }

  // ---- one step of a process ------------------------------------------------------------

  /** Program counters with a `frame`. */
  predicate FramePhase(pc: PC) {
    pc.Deciding? || pc.Asking? || pc.RecordingDecision? || pc.RecordingCall? || pc.Advancing?
    || pc.RecordingFinal? || pc.Completing? || pc.Blocking? || pc.BlockJournaling? || pc.FailingTool?
    || pc.NotingError? || pc.Requeueing? || pc.RequeueJournaling?
  }

  /** Program counters inside `execute`. */
  predicate CallPhase(pc: PC) {
    ToolPhase(pc) && !pc.Recovering?
  }

  predicate ToolPhase(pc: PC) {
    pc.Executing? || pc.Admitting? || pc.Rearming? || pc.Invoking? || pc.Committing?
    || pc.MarkingUnknown? || pc.Returned? || pc.Raised? || pc.Recovering?
  }

  predicate TickPhase(pc: PC) {
    pc.Ticking? || pc.Emitting? || pc.EmitJournaling?
  }

  predicate EventPhase(pc: PC) {
    pc.Rejecting? || pc.Submitting? || pc.Acking? || pc.AckJournaling? || pc.Requeueing?
    || pc.RequeueJournaling? || pc.EnqueueJournaling?
  }

  predicate DecisionPhase(pc: PC) {
    pc.Loading? || pc.FailingMaxSteps? || pc.Deciding? || pc.Asking? || pc.RecordingDecision?
    || pc.RecordingCall? || pc.RecordingFinal?
  }

  predicate ClosingPhase(pc: PC) {
    pc.Advancing? || pc.Completing? || pc.Blocking? || pc.BlockJournaling? || pc.FailingTool?
    || pc.NotingError? || pc.Resuming?
  }

  datatype Result = Result(pc: PC, db: Database, hist: History)

  /** Where the claimed event sends `run_once`. */
  function Dispatch(v: Visit, work: Work): PC {
    match work
    case TaskRequested(payload) =>
      (match AdmitTask(payload)
       case BadTask => Rejecting(v)
       case Task(task, capabilities) => Submitting(v, task, capabilities))
    case RunStep(run, step) => Loading(v, run, step)
    case OtherWork(_, _) => Acking(v, None)
  }

  function AfterLoad(s: Settings, v: Visit, run: string, step: nat, row: RunRow): PC {
    if row.stepCount != step then Acking(v, None)
    else if row.status != RUNNING then Acking(v, None)
    else if row.stepCount >= s.maxSteps then FailingMaxSteps(v, run)
    else Deciding(Frame(v, run, step, row.capabilities))
  }

  function Act(f: Frame, decision: Decision): PC {
    match decision
    case ToolCall(call) => RecordingCall(f, call)
    case FinalText(text) => RecordingFinal(f, text)
  }

  /** The stored decision is acted on, unless reading it back raises. */
  function Reread(f: Frame, decision: Decision): PC {
    if Readable(decision) then Act(f, decision) else NotingError(f)
  }

  /** `execute` up to its first durable write or its handler. */
  ghost function AfterLookup(s: Settings, k: Caller, call: Call, db: Database): PC {
    hide Satisfies, Supported;
    if !Admissible(s, call, Granted(k)) then Raised(k, call, true)
    else if !s.tools[call.tool].mutation then Invoking(k, call, false)
    else if call.request !in db.effects then Admitting(k, call)
    else
      var row := db.effects[call.request];
      if row.requestDigest != Sha256(RequestPayload(call)) || row.tool != call.tool then Raised(k, call, true)
      else match row.state
        case COMMITTED => if row.result.Some? then Returned(k, call, row.result.value) else Raised(k, call, false)
        case RECONCILED_NO_EFFECT => Rearming(k, call)
        case _ => Raised(k, call, true)
  }

  /** The outcome of `recover_reconciled`'s SELECT. Stored arguments that are not an object never get through:
      `dict` raises on them, or turns them into another request. */
  function AfterRecovery(k: Caller, request: string, db: Database): PC {
    if request !in db.effects then Aborted
    else
      var row := db.effects[request];
      var call := StoredCall(request, row.request);
      match row.state
      case COMMITTED =>
        if row.result.Some? then Returned(k, call.(tool := row.tool), row.result.value) else Aborted
      case RECONCILED_NO_EFFECT => if call.arguments.Obj? then Executing(k, call) else Aborted
      case _ => Aborted
  }

  /** The `except` clause around `execute`. */
  function AfterRaise(k: Caller, call: Call, toolError: bool, db: Database): PC {
    match k
    case FromResume(_, _, _) => Aborted
    case FromStep(f) =>
      if call.request in db.effects && Unresolved(db.effects[call.request].state)
      then Blocking(f, call.request)
      else if toolError then FailingTool(f)
      else NotingError(f)
  }

  /** Continue with `then'` on success, with `otherwise` when the statement raised. */
  function Settle(outcome: Option<Database>, db: Database, hist: History, then': PC, otherwise: PC): Result {
    if outcome.Some? then Result(then', outcome.value, hist) else Result(otherwise, db, hist)
  }

  ghost function ToolStep(s: Settings, pc: PC, db: Database, h: History, i: Input): Result
    requires ToolPhase(pc)
  {
    hide Admissible;
    match pc
    case Executing(k, call) =>
      var next := AfterLookup(s, k, call, db);
      Result(next, db, if next.Returned? then AddCompletion(h, call.request, next.output) else h)
    case Admitting(k, call) =>
      Settle(AdmitEffect(db, call), db, h, Invoking(k, call, true), Raised(k, call, false))
    case Rearming(k, call) =>
      Result(Invoking(k, call, true), SetEffect(db, call.request, EXECUTING, None), h)
    case Invoking(k, call, mutation) =>
      var h' := h.(invocations := h.invocations + [Invocation(call, mutation, Granted(k), RunOf(k))]);
      (match i.outcome
       case Output(value) => Result(if mutation then Committing(k, call, value) else Returned(k, call, value), db, h')
       case Failure(toolError) =>
         Result(if mutation then MarkingUnknown(k, call, toolError) else Raised(k, call, toolError), db, h'))
    case Committing(k, call, output) =>
      Result(Returned(k, call, output), SetEffect(db, call.request, COMMITTED, Some(output)),
             AddCompletion(h, call.request, output))
    case MarkingUnknown(k, call, toolError) =>
      Result(Raised(k, call, toolError), MarkUnknown(db, call.request), h)
    case Returned(k, call, output) =>
      (match k
       case FromStep(f) =>
         Settle(RecordMessage(db, f.run, ResultMessage(f, call, output)), db, h, Advancing(f), NotingError(f))
       case FromResume(run, now, _) =>
         Settle(RecordMessage(db, run, ReconciledMessage(call, output)), db, h, Resuming(run, now), Aborted))
    case Raised(k, call, toolError) => Result(AfterRaise(k, call, toolError, db), db, h)
    case Recovering(run, now, capabilities, request) =>
      var next := AfterRecovery(FromResume(run, now, capabilities), request, db);
      Result(next, db, if next.Returned? then AddCompletion(h, request, next.output) else h)
  }

  function TickStep(pc: PC, db: Database, h: History, i: Input): Result
    requires TickPhase(pc)
  {
    match pc
    case Ticking(t) =>
      if t.rows == [] then Result(Idle, db, h)
      else
        var due := t.rows[0];
        var t' := t.(rows := t.rows[1..]);
        (match due.row.every
         case None => Result(Emitting(t', due, [due.row.nextAt], due.row.nextAt), db, h)
         case Some(every) =>
           var pending := Occurrences(due.row.nextAt, every, t.now, t.cap - t.emitted);
           Result(Emitting(t', due, pending, due.row.nextAt + |pending| * every), db, h))
    case Emitting(t, due, pending, nextAt) =>
      if pending == [] then
        var db' := if due.row.every.None? then DisableSchedule(db, due.id) else SetNextAt(db, due.id, nextAt);
        Result(if t.emitted >= t.cap then Idle else Ticking(t), db', h)
      else
        var t' := t.(emitted := t.emitted + 1);
        (match Enqueue(db, i.newEvent, due.row.work, 0, Some(OccurrenceKey(due.id, pending[0])), t.now, pending[0])
         case Inserted(db', id) => Result(EmitJournaling(id, t', due, pending[1..], nextAt), db', h)
         case Reused(_) => Result(Emitting(t', due, pending[1..], nextAt), db, h)
         case Refused => Result(Aborted, db, h))
    case EmitJournaling(event, t, due, pending, nextAt) =>
      Result(Emitting(t, due, pending, nextAt), Log(db, EventEnqueued(event, t.now)), h)
  }

  /** Statements on the claimed event: submission, rejection, acknowledgement, retry. */
  function EventStep(p: string, pc: PC, db: Database, h: History, i: Input): Result
    requires EventPhase(pc)
  {
    match pc
    case Rejecting(v) => Result(Acking(v, None), Log(db, EventRejected(v.event, v.now)), h)
    case Submitting(v, task, capabilities) =>
      (match CreateRunWithInitialStep(db, i.newRun, i.newEvent, task, capabilities, Some(v.event), 0, v.now)
       case None => Result(Aborted, db, h)
       case Some(created) => Result(Acking(v, None), created.db, h))
    case Acking(v, handler) =>
      (match Acknowledge(db, v.event, p)
       case None => Result(if handler.Some? then NotingError(handler.value) else Aborted, db, h)
       case Some(db') => Result(AckJournaling(v), db', AddLease(h, v.event, Acked(p))))
    case AckJournaling(v) => Result(Idle, Log(db, EventAcked(v.event, p, v.now)), h)
    case Requeueing(f) =>
      var retryAt := f.visit.now + Backoff(f.visit.attempts);
      (match Requeue(db, f.visit.event, p, retryAt)
       case None => Result(Aborted, db, h)
       case Some(db') =>
         Result(RequeueJournaling(f), db', AddLease(h, f.visit.event, Retried(p, retryAt, f.visit.attempts))))
    case RequeueJournaling(f) =>
      var retryAt := f.visit.now + Backoff(f.visit.attempts);
      Result(Aborted, Log(db, EventRetryScheduled(f.visit.event, p, retryAt, f.visit.now)), h)
    case EnqueueJournaling(event, now) => Result(Idle, Log(db, EventEnqueued(event, now)), h)
  }

  /** Loading the run, obtaining its decision, writing the assistant's message. */
  function DecisionStep(s: Settings, pc: PC, db: Database, h: History, i: Input): Result
    requires DecisionPhase(pc)
  {
    match pc
    case Loading(v, run, step) =>
      Result(if run in db.runs then AfterLoad(s, v, run, step, db.runs[run]) else Aborted, db, h)
    case FailingMaxSteps(v, run) => Result(Acking(v, None), FailRun(db, run, "max_steps exceeded"), h)
    case Deciding(f) =>
      var id := StepId(f.run, f.step);
      Result(if id in db.decisions then Reread(f, db.decisions[id]) else Asking(f), db, h)
    case Asking(f) =>
      Result(if i.reply.Answer? then RecordingDecision(f, i.reply.decision) else NotingError(f), db, h)
    case RecordingDecision(f, decision) =>
      Settle(RecordDecision(db, f.run, f.step, decision), db, h, Act(f, decision), NotingError(f))
    case RecordingCall(f, call) =>
      Settle(RecordMessage(db, f.run, CallMessage(f, call)), db, h, Executing(FromStep(f), call), NotingError(f))
    case RecordingFinal(f, text) =>
      Settle(RecordMessage(db, f.run, FinalMessage(f, text)), db, h, Completing(f, text), NotingError(f))
  }

  /** Moving the run on: next generation, completion, failure, block, resume. */
  function ClosingStep(pc: PC, db: Database, h: History, i: Input): Result
    requires ClosingPhase(pc)
  {
    match pc
    case Advancing(f) =>
      Settle(AdvanceRunStep(db, f.run, f.step, i.newEvent, f.visit.priority, f.visit.now), db, h,
             Acking(f.visit, Some(f)), NotingError(f))
    case Completing(f, text) => Result(Acking(f.visit, Some(f)), CompleteRun(db, f.run, text), h)
    case Blocking(f, request) =>
      Settle(BlockRun(db, f.run, request, i.text), db, h, BlockJournaling(f, request), NotingError(f))
    case BlockJournaling(f, request) =>
      Result(Acking(f.visit, Some(f)), Log(db, RunBlockedEffect(f.run, request, f.visit.now)), h)
    case FailingTool(f) => Result(Acking(f.visit, Some(f)), FailRun(db, f.run, i.text), h)
    case NotingError(f) => Result(Requeueing(f), NoteError(db, f.run, i.text), h)
    case Resuming(run, now) =>
      Settle(ResumeRun(db, run, i.newEvent, 0, now), db, h, Idle, Aborted)
  }

  /** The next statement of process `p`. */
  ghost function Next(s: Settings, p: string, pc: PC, db: Database, h: History, i: Input): Result {
    hide EventStep, DecisionStep, ClosingStep, ToolStep, TickStep;
    if EventPhase(pc) then EventStep(p, pc, db, h, i)
    else if DecisionPhase(pc) then DecisionStep(s, pc, db, h, i)
    else if ClosingPhase(pc) then ClosingStep(pc, db, h, i)
    else if ToolPhase(pc) then ToolStep(s, pc, db, h, i)
    else if TickPhase(pc) then TickStep(pc, db, h, i)
    else Result(Idle, db, h)
  }

  /** Where an exception raised at `pc` is caught: the `except` around `execute`, the `except`
      of the step, or nowhere. */
  function Unwind(pc: PC): PC {
    if pc.Idle? then Idle
    else if CallPhase(pc) && pc.caller.FromStep? then
      (if pc.Returned? || pc.Raised? then NotingError(pc.caller.frame)
       else Raised(pc.caller, pc.call, false))
    else if pc.Acking? && pc.handler.Some? then NotingError(pc.handler.value)
    else if FramePhase(pc) && !pc.NotingError? && !pc.Requeueing? && !pc.RequeueJournaling? then NotingError(pc.frame)
    else Aborted
  }

  // ---- the system -----------------------------------------------------------------------

  datatype Action =
    | Work(p: string)
    | ClaimNext(p: string)
    | Resume(p: string, run: string)
    | Tick(p: string, cap: int, rows: seq<Due>)
    | HostEnqueue(p: string, work: Work, priority: int, dedup: Option<DedupKey>, availableAt: Option<int>)
    | HostSubmit(task: string, capabilities: set<string>, source: Option<string>)
    | HostReconcile(request: string, effectOccurred: bool, evidence: string, result: Option<Json>)
    | AddInterval(id: string, work: Work, every: int, firstAt: int)
    | Throw(p: string)
    | Crash(p: string)

  /** What the environment may do. External producers leave `run.step` events and the
      `run-step:` and `schedule:` keys to the engine and the scheduler. */
  ghost predicate Enabled(c: Config, a: Action, i: Input) {
    match a
    case Work(p) => !Pc(c, p).Idle?
    case ClaimNext(p) =>
      Pc(c, p).Idle? && (if i.choice.Some? then BestEligible(c.db, i.choice.value, i.now) else NoneEligible(c.db, i.now))
    case Resume(p, _) => Pc(c, p).Idle?
    case Tick(p, _, rows) => Pc(c, p).Idle? && DueListing(c.db, i.now, rows)
    case HostEnqueue(p, work, _, dedup, _) =>
      Pc(c, p).Idle? && !work.RunStep? && (dedup.Some? ==> dedup.value.ExternalKey?)
    case AddInterval(_, work, _, _) => !work.RunStep?
    case _ => true
  }

  function Install(c: Config, p: string, r: Result): Config {
    Config(r.db, c.procs[p := r.pc], r.hist)
  }

  function StartResume(c: Config, p: string, run: string, now: int): PC {
    if run !in c.db.runs then Aborted
    else
      var row := c.db.runs[run];
      if row.status != BLOCKED_EFFECT || row.blockedRequest.None? || row.blockedRequest.value == "" then Aborted
      else Recovering(run, now, row.capabilities, row.blockedRequest.value)
  }

  function ApplyClaim(s: Settings, c: Config, p: string, i: Input): Config {
    if i.choice.None? || i.choice.value !in c.db.events then c
    else
      var id := i.choice.value;
      var row := c.db.events[id];
      var v := Visit(id, row.priority, row.attempts + 1, i.now);
      Install(c, p, Result(Dispatch(v, row.work), Claim(c.db, id, p, i.now, s.lease),
                           AddLease(c.hist, id, Claimed(p, i.now, i.now + s.lease, row.attempts + 1))))
  }

  ghost function Apply(s: Settings, c: Config, a: Action, i: Input): Config {
    hide Next;
    match a
    case Work(p) => Install(c, p, Next(s, p, Pc(c, p), c.db, c.hist, i))
    case ClaimNext(p) => ApplyClaim(s, c, p, i)
    case Resume(p, run) => c.(procs := c.procs[p := StartResume(c, p, run, i.now)])
    case Tick(p, cap, rows) => c.(procs := c.procs[p := Ticking(TickState(i.now, cap, 0, rows))])
    case HostEnqueue(p, work, priority, dedup, availableAt) =>
      (match Enqueue(c.db, i.newEvent, work, priority, dedup, i.now,
                     if availableAt.Some? then availableAt.value else i.now)
       case Inserted(db', id) => Config(db', c.procs[p := EnqueueJournaling(id, i.now)], c.hist)
       case _ => c)
    case HostSubmit(task, capabilities, source) =>
      (match CreateRunWithInitialStep(c.db, i.newRun, i.newEvent, task, capabilities, source, 0, i.now)
       case None => c
       case Some(created) => c.(db := created.db))
    case HostReconcile(request, effectOccurred, evidence, result) =>
      (match Reconcile(c.db, request, effectOccurred, evidence, result)
       case None => c
       case Some(db') => c.(db := db'))
    case AddInterval(id, work, every, firstAt) =>
      (match AddSchedule(c.db, id, work, every, firstAt)
       case None => c
       case Some(db') => c.(db := db', hist := c.hist.(origins := c.hist.origins[id := firstAt])))
    case Throw(p) => c.(procs := c.procs[p := Unwind(Pc(c, p))])
    case Crash(p) => c.(procs := c.procs[p := Idle])
  }

  /** (M) many processes, interleaved statement by statement. */
  ghost predicate Step(s: Settings, c: Config, c': Config) {
    hide Enabled, Apply;
    exists a, i :: Enabled(c, a, i) && c' == Apply(s, c, a, i)
  }

  /** A finite execution from the empty database. */
  ghost predicate Execution(s: Settings, trace: seq<Config>) {
    hide Step;
    && trace != [] && trace[0] == INITIAL_CONFIG
    && forall n | 0 <= n < |trace| - 1 :: Step(s, trace[n], trace[n + 1])
  }

  // ---- one live worker ------------------------------------------------------------------

  /** A process that holds no engine, resume or tick state. */
  predicate Passive(pc: PC) {
    pc.Idle? || pc.Aborted? || pc.EnqueueJournaling?
  }

  ghost predicate Solo(c: Config) {
    forall p, q | p in c.procs && q in c.procs && !Passive(c.procs[p]) && !Passive(c.procs[q]) :: p == q
  }

  /** Between the EXECUTING write and the write of the handler's outcome. */
  predicate InFlight(pc: PC) {
    (pc.Invoking? && pc.mutation) || pc.Committing? || pc.MarkingUnknown?
  }

  ghost predicate HandlerInFlight(c: Config) {
    exists p :: p in c.procs && InFlight(c.procs[p])
  }

  /** The host of environment (S): reconciliation waits for handlers. */
  ghost predicate SoloHost(c: Config, a: Action) {
    a.HostReconcile? ==> !HandlerInFlight(c)
  }

  /** (S) one live worker with crash and restart. */
  ghost predicate SoloStep(s: Settings, c: Config, c': Config) {
    hide Enabled, Apply;
    exists a, i :: Enabled(c, a, i) && SoloHost(c, a) && c' == Apply(s, c, a, i) && Solo(c')
  }

  ghost predicate SoloExecution(s: Settings, trace: seq<Config>) {
    hide SoloStep;
    && trace != [] && trace[0] == INITIAL_CONFIG
    && forall n | 0 <= n < |trace| - 1 :: SoloStep(s, trace[n], trace[n + 1])
  }
}
