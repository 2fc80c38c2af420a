/** Executions of one worker that never loses a lease and a model that never reuses a request id: the
    corner cases that even the strictest environment reaches. */
module Witnesses {
  import opened Basics
  import opened JsonValues
  import opened Tables
  import opened Protocol
  import opened Growth
  import opened SoloInvariant
  import opened SoloTheorems
  import opened TranscriptRefinement
  import opened Recovery
  import opened Replay
  import opened Paths
  import opened DurableStore
  import opened EffectRegistry
  import opened TaskEngine
  import opened LateWrites
  import opened HeldLeases
  import opened Limits

  /** Reached with one worker, distinct request ids and leases that last. */
  ghost predicate WitnessTo(s: Settings, c: Config) {
    hide DistinctExecution, HeldExecution;
    exists trace :: WitnessedBy(s, trace, c)
  }

  ghost predicate WitnessedBy(s: Settings, trace: seq<Config>, c: Config) {
    hide DistinctStep, HeldStep;
    EndsIn(s, trace, c) && HeldExecution(s, trace, false)
  }

  lemma WitnessDistinct(s: Settings, c: Config)
    requires WitnessTo(s, c)
    ensures DistinctTo(s, c)
  {
    hide EndsIn, HeldExecution;
    var trace :| WitnessedBy(s, trace, c);
  }

  lemma WitnessAction(s: Settings, c: Config, a: Action, i: Input)
    requires WitnessTo(s, c) && Enabled(c, a, i) && SoloHost(c, a) && NewAnswers(c, a, i) && Held(c, a)
    requires Solo(Apply(s, c, a, i))
    ensures WitnessTo(s, Apply(s, c, a, i))
  {
    hide Enabled, Apply, SoloHost, NewAnswers, Held, Solo;
    var trace :| WitnessedBy(s, trace, c);
    var c' := Apply(s, c, a, i);
    var more := trace + [c'];
    assert DistinctStep(s, c, c') && HeldStep(s, c, c', false);
    hide DistinctStep, HeldStep;
    forall n | 0 <= n < |more| - 1
      ensures DistinctStep(s, more[n], more[n + 1]) && HeldStep(s, more[n], more[n + 1], false)
    {
      if n + 1 < |trace| {
        assert more[n] == trace[n] && more[n + 1] == trace[n + 1];
        assert DistinctStep(s, trace[n], trace[n + 1]) && HeldStep(s, trace[n], trace[n + 1], false);
      }
    }
    assert WitnessedBy(s, more, c');
  }

  /** The configuration with this one process. */
  function Alone(r: Result): Config {
    At(map[], Worker(), r)
  }

  predicate HoldsLease(db: Database) {
    Owns(db, TheEvent(), Worker())
  }

  predicate OnEvent(pc: PC) {
    Delivers(pc) ==> EventOf(pc) == TheEvent()
  }

  lemma WorkOn(s: Settings, r: Result, i: Input)
    requires WitnessTo(s, Alone(r)) && !r.pc.Idle? && NewReply(r.db, r.pc, i) && HoldsLease(r.db) && OnEvent(r.pc)
    ensures WitnessTo(s, Alone(Next(s, Worker(), r.pc, r.db, r.hist, i)))
  {
    hide Next, NewReply, Owns, Delivers, EventOf, WitnessTo;
    var c := Alone(r);
    assert Pc(c, Worker()) == r.pc;
    var next := Next(s, Worker(), r.pc, r.db, r.hist, i);
    assert map[Worker() := r.pc][Worker() := next.pc] == map[Worker() := next.pc];
    assert Apply(s, c, Work(Worker()), i) == Alone(next);
    WitnessAction(s, c, Work(Worker()), i);
  }

  lemma DecisionOn(s: Settings, pc: PC, db: Database, h: History, env: Surroundings)
    requires DecisionPhase(pc) && WitnessTo(s, Alone(Result(pc, db, h))) && NewReply(db, pc, Facing(env))
    requires HoldsLease(db) && OnEvent(pc)
    ensures WitnessTo(s, Alone(DecisionStep(s, pc, db, h, Facing(env))))
  {
    hide WitnessTo, EventStep, DecisionStep, ClosingStep, ToolStep, TickStep, OnEvent, HoldsLease, NewReply;
    WorkOn(s, Result(pc, db, h), Facing(env));
  }

  lemma ToolOn(s: Settings, pc: PC, db: Database, h: History, env: Surroundings)
    requires ToolPhase(pc) && WitnessTo(s, Alone(Result(pc, db, h))) && HoldsLease(db) && OnEvent(pc)
    ensures WitnessTo(s, Alone(ToolStep(s, pc, db, h, Facing(env))))
  {
    hide WitnessTo, EventStep, DecisionStep, ClosingStep, ToolStep, TickStep, OnEvent, HoldsLease;
    WorkOn(s, Result(pc, db, h), Facing(env));
  }

  lemma ClosingOn(s: Settings, pc: PC, db: Database, h: History, env: Surroundings)
    requires ClosingPhase(pc) && WitnessTo(s, Alone(Result(pc, db, h))) && HoldsLease(db) && OnEvent(pc)
    ensures WitnessTo(s, Alone(ClosingStep(pc, db, h, Facing(env))))
  {
    hide WitnessTo, EventStep, DecisionStep, ClosingStep, ToolStep, TickStep, OnEvent, HoldsLease;
    WorkOn(s, Result(pc, db, h), Facing(env));
  }

  lemma StartWitness(s: Settings)
    ensures WitnessTo(s, INITIAL_CONFIG)
  {
    hide DistinctStep, HeldStep;
    assert WitnessedBy(s, [INITIAL_CONFIG], INITIAL_CONFIG);
  }

  lemma SubmitWitness(s: Settings, granted: set<string>)
    ensures WitnessTo(s, Submitted(granted))
  {
    hide Next, WitnessTo;
    StartWitness(s);
    var i := Facing(At0(NoAnswer, Failure(false)));
    var a := HostSubmit("task", granted, None);
    var created := CreateRunWithInitialStep(EMPTY_DATABASE, TheRun(), TheEvent(), "task", granted, None, 0, 0);
    assert created.Some? && created.value.db == Submitted(granted).db;
    assert Submitted(granted) == Apply(s, INITIAL_CONFIG, a, i);
    WitnessAction(s, INITIAL_CONFIG, a, i);
  }

  /** The worker has claimed the event and is about to load its run. */
  lemma LoadingWitness(s: Settings, granted: set<string>) returns (a: Result)
    ensures WitnessTo(s, Alone(a)) && a.pc == Loading(TheFrame(granted).visit, TheRun(), 0)
    ensures a.db.runs == Submitted(granted).db.runs && HoldsLease(a.db)
    ensures a.db.decisions == map[] && a.db.messages == map[] && a.db.effects == map[]
  {
    hide Next, WitnessTo, BestEligible;
    var c := Submitted(granted);
    SubmitWitness(s, granted);
    AfterFirst(s, granted);
    FirstIsBest(granted);
    a := AfterClaim(s, c.db, c.hist, Worker(), First(), 0);
    var i := Input(0, "", "", Some(TheEvent()), NoAnswer, Failure(false), "");
    assert Apply(s, c, ClaimNext(Worker()), i) == Alone(a);
    WitnessAction(s, c, ClaimNext(Worker()), i);
    ClaimedFirst(s, granted);
  }

  lemma ClaimedFirst(s: Settings, granted: set<string>)
    ensures var c := Submitted(granted); HoldsLease(AfterClaim(s, c.db, c.hist, Worker(), First(), 0).db)
  {
  }

  /** The model has answered and its decision is stored. */
  lemma DecidedWitness(s: Settings, granted: set<string>, d: Decision) returns (r: Result)
    requires s.maxSteps >= 1
    ensures WitnessTo(s, Alone(r)) && r.pc == Act(TheFrame(granted), d)
    ensures r.db.runs == Submitted(granted).db.runs && HoldsLease(r.db)
    ensures r.db.messages == map[] && r.db.effects == map[]
    ensures StepId(TheRun(), 0) in r.db.decisions && r.db.decisions[StepId(TheRun(), 0)] == d
  {
    hide WitnessTo, Reread, HoldsLease, Act;
    var f, env := TheFrame(granted), At0(Answer(d), Failure(false));
    var a := LoadingWitness(s, granted);
    var db, h := a.db, a.hist;
    DecisionOn(s, a.pc, db, h, env);
    DecisionOn(s, Deciding(f), db, h, env);
    DecisionOn(s, Asking(f), db, h, env);
    DecisionOn(s, RecordingDecision(f, d), db, h, env);
    var db1 := RecordDecision(db, f.run, f.step, d).value;
    assert HoldsLease(db1) by { SameEventsHeld(db, db1); }
    r := Result(Act(f, d), db1, h);
  }

  /** The worker is at the handler of the model's mutation, whose row is EXECUTING. */
  lemma InvokingWitness(s: Settings, granted: set<string>, call: Call) returns (r: Result)
    requires Admissible(s, call, granted) && s.tools[call.tool].mutation && s.maxSteps >= 1
    ensures WitnessTo(s, Alone(r)) && r.pc == Invoking(FromStep(TheFrame(granted)), call, true)
    ensures r.db.runs == Submitted(granted).db.runs && HoldsLease(r.db)
    ensures call.request in r.db.effects && r.db.effects[call.request].state == EXECUTING
    ensures StepId(TheRun(), 0) in r.db.decisions && r.db.decisions[StepId(TheRun(), 0)] == ToolCall(call)
  {
    hide WitnessTo, Admissible, RequestPayload, HoldsLease;
    var f, env := TheFrame(granted), At0(NoAnswer, Failure(false));
    var k := FromStep(f);
    var a := DecidedWitness(s, granted, ToolCall(call));
    var db1, h := a.db, a.hist;
    DecisionOn(s, RecordingCall(f, call), db1, h, env);
    var db2 := RecordMessage(db1, f.run, CallMessage(f, call)).value;
    assert HoldsLease(db2) by { SameEventsHeld(db1, db2); }
    ToolOn(s, Executing(k, call), db2, h, env);
    ToolOn(s, Admitting(k, call), db2, h, env);
    var db3 := AdmitEffect(db2, call).value;
    assert HoldsLease(db3) by { SameEventsHeld(db2, db3); }
    r := Result(Invoking(k, call, true), db3, h);
  }

  lemma SameEventsHeld(a: Database, b: Database)
    requires HoldsLease(a) && b.events == a.events
    ensures HoldsLease(b)
  {
  }

  /** The handler of the model's mutation has failed and its row is unresolved. */
  lemma RaisedWitness(s: Settings, granted: set<string>, call: Call) returns (r: Result)
    requires Admissible(s, call, granted) && s.tools[call.tool].mutation && s.maxSteps >= 1
    ensures WitnessTo(s, Alone(r)) && r.pc == Raised(FromStep(TheFrame(granted)), call, false)
    ensures r.db.runs == Submitted(granted).db.runs && HoldsLease(r.db)
    ensures call.request in r.db.effects && r.db.effects[call.request].state == ATTEMPTED_UNKNOWN
  {
    hide WitnessTo, Admissible, RequestPayload, HoldsLease;
    var env, k := At0(NoAnswer, Failure(false)), FromStep(TheFrame(granted));
    var a := InvokingWitness(s, granted, call);
    var h1 := Invoked(k, call, true, a.hist);
    ToolOn(s, a.pc, a.db, a.hist, env);
    ToolOn(s, MarkingUnknown(k, call, false), a.db, h1, env);
    var db1 := MarkUnknown(a.db, call.request);
    assert HoldsLease(db1) by { SameEventsHeld(a.db, db1); }
    r := Result(Raised(k, call, false), db1, h1);
  }

  /** The handler of a mutation has failed and its run is blocked. */
  lemma BlockedWitness(s: Settings, granted: set<string>, call: Call) returns (c: Config)
    requires Admissible(s, call, granted) && s.tools[call.tool].mutation && s.maxSteps >= 1
    ensures WitnessTo(s, c) && c == Alone(Result(BlockJournaling(TheFrame(granted), call.request), c.db, c.hist))
    ensures TheRun() in c.db.runs && c.db.runs[TheRun()].status == BLOCKED_EFFECT
    ensures c.db.runs[TheRun()].blockedRequest == Some(call.request)
    ensures call.request in c.db.effects && c.db.effects[call.request].state == ATTEMPTED_UNKNOWN
  {
    hide WitnessTo, Admissible, HoldsLease;
    var env, f := At0(NoAnswer, Failure(false)), TheFrame(granted);
    var r := RaisedWitness(s, granted, call);
    ToolOn(s, r.pc, r.db, r.hist, env);
    ClosingOn(s, Blocking(f, call.request), r.db, r.hist, env);
    c := Alone(Result(BlockJournaling(f, call.request), BlockRun(r.db, TheRun(), call.request, "").value, r.hist));
  }

  /** A mutation whose request id is the empty string and whose handler fails leaves its run blocked on that
      id, and no `resume_blocked_effect` will ever take it further. */
  lemma EmptyRequestBlocks(s: Settings, granted: set<string>, tool: string, arguments: Json) returns (c: Config)
    requires Admissible(s, Call("", tool, arguments), granted) && s.tools[tool].mutation && s.maxSteps >= 1
    ensures DistinctTo(s, c) && TheRun() in c.db.runs && c.db.runs[TheRun()].status == BLOCKED_EFFECT
    ensures c.db.runs[TheRun()].blockedRequest == Some("")
    ensures forall p, now :: StartResume(c, p, TheRun(), now) == Aborted
  {
    hide WitnessTo, DistinctTo, Admissible;
    c := BlockedWitness(s, granted, Call("", tool, arguments));
    WitnessDistinct(s, c);
  }

  /** With evidence of the effect and a result, that request can become COMMITTED: the state from which
      recovery fails is reached too. */
  lemma EmptyRequestCommitted(s: Settings, granted: set<string>, tool: string, arguments: Json, result: Json)
    returns (c: Config)
    requires Admissible(s, Call("", tool, arguments), granted) && s.tools[tool].mutation && s.maxSteps >= 1
    ensures Resumable(s, c, TheRun()) && c.db.runs[TheRun()].blockedRequest == Some("")
  {
    hide WitnessTo, DistinctTo, Admissible, LowerHex;
    var b := BlockedWitness(s, granted, Call("", tool, arguments));
    var a := HostReconcile("", true, Evidence(), Some(result));
    var i := Facing(At0(NoAnswer, Failure(false)));
    c := Apply(s, b, a, i);
    WitnessAction(s, b, a, i);
    WitnessDistinct(s, c);
  }
  /** With evidence that there was no effect, a blocked run can be retried: that state is reached as well. */
  lemma NoEffectReconciled(s: Settings, granted: set<string>, call: Call) returns (c: Config)
    requires Admissible(s, call, granted) && s.tools[call.tool].mutation && s.maxSteps >= 1
    ensures Retryable(s, c, TheRun()) && c.db.runs[TheRun()].blockedRequest == Some(call.request)
  {
    hide WitnessTo, DistinctTo, Admissible, LowerHex;
    var b := BlockedWitness(s, granted, call);
    var a := HostReconcile(call.request, false, Evidence(), None);
    var i := Facing(At0(NoAnswer, Failure(false)));
    c := Apply(s, b, a, i);
    WitnessAction(s, b, a, i);
    WitnessDistinct(s, c);
  }

  /** The process dies between the commit of a mutation and the message of its result: the state from which
      the redelivery replays the stored result. */
  lemma CommittedBeforeCrash(s: Settings, granted: set<string>, call: Call, output: Json) returns (c: Config)
    requires Admissible(s, call, granted) && s.tools[call.tool].mutation && s.maxSteps >= 1 && call.arguments.Obj?
    ensures CommittedStep(s, c, TheRun(), 0) && Pc(c, Worker()).Idle?
  {
    hide WitnessTo, DistinctTo, Admissible, HoldsLease;
    var env, k := At0(NoAnswer, Output(output)), FromStep(TheFrame(granted));
    var a := InvokingWitness(s, granted, call);
    var h1 := Invoked(k, call, true, a.hist);
    ToolOn(s, a.pc, a.db, a.hist, env);
    ToolOn(s, Committing(k, call, output), a.db, h1, env);
    var db1 := SetEffect(a.db, call.request, COMMITTED, Some(output));
    var done := Alone(Result(Returned(k, call, output), db1, AddCompletion(h1, call.request, output)));
    var i := Facing(env);
    c := Apply(s, done, Crash(Worker()), i);
    WitnessAction(s, done, Crash(Worker()), i);
    WitnessDistinct(s, c);
  }

  /** The handler's process dies before its outcome is written, and the host reconciles the EXECUTING row:
      the edges from EXECUTING to COMMITTED and to RECONCILED_NO_EFFECT are taken. */
  lemma ExecutingReconciled(s: Settings, granted: set<string>, call: Call, result: Option<Json>)
    returns (c: Config, c': Config)
    requires Admissible(s, call, granted) && s.tools[call.tool].mutation && s.maxSteps >= 1
    ensures DistinctTo(s, c) && DistinctTo(s, c') && Step(s, c, c')
    ensures StateOf(c.db.effects, call.request) == Some(EXECUTING)
    ensures StateOf(c'.db.effects, call.request) == Some(if result.Some? then COMMITTED else RECONCILED_NO_EFFECT)
  {
    hide WitnessTo, DistinctTo, Admissible, LowerHex;
    var r := InvokingWitness(s, granted, call);
    var i := Facing(At0(NoAnswer, Failure(false)));
    c := Apply(s, Alone(r), Crash(Worker()), i);
    WitnessAction(s, Alone(r), Crash(Worker()), i);
    WitnessDistinct(s, c);
    var a := HostReconcile(call.request, result.Some?, Evidence(), result);
    c' := Apply(s, c, a, i);
    WitnessAction(s, c, a, i);
    WitnessDistinct(s, c');
    assert Enabled(c, a, i);
  }

  /** The worker is about to complete its run. */
  lemma CompletingWitness(s: Settings, granted: set<string>, text: string) returns (r: Result)
    requires s.maxSteps >= 1
    ensures WitnessTo(s, Alone(r)) && r.pc == Completing(TheFrame(granted), text)
    ensures r.db.runs == Submitted(granted).db.runs && HoldsLease(r.db)
  {
    hide WitnessTo, HoldsLease;
    var f, env := TheFrame(granted), At0(NoAnswer, Failure(false));
    var a := DecidedWitness(s, granted, FinalText(text));
    DecisionOn(s, RecordingFinal(f, text), a.db, a.hist, env);
    var db2 := RecordMessage(a.db, f.run, FinalMessage(f, text)).value;
    assert HoldsLease(db2) by { SameEventsHeld(a.db, db2); }
    r := Result(Completing(f, text), db2, a.hist);
  }

  /** An exception strikes at the acknowledgement. */
  lemma ThrowLate(s: Settings, granted: set<string>, db: Database, h: History)
    requires WitnessTo(s, Alone(Result(Acking(TheFrame(granted).visit, Some(TheFrame(granted))), db, h)))
    ensures WitnessTo(s, Alone(Result(NotingError(TheFrame(granted)), db, h)))
  {
    hide WitnessTo, Next;
    var f, i := TheFrame(granted), Facing(At0(NoAnswer, Failure(false)));
    var closed := Alone(Result(Acking(f.visit, Some(f)), db, h));
    assert map[Worker() := closed.procs[Worker()]][Worker() := NotingError(f)] == map[Worker() := NotingError(f)];
    assert Apply(s, closed, Throw(Worker()), i) == Alone(Result(NotingError(f), db, h));
    WitnessAction(s, closed, Throw(Worker()), i);
  }

  lemma CompletedRow(db: Database, granted: set<string>, text: string)
    requires db.runs == Submitted(granted).db.runs
    ensures var b := CompleteRun(db, TheRun(), text);
      && b.events == db.events && TheRun() in b.runs
      && b.runs[TheRun()].status == COMPLETED && b.runs[TheRun()].lastError == None
  {
  }

  /** Even the one worker that keeps its lease changes a completed run's row in one column: when the
      acknowledgement raises, the error is noted. So `HeldLeases.StoppedStays` cannot promise
      `last_error` without its further condition. */
  lemma LateErrorNoted(s: Settings, granted: set<string>, text: string) returns (c: Config, c': Config)
    requires s.maxSteps >= 1
    ensures WitnessTo(s, c) && WitnessTo(s, c') && HeldStep(s, c, c', false)
    ensures TheRun() in c.db.runs && c.db.runs[TheRun()].status == COMPLETED
    ensures TheRun() in c'.db.runs && c'.db.runs[TheRun()].lastError != c.db.runs[TheRun()].lastError
  {
    hide WitnessTo, HoldsLease, UpdateRun, HeldStep;
    var f := TheFrame(granted);
    var r := CompletingWitness(s, granted, text);
    ClosingOn(s, r.pc, r.db, r.hist, At0(NoAnswer, Failure(false)));
    var db1 := CompleteRun(r.db, TheRun(), text);
    CompletedRow(r.db, granted, text);
    assert HoldsLease(db1) by { SameEventsHeld(r.db, db1); }
    ThrowLate(s, granted, db1, r.hist);
    c := Alone(Result(NotingError(f), db1, r.hist));
    c' := NotedLate(s, granted, db1, r.hist);
  }

  lemma NotedLate(s: Settings, granted: set<string>, db: Database, h: History) returns (c': Config)
    requires WitnessTo(s, Alone(Result(NotingError(TheFrame(granted)), db, h))) && HoldsLease(db)
    requires TheRun() in db.runs && db.runs[TheRun()].lastError == None
    ensures WitnessTo(s, c') && HeldStep(s, Alone(Result(NotingError(TheFrame(granted)), db, h)), c', false)
    ensures TheRun() in c'.db.runs && c'.db.runs[TheRun()].lastError == Some("")
  {
    hide WitnessTo, EventStep, DecisionStep, ClosingStep, ToolStep, TickStep, UpdateRun;
    var env := At0(NoAnswer, Failure(false));
    var f := TheFrame(granted);
    var c := Alone(Result(NotingError(f), db, h));
    ClosingOn(s, NotingError(f), db, h, env);
    var next := Result(Requeueing(f), NoteError(db, TheRun(), ""), h);
    assert ClosingStep(NotingError(f), db, h, Facing(env)) == next by { Noted(f, db, h, env); }
    c' := Alone(next);
    assert map[Worker() := NotingError(f)][Worker() := next.pc] == map[Worker() := next.pc];
    assert c' == Apply(s, c, Work(Worker()), Facing(env));
    assert Enabled(c, Work(Worker()), Facing(env)) && Held(c, Work(Worker()));
    UpdateOne(db, TheRun(), None, None, Some(""), false, false, TheRun());
  }

  lemma Noted(f: Frame, db: Database, h: History, env: Surroundings)
    ensures ClosingStep(NotingError(f), db, h, Facing(env)) == Result(Requeueing(f), NoteError(db, f.run, env.text), h)
  {
    hide UpdateRun;
  }
}
