/** Environment (M): executions in which the unguarded writes of `LateWrites` do their harm. A late
    handler overwrites a resolved row; a late worker completes a run again. */
module Limits {
  import opened Basics
  import opened JsonValues
  import opened Tables
  import opened Protocol
  import opened Growth
  import opened AdmissionSafety
  import opened SoloInvariant
  import opened SoloTheorems
  import opened Paths
  import opened DurableStore
  import opened EffectRegistry
  import opened TaskEngine

  // ---- a late handler -------------------------------------------------------------------

  function TheRun(): string { "run" }
  function TheEvent(): string { "event" }
  function Worker(): string { "worker" }

  /** One run with its first event, just submitted. */
  function Submitted(granted: set<string>): Config {
    INITIAL_CONFIG.(db := EMPTY_DATABASE.(
      runs := map[TheRun() := RunRow("task", granted, RUNNING, 0, None, None, None, None)],
      events := map[TheEvent() := EventRow(RunStep(TheRun(), 0), 0, Some(RunStepKey(TheRun(), 0)), PENDING, 0, None, None, 0, 0)],
      eventKeys := map[RunStepKey(TheRun(), 0) := TheEvent()],
      journal := [EventEnqueued(TheEvent(), 0)]))
  }

  function At0(reply: Reply, outcome: Outcome): Surroundings {
    Surroundings(0, TheRun(), TheEvent(), reply, outcome, "")
  }

  lemma SubmitStep(s: Settings, granted: set<string>)
    ensures Step(s, INITIAL_CONFIG, Submitted(granted))
  {
    hide Next;
    var i := Facing(At0(NoAnswer, Failure(false)));
    var a := HostSubmit("task", granted, None);
    var created := CreateRunWithInitialStep(EMPTY_DATABASE, TheRun(), TheEvent(), "task", granted, None, 0, 0);
    assert created.Some? && created.value.db == Submitted(granted).db;
    assert Enabled(INITIAL_CONFIG, a, i) && Submitted(granted) == Apply(s, INITIAL_CONFIG, a, i);
  }

  function First(): Event {
    Event(TheEvent(), RunStep(TheRun(), 0), 0, 1)
  }

  function TheFrame(granted: set<string>): Frame {
    Frame(Visit(TheEvent(), 0, 1, 0), TheRun(), 0, granted)
  }

  lemma FirstIsBest(granted: set<string>)
    ensures BestEligible(Submitted(granted).db, TheEvent(), 0)
  {
  }

  /** The claim takes the worker to the loading of its run. */
  lemma AfterFirst(s: Settings, granted: set<string>)
    ensures var c := Submitted(granted); var a := AfterClaim(s, c.db, c.hist, Worker(), First(), 0);
      && a.pc == Loading(TheFrame(granted).visit, TheRun(), 0) && a.db.runs == c.db.runs
      && a.db.decisions == map[] && a.db.messages == map[] && a.db.effects == map[] && a.db.reconciliations == []
  {
  }

  /** From there to the handler of the model's mutation, and past it. */
  lemma ToHandler(s: Settings, granted: set<string>, call: Call, output: Json, a: Result)
    returns (b: Result)
    requires Admissible(s, call, granted) && s.tools[call.tool].mutation && s.maxSteps >= 1
    requires a.pc == Loading(TheFrame(granted).visit, TheRun(), 0)
    requires a.db.runs == Submitted(granted).db.runs && a.db.decisions == map[] && a.db.messages == map[] && a.db.effects == map[]
    ensures Leads(s, Worker(), a, b) && b.pc == Committing(FromStep(TheFrame(granted)), call, output)
    ensures call.request in b.db.effects && b.db.effects[call.request].state == EXECUTING
  {
    hide Leads, Admissible, RequestPayload, Act;
    var f, p, env := TheFrame(granted), Worker(), At0(Answer(ToolCall(call)), Output(output));
    var k := FromStep(f);
    var db, h := a.db, a.hist;
    DecisionOne(s, p, a.pc, db, h, env);
    DecideOne(s, p, f, db, h, env);
    Then(s, p, a, Result(Deciding(f), db, h), Result(Asking(f), db, h));
    AskOne(s, p, f, db, h, env);
    Then(s, p, a, Result(Asking(f), db, h), Result(RecordingDecision(f, ToolCall(call)), db, h));
    RecordDecisionOne(s, p, f, ToolCall(call), db, h, env);
    var db1 := RecordDecision(db, f.run, f.step, ToolCall(call)).value;
    assert Act(f, ToolCall(call)) == RecordingCall(f, call) by { Acts(f, call); }
    Then(s, p, a, Result(RecordingDecision(f, ToolCall(call)), db, h), Result(RecordingCall(f, call), db1, h));
    RecordCallOne(s, p, f, call, db1, h, env);
    var db2 := RecordMessage(db1, f.run, CallMessage(f, call)).value;
    Then(s, p, a, Result(RecordingCall(f, call), db1, h), Result(Executing(k, call), db2, h));
    LookupOne(s, p, k, call, db2, h);
    Then(s, p, a, Result(Executing(k, call), db2, h), Result(Admitting(k, call), db2, h));
    AdmitOne(s, p, k, call, db2, h);
    var db3 := AdmitEffect(db2, call).value;
    Then(s, p, a, Result(Admitting(k, call), db2, h), Result(Invoking(k, call, true), db3, h));
    ToolOne(s, p, Invoking(k, call, true), db3, h, Output(output));
    b := Result(Committing(k, call, output), db3, Invoked(k, call, true, h));
    Then(s, p, a, Result(Invoking(k, call, true), db3, h), b);
  }

  lemma Acts(f: Frame, call: Call)
    ensures Act(f, ToolCall(call)) == RecordingCall(f, call)
  {
  }

  lemma SubmittedReachable(s: Settings, granted: set<string>)
    ensures Reachable(s, Submitted(granted))
  {
    hide Step, Reachable;
    InitialReachable(s);
    SubmitStep(s, granted);
    ReachableStep(s, INITIAL_CONFIG, Submitted(granted));
  }

  /** The worker is past its handler, its row still EXECUTING. */
  lemma HandlerDone(s: Settings, granted: set<string>, call: Call, output: Json) returns (c: Config)
    requires Admissible(s, call, granted) && s.tools[call.tool].mutation && s.maxSteps >= 1
    ensures Reachable(s, c) && Pc(c, Worker()) == Committing(FromStep(TheFrame(granted)), call, output)
    ensures call.request in c.db.effects && c.db.effects[call.request].state == EXECUTING
  {
    hide Admissible, Leads, Reachable, Reaches, BestEligible;
    var start := Submitted(granted);
    SubmittedReachable(s, granted);
    FirstIsBest(granted);
    AfterFirst(s, granted);
    var a := AfterClaim(s, start.db, start.hist, Worker(), First(), 0);
    var b := ToHandler(s, granted, call, output, a);
    DeliveryReaches(s, start, Worker(), First(), 0, b);
    c := At(start.procs, Worker(), b);
    ReachableReaches(s, start, c);
  }

  function Evidence(): string {
    seq(64, _ => '0')
  }

  lemma ReconcileStep(s: Settings, c: Config, q: string, result: Json) returns (c': Config)
    requires q in c.db.effects && c.db.effects[q].state == EXECUTING
    ensures Step(s, c, c') && c'.procs == c.procs
    ensures q in c'.db.effects && c'.db.effects[q].state == COMMITTED && c'.db.effects[q].result == Some(result)
  {
    hide Next, LowerHex;
    var a := HostReconcile(q, true, Evidence(), Some(result));
    var i := Facing(At0(NoAnswer, Failure(false)));
    c' := Apply(s, c, a, i);
    assert Enabled(c, a, i);
  }

  lemma CommitStep(s: Settings, c: Config, k: Caller, call: Call, output: Json) returns (c': Config)
    requires Pc(c, Worker()) == Committing(k, call, output) && call.request in c.db.effects
    ensures Step(s, c, c') && call.request in c'.db.effects && c'.db.effects[call.request].state == COMMITTED
    ensures c'.db.effects[call.request].result == Some(output)
  {
    hide ToolStep, EventStep, DecisionStep, ClosingStep, TickStep;
    var i := Facing(At0(NoAnswer, Failure(false)));
    c' := Apply(s, c, Work(Worker()), i);
    CommitWrites(s, c, k, call, output, i);
    assert Enabled(c, Work(Worker()), i);
  }

  lemma CommitWrites(s: Settings, c: Config, k: Caller, call: Call, output: Json, i: Input)
    requires call.request in c.db.effects
    ensures var b := ToolStep(s, Committing(k, call, output), c.db, c.hist, i).db;
      call.request in b.effects && b.effects[call.request].state == COMMITTED && b.effects[call.request].result == Some(output)
  {
  }

  /** COMMITTED is not final under (M): reconcile a request while its handler is in flight, and the
      handler overwrites the committed result with its own. This is why the guarantees about effects
      need environment (S), in which reconciliation waits for handlers. */
  lemma LateHandlerOverwrites(s: Settings, granted: set<string>, call: Call, reconciled: Json, output: Json)
    requires Admissible(s, call, granted) && s.tools[call.tool].mutation && s.maxSteps >= 1
    ensures exists c, c' :: Reachable(s, c) && Step(s, c, c')
              && call.request in c.db.effects && c.db.effects[call.request].state == COMMITTED
              && c.db.effects[call.request].result == Some(reconciled)
              && call.request in c'.db.effects && c'.db.effects[call.request].result == Some(output)
  {
    hide Admissible, Reachable, Step;
    var c0 := HandlerDone(s, granted, call, output);
    var c1 := ReconcileStep(s, c0, call.request, reconciled);
    ReachableStep(s, c0, c1);
    assert Pc(c1, Worker()) == Pc(c0, Worker());
    var c2 := CommitStep(s, c1, FromStep(TheFrame(granted)), call, output);
  }
  // ---- a late completion ----------------------------------------------------------------

  /** From the loading of the run to the completing UPDATE: the decision and its message are stored, or
      found as another worker stored them. */
  lemma ToCompleting(s: Settings, granted: set<string>, p: string, f: Frame, text: string, a: Result) returns (b: Result)
    requires s.maxSteps >= 1 && a.pc == Loading(f.visit, TheRun(), 0) && f.run == TheRun() && f.step == 0
    requires f.capabilities == granted && a.db.runs == Submitted(granted).db.runs
    requires a.db.decisions == map[] || a.db.decisions == map[StepId(TheRun(), 0) := FinalText(text)]
    requires a.db.messages == map[] || a.db.messages == map[TheRun() := [FinalMessage(f, text)]]
    ensures Leads(s, p, a, b) && b.pc == Completing(f, text)
    ensures b.db == a.db.(decisions := map[StepId(TheRun(), 0) := FinalText(text)],
                          messages := map[TheRun() := [FinalMessage(f, text)]])
  {
    hide Leads, Act;
    var env := At0(Answer(FinalText(text)), Failure(false));
    var db, h := a.db, a.hist;
    DecisionOne(s, p, a.pc, db, h, env);
    DecideOne(s, p, f, db, h, env);
    assert Act(f, FinalText(text)) == RecordingFinal(f, text) by { ActsFinal(f, text); }
    var db1 := db.(decisions := map[StepId(TheRun(), 0) := FinalText(text)]);
    var recording := Result(RecordingFinal(f, text), db1, h);
    if db.decisions == map[] {
      Then(s, p, a, Result(Deciding(f), db, h), Result(Asking(f), db, h));
      AskOne(s, p, f, db, h, env);
      Then(s, p, a, Result(Asking(f), db, h), Result(RecordingDecision(f, FinalText(text)), db, h));
      RecordDecisionOne(s, p, f, FinalText(text), db, h, env);
      assert RecordDecision(db, f.run, f.step, FinalText(text)) == Some(db1);
      Then(s, p, a, Result(RecordingDecision(f, FinalText(text)), db, h), recording);
    } else {
      assert db == db1;
      Then(s, p, a, Result(Deciding(f), db, h), recording);
    }
    RecordFinalOne(s, p, f, text, db1, h, env);
    b := Result(Completing(f, text), db1.(messages := map[TheRun() := [FinalMessage(f, text)]]), h);
    assert RecordMessage(db1, f.run, FinalMessage(f, text)) == Some(b.db) by { FinalRecorded(db1, f, text); }
    Then(s, p, a, recording, b);
  }

  lemma ActsFinal(f: Frame, text: string)
    ensures Act(f, FinalText(text)) == RecordingFinal(f, text)
  {
  }

  lemma FinalRecorded(db: Database, f: Frame, text: string)
    requires f.run in db.runs
    requires db.messages == map[] || db.messages == map[f.run := [FinalMessage(f, text)]]
    ensures RecordMessage(db, f.run, FinalMessage(f, text)) == Some(db.(messages := map[f.run := [FinalMessage(f, text)]]))
  {
    var m := FinalMessage(f, text);
    if db.messages != map[] {
      assert Transcript(db, f.run) == [m];
      assert FindKey([m], AssistantFinalKey(f.step)) == Some(m);
      assert db.(messages := map[f.run := [m]]) == db;
    } else {
      assert Transcript(db, f.run) == [] && [] + [m] == [m];
      assert db.messages[f.run := [m]] == map[f.run := [m]];
    }
  }

  lemma CompleteStep(s: Settings, c: Config, p: string, f: Frame, text: string) returns (c': Config)
    requires Pc(c, p) == Completing(f, text)
    ensures Step(s, c, c') && c'.db == CompleteRun(c.db, f.run, text)
    ensures forall q | q != p :: Pc(c', q) == Pc(c, q)
  {
    hide ToolStep, EventStep, DecisionStep, TickStep;
    var i := Facing(At0(NoAnswer, Failure(false)));
    c' := Apply(s, c, Work(p), i);
    assert Enabled(c, Work(p), i);
  }

  function OtherWorker(): string { "other" }

  /** The second claim, once the lease of the first has run out. */
  lemma SecondClaim(s: Settings, granted: set<string>, db: Database, now: int)
    requires var c := Submitted(granted); db.events == AfterClaim(s, c.db, c.hist, Worker(), First(), 0).db.events
    requires now >= 0 && now >= s.lease
    ensures BestEligible(db, TheEvent(), now)
    ensures db.events[TheEvent()].work == RunStep(TheRun(), 0) && db.events[TheEvent()].priority == 0
    ensures db.events[TheEvent()].attempts == 1
  {
  }

  /** The first worker before the completing UPDATE. */
  lemma FirstCompleting(s: Settings, granted: set<string>, text: string) returns (c: Config)
    requires s.maxSteps >= 1
    ensures Reachable(s, c) && Pc(c, Worker()) == Completing(TheFrame(granted), text) && Pc(c, OtherWorker()) == Idle
    ensures var a := AfterClaim(s, Submitted(granted).db, Submitted(granted).hist, Worker(), First(), 0);
      c.db == a.db.(decisions := map[StepId(TheRun(), 0) := FinalText(text)],
                    messages := map[TheRun() := [FinalMessage(TheFrame(granted), text)]])
  {
    hide Leads, Reachable, Reaches, BestEligible, AfterClaim, Claim;
    var start := Submitted(granted);
    SubmittedReachable(s, granted);
    FirstIsBest(granted);
    AfterFirst(s, granted);
    var a := AfterClaim(s, start.db, start.hist, Worker(), First(), 0);
    var b := ToCompleting(s, granted, Worker(), TheFrame(granted), text, a);
    DeliveryReaches(s, start, Worker(), First(), 0, b);
    c := At(start.procs, Worker(), b);
    ReachableReaches(s, start, c);
    TwoNames();
  }

  /** The second worker starts from the same run, with the decision and the message in place. */
  lemma SecondStarts(s: Settings, granted: set<string>, text: string, c: Config) returns (a: Result, e: Event, now: int)
    requires var first := AfterClaim(s, Submitted(granted).db, Submitted(granted).hist, Worker(), First(), 0);
      c.db == first.db.(decisions := map[StepId(TheRun(), 0) := FinalText(text)],
                        messages := map[TheRun() := [FinalMessage(TheFrame(granted), text)]])
    ensures BestEligible(c.db, TheEvent(), now) && TheEvent() in c.db.events
    ensures e == Event(TheEvent(), c.db.events[TheEvent()].work, c.db.events[TheEvent()].priority,
                       c.db.events[TheEvent()].attempts + 1)
    ensures a == AfterClaim(s, c.db, c.hist, OtherWorker(), e, now)
    ensures a.pc == Loading(Visit(TheEvent(), 0, 2, now), TheRun(), 0)
    ensures a.db.runs == Submitted(granted).db.runs && a.db.decisions == c.db.decisions && a.db.messages == c.db.messages
  {
    hide BestEligible;
    now := Max(0, s.lease);
    AfterFirst(s, granted);
    SecondClaim(s, granted, c.db, now);
    e := Event(TheEvent(), RunStep(TheRun(), 0), 0, 2);
    a := AfterClaim(s, c.db, c.hist, OtherWorker(), e, now);
  }

  /** Two workers, both before the completing UPDATE of one run. */
  lemma BothCompleting(s: Settings, granted: set<string>, text: string) returns (c: Config, f: Frame, g: Frame)
    requires s.maxSteps >= 1
    ensures Reachable(s, c) && Pc(c, Worker()) == Completing(f, text) && Pc(c, OtherWorker()) == Completing(g, text)
    ensures f.run == TheRun() && g.run == TheRun() && TheRun() in c.db.runs && c.db.runs[TheRun()].stepCount == 0
    ensures c.db.decisions == map[StepId(TheRun(), 0) := FinalText(text)]
  {
    hide Leads, Reachable, Reaches, BestEligible, AfterClaim, Claim, Dispatch;
    var c1 := FirstCompleting(s, granted, text);
    var a, e, now := SecondStarts(s, granted, text, c1);
    f, g := TheFrame(granted), Frame(Visit(TheEvent(), 0, 2, now), TheRun(), 0, granted);
    assert a.db.messages == map[TheRun() := [FinalMessage(g, text)]] && a.db.decisions == map[StepId(TheRun(), 0) := FinalText(text)] by {
      SameFinal(f, g, text);
    }
    var b := ToCompleting(s, granted, OtherWorker(), g, text, a);
    DeliveryReaches(s, c1, OtherWorker(), e, now, b);
    c := At(c1.procs, OtherWorker(), b);
    ReachableReaches(s, c1, c);
    TwoNames();
  }

  lemma TwoNames()
    ensures Worker() != OtherWorker()
  {
    assert Worker()[0] == 'w' && OtherWorker()[0] == 'o';
  }

  lemma SameFinal(f: Frame, g: Frame, text: string)
    requires f.step == g.step
    ensures FinalMessage(f, text) == FinalMessage(g, text)
  {
  }

  /** A run can be completed twice under (M): after its lease has run out a slow worker completes the
      run that another has completed, and the run ends a generation beyond its last decision. The
      step bound needs environment (S). */
  lemma CompletedTwice(s: Settings, granted: set<string>, text: string)
    requires s.maxSteps >= 1
    ensures exists c :: Reachable(s, c) && TheRun() in c.db.runs && c.db.runs[TheRun()].status == COMPLETED
                        && c.db.runs[TheRun()].stepCount == 2 && StepId(TheRun(), 1) !in c.db.decisions
  {
    hide Reachable, Step;
    var c0, f, g := BothCompleting(s, granted, text);
    var c1 := CompleteStep(s, c0, Worker(), f, text);
    ReachableStep(s, c0, c1);
    TwoNames();
    var c2 := CompleteStep(s, c1, OtherWorker(), g, text);
    ReachableStep(s, c1, c2);
  }
}
