/** The `ToolRegistry` class: registration, the effect ledger around a handler, recovery and
    reconciliation. The handler is the parameter `outcome`: what it returned or how it raised. */
module EffectRegistry {
  import opened Basics
  import opened JsonValues
  import opened Tables
  import opened SchemaRules
  import opened Protocol
  import opened Growth
  import opened AdmissionSafety
  import opened SoloInvariant
  import opened Paths
  import opened DurableStore
  import opened SchemaValidator

  /** A `ToolExecution`, or the exception: a ToolError or something else. */
  datatype Execution = Executed(output: Json, replayed: bool, digest: Digest) | Failed(toolError: bool)

  /** Where `execute` leaves its caller. */
  function Verdict(k: Caller, call: Call, r: Execution): PC {
    match r
    case Executed(output, _, _) => Returned(k, call, output)
    case Failed(toolError) => Raised(k, call, toolError)
  }

  function Given(outcome: Outcome): Input {
    Input(0, "", "", None, NoAnswer, outcome, "")
  }

  /** One statement inside `execute`. */
  lemma ToolOne(s: Settings, p: string, pc: PC, db: Database, h: History, outcome: Outcome)
    requires ToolPhase(pc)
    ensures Leads(s, p, Result(pc, db, h), ToolStep(s, pc, db, h, Given(outcome)))
  {
    hide ToolStep, Leads, EventStep, DecisionStep, ClosingStep, TickStep;
    One(s, p, Result(pc, db, h), Given(outcome));
  }

  lemma LookupOne(s: Settings, p: string, k: Caller, call: Call, db: Database, h: History)
    ensures var next := AfterLookup(s, k, call, db);
      Leads(s, p, Result(Executing(k, call), db, h),
            Result(next, db, if next.Returned? then AddCompletion(h, call.request, next.output) else h))
  {
    hide Leads, AfterLookup, AddCompletion;
    ToolOne(s, p, Executing(k, call), db, h, Failure(false));
  }

  function Invoked(k: Caller, call: Call, mutation: bool, h: History): History {
    h.(invocations := h.invocations + [Invocation(call, mutation, Granted(k), RunOf(k))])
  }

  /** The handler of a read-only tool. */
  lemma ReadOne(s: Settings, p: string, k: Caller, call: Call, db: Database, h: History, outcome: Outcome)
    ensures Leads(s, p, Result(Invoking(k, call, false), db, h),
                  Result(match outcome case Output(v) => Returned(k, call, v) case Failure(e) => Raised(k, call, e),
                         db, Invoked(k, call, false, h)))
  {
    hide Leads, Granted, RunOf;
    ToolOne(s, p, Invoking(k, call, false), db, h, outcome);
  }

  /** The database and history after a mutation's handler and the ledger write that follows it. */
  function AfterHandler(db: Database, call: Call, outcome: Outcome): Database {
    match outcome
    case Output(v) => SetEffect(db, call.request, COMMITTED, Some(v))
    case Failure(_) => MarkUnknown(db, call.request)
  }

  function HandlerHistory(k: Caller, call: Call, outcome: Outcome, h: History): History {
    match outcome
    case Output(v) => AddCompletion(Invoked(k, call, true, h), call.request, v)
    case Failure(_) => Invoked(k, call, true, h)
  }

  lemma MutationPath(s: Settings, p: string, k: Caller, call: Call, db: Database, h: History, outcome: Outcome)
    ensures Leads(s, p, Result(Invoking(k, call, true), db, h),
                  Result(match outcome case Output(v) => Returned(k, call, v) case Failure(e) => Raised(k, call, e),
                         AfterHandler(db, call, outcome), HandlerHistory(k, call, outcome, h)))
  {
    hide Leads, Granted, RunOf, SetEffect, MarkUnknown, AddCompletion;
    ToolOne(s, p, Invoking(k, call, true), db, h, outcome);
    var h1 := Invoked(k, call, true, h);
    var pc1 := match outcome case Output(v) => Committing(k, call, v) case Failure(e) => MarkingUnknown(k, call, e);
    ToolOne(s, p, pc1, db, h1, outcome);
    Then(s, p, Result(Invoking(k, call, true), db, h), Result(pc1, db, h1),
         ToolStep(s, pc1, db, h1, Given(outcome)));
  }

  lemma AdmitOne(s: Settings, p: string, k: Caller, call: Call, db: Database, h: History)
    requires call.request !in db.effects
    ensures Leads(s, p, Result(Admitting(k, call), db, h), Result(Invoking(k, call, true), AdmitEffect(db, call).value, h))
  {
    hide Leads, RequestPayload;
    ToolOne(s, p, Admitting(k, call), db, h, Failure(false));
  }

  lemma RearmOne(s: Settings, p: string, k: Caller, call: Call, db: Database, h: History)
    ensures Leads(s, p, Result(Rearming(k, call), db, h),
                  Result(Invoking(k, call, true), SetEffect(db, call.request, EXECUTING, None), h))
  {
    hide Leads, SetEffect;
    ToolOne(s, p, Rearming(k, call), db, h, Failure(false));
  }

  /** The row is the record of this very call. */
  predicate SameRequest(row: EffectRow, call: Call) {
    row.tool == call.tool && row.request == Obj(map["tool" := Str(call.tool), "arguments" := call.arguments])
  }

  /** What a handler's outcome is to the caller. */
  function Reported(outcome: Outcome): Execution {
    match outcome
    case Output(v) => Executed(v, false, Sha256(v))
    case Failure(toolError) => Failed(toolError)
  }

  /** The ledger after the handler: this call's row, with the output or unresolved, and no other change. */
  predicate Handled(a: Database, b: Database, call: Call, outcome: Outcome) {
    && call.request in b.effects && b == a.(effects := a.effects[call.request := b.effects[call.request]])
    && var row := b.effects[call.request];
       && SameRequest(row, call)
       && match outcome
          case Output(v) => row.state == COMMITTED && row.result == Some(v) && row.resultDigest == Some(Sha256(v))
          case Failure(_) => row.state == ATTEMPTED_UNKNOWN
  }

  /** The request was committed by this very call. */
  predicate Answerable(db: Database, call: Call) {
    call.request in db.effects && SameRequest(db.effects[call.request], call) && db.effects[call.request].state == COMMITTED
  }

  /** The request is new, or this very call was reconciled as having had no effect. */
  predicate MayInvoke(db: Database, call: Call) {
    || call.request !in db.effects
    || (SameRequest(db.effects[call.request], call) && db.effects[call.request].state == RECONCILED_NO_EFFECT)
  }

  lemma DigestIdentifies(s: Settings, db: Database, call: Call)
    requires LedgerOk(s, db) && call.request in db.effects
    ensures var row := db.effects[call.request];
      && (row.requestDigest == Sha256(RequestPayload(call)) && row.tool == call.tool <==> SameRequest(row, call))
      && (row.state == COMMITTED ==> row.result.Some?)
      && (row.result.Some? ==> row.resultDigest == Some(Sha256(row.result.value)))
      && row.tool in s.tools && s.tools[row.tool].mutation
  {
    hide StoredCall;
    assert LedgerRowOk(s, call.request, db.effects[call.request]);
  }

  lemma HandledAfter(db: Database, call: Call, outcome: Outcome)
    requires call.request in db.effects ==> SameRequest(db.effects[call.request], call)
    ensures Handled(db, AfterHandler(if call.request in db.effects then SetEffect(db, call.request, EXECUTING, None)
                                     else AdmitEffect(db, call).value, call, outcome), call, outcome)
  {
  }

  class ToolRegistry {
    const store: Store
    const rx: Regex
    var specs: map<string, ToolSpec>

    /** Every registered name is non-empty and its schema supported. */
    ghost predicate Valid()
      reads this
    {
      forall name | name in specs :: name != "" && Supported(rx, specs[name].schema)
    }

    ghost predicate Serves(s: Settings)
      reads this
    {
      s.tools == specs && s.rx == rx
    }

    constructor (store: Store, rx: Regex)
      ensures Valid() && specs == map[] && this.store == store && this.rx == rx
    {
      this.store := store;
      this.rx := rx;
      specs := map[];
    }

    /** Only a new, non-empty name with a supported schema is registered. */
    method Register(name: string, spec: ToolSpec) returns (ok: bool)
      requires Valid()
      modifies this
      ensures Valid()
      ensures ok <==> name != "" && name !in old(specs) && Supported(rx, spec.schema)
      ensures specs == if ok then old(specs)[name := spec] else old(specs)
    {
      hide Supported;
      if name == "" || name in specs {
        return false;
      }
      ok := CheckSupportedSchema(rx, spec.schema);
      if ok {
        specs := specs[name := spec];
      }
    }

    /** The checks before anything durable: known tool, granted capability, matching arguments. */
    method Admit(call: Call, granted: set<string>, ghost s: Settings) returns (ok: bool)
      requires Valid() && Serves(s)
      ensures ok <==> Admissible(s, call, granted)
    {
      hide Supported, Satisfies;
      if call.tool !in specs || specs[call.tool].capability !in granted {
        return false;
      }
      ok := ValidateSchemaValue(rx, specs[call.tool].schema, call.arguments);
    }

    /** The handler of a mutation, its row already EXECUTING, and the ledger write that follows it. */
    method RunMutation(call: Call, outcome: Outcome, ghost s: Settings, ghost p: string, ghost k: Caller, ghost h: History)
      returns (r: Execution, ghost h': History)
      modifies store
      ensures Leads(s, p, Result(Invoking(k, call, true), old(store.db), h), Result(Verdict(k, call, r), store.db, h'))
      ensures SameQueue(old(store.db), store.db) && SameTranscripts(old(store.db), store.db)
      ensures store.db == AfterHandler(old(store.db), call, outcome) && h' == HandlerHistory(k, call, outcome, h)
      ensures r == match outcome case Output(v) => Executed(v, false, Sha256(v)) case Failure(e) => Failed(e)
    {
      hide Leads, AddCompletion, Invoked;
      MutationPath(s, p, k, call, store.db, h, outcome);
      h' := HandlerHistory(k, call, outcome, h);
      match outcome
      case Output(output) =>
        store.db := SetEffect(store.db, call.request, COMMITTED, Some(output));
        r := Executed(output, false, Sha256(output));
      case Failure(toolError) =>
        store.db := MarkUnknown(store.db, call.request);
        r := Failed(toolError);
    }

    /** The durable EXECUTING row before the handler: a new one, or the reconciled one again. */
    method Arm(call: Call, ghost s: Settings, ghost p: string, ghost k: Caller, ghost start: Result, ghost h: History)
      requires Leads(s, p, start,
                     Result(if call.request in store.db.effects then Rearming(k, call) else Admitting(k, call), store.db, h))
      modifies store
      ensures Leads(s, p, start, Result(Invoking(k, call, true), store.db, h))
      ensures store.db == if call.request in old(store.db).effects then SetEffect(old(store.db), call.request, EXECUTING, None)
                          else AdmitEffect(old(store.db), call).value
      ensures SameQueue(old(store.db), store.db) && SameTranscripts(old(store.db), store.db)
    {
      hide Leads, RequestPayload;
      var db := store.db;
      if call.request in db.effects {
        RearmOne(s, p, k, call, db, h);
        store.db := SetEffect(db, call.request, EXECUTING, None);
        Then(s, p, start, Result(Rearming(k, call), db, h), Result(Invoking(k, call, true), store.db, h));
      } else {
        AdmitOne(s, p, k, call, db, h);
        store.db := AdmitEffect(db, call).value;
        Then(s, p, start, Result(Admitting(k, call), db, h), Result(Invoking(k, call, true), store.db, h));
      }
    }

    /** The part of `execute` for an admitted mutation. On a store whose ledger is in order its outcome is
        determined by the old row: replay, one invocation, or refusal. */
    method ExecuteMutation(call: Call, outcome: Outcome, ghost s: Settings, ghost p: string, ghost k: Caller, ghost h: History)
      returns (r: Execution, ghost h': History)
      requires Serves(s) && Admissible(s, call, Granted(k)) && specs[call.tool].mutation
      modifies store
      ensures Leads(s, p, Result(Executing(k, call), old(store.db), h), Result(Verdict(k, call, r), store.db, h'))
      ensures SameQueue(old(store.db), store.db) && SameTranscripts(old(store.db), store.db) && |h'.invocations| <= |h.invocations| + 1
      ensures old(call.request in store.db.effects && store.db.effects[call.request].state == COMMITTED) ==>
                store.db == old(store.db) && (r.Executed? ==> r.replayed) && h'.invocations == h.invocations
      ensures LedgerOk(s, old(store.db)) && Answerable(old(store.db), call) ==>
        && store.db == old(store.db) && h'.invocations == h.invocations
        && var row := old(store.db).effects[call.request];
           row.result.Some? && r == Executed(row.result.value, true, Sha256(row.result.value))
      ensures LedgerOk(s, old(store.db)) && MayInvoke(old(store.db), call) ==>
        && r == Reported(outcome) && Handled(old(store.db), store.db, call, outcome)
        && h'.invocations == h.invocations + [Invocation(call, true, Granted(k), RunOf(k))]
      ensures LedgerOk(s, old(store.db)) && !Answerable(old(store.db), call) && !MayInvoke(old(store.db), call) ==>
                r == Failed(true) && store.db == old(store.db) && h' == h
    {
      hide Leads, Admissible, Handled, LedgerOk, AfterHandler, SetEffect, AdmitEffect, SameRequest, RequestPayload, Granted, RunOf;
      var db := store.db;
      ghost var start := Result(Executing(k, call), db, h);
      LookupOne(s, p, k, call, db, h);
      h' := h;
      if LedgerOk(s, db) && call.request in db.effects { DigestIdentifies(s, db, call); }
      if call.request in db.effects ==> SameRequest(db.effects[call.request], call) { HandledAfter(db, call, outcome); }
      if call.request in db.effects {
        var row := db.effects[call.request];
        if row.requestDigest != Sha256(RequestPayload(call)) || row.tool != call.tool {
          return Failed(true), h;
        }
        if row.state == COMMITTED {
          CompletionOnly(h, call.request, if row.result.Some? then row.result.value else Null);
          if row.result.None? {
            return Failed(false), h;
          }
          return Executed(row.result.value, true, if row.resultDigest.Some? then row.resultDigest.value else Sha256(Null)),
                 AddCompletion(h, call.request, row.result.value);
        }
        if row.state != RECONCILED_NO_EFFECT {
          return Failed(true), h;
        }
      }
      Arm(call, s, p, k, start, h);
      ghost var armed := store.db;
      r, h' := RunMutation(call, outcome, s, p, k, h);
      HandlerInvokes(k, call, outcome, h);
      Then(s, p, start, Result(Invoking(k, call, true), armed, h), Result(Verdict(k, call, r), store.db, h'));
    }

    /** `execute`. Every exit is a statement sequence of the protocol. A request that is not admissible
        leaves no ledger row; a committed request is answered from its row without the handler; a
        successful mutation leaves its row COMMITTED with the output and digest it returns. */
    method Execute(call: Call, granted: set<string>, outcome: Outcome,
                   ghost s: Settings, ghost p: string, ghost k: Caller, ghost h: History)
      returns (r: Execution, ghost h': History)
      requires Valid() && Serves(s) && Granted(k) == granted
      modifies store
      ensures Leads(s, p, Result(Executing(k, call), old(store.db), h), Result(Verdict(k, call, r), store.db, h'))
      ensures SameQueue(old(store.db), store.db) && SameTranscripts(old(store.db), store.db)
      ensures !Admissible(s, call, granted) ==> r == Failed(true) && store.db == old(store.db) && h' == h
      ensures old(call.request in store.db.effects && store.db.effects[call.request].state == COMMITTED) ==>
                store.db == old(store.db) && (r.Executed? && specs[call.tool].mutation ==> r.replayed && h'.invocations == h.invocations)
      ensures |h'.invocations| <= |h.invocations| + 1
      ensures LedgerOk(s, old(store.db)) && r.Executed? && call.tool in specs && specs[call.tool].mutation ==>
                Committed(store.db.effects, call.request, r.output) && r.digest == Sha256(r.output)
      ensures Admissible(s, call, granted) && !specs[call.tool].mutation ==>
        && store.db == old(store.db) && r == Reported(outcome)
        && h'.invocations == h.invocations + [Invocation(call, false, granted, RunOf(k))]
      ensures LedgerOk(s, old(store.db)) && Admissible(s, call, granted) && specs[call.tool].mutation ==>
        && (r.Executed? && r.replayed <==> Answerable(old(store.db), call))
        && (Answerable(old(store.db), call) ==>
              && store.db == old(store.db) && h'.invocations == h.invocations
              && var row := old(store.db).effects[call.request];
                 row.result.Some? && r == Executed(row.result.value, true, Sha256(row.result.value)))
        && (MayInvoke(old(store.db), call) ==>
              && r == Reported(outcome) && Handled(old(store.db), store.db, call, outcome)
              && h'.invocations == h.invocations + [Invocation(call, true, granted, RunOf(k))])
        && (!Answerable(old(store.db), call) && !MayInvoke(old(store.db), call) ==>
              r == Failed(true) && store.db == old(store.db) && h' == h)
    {
      hide Leads, Supported, Satisfies, StoredCall, RequestPayload, LedgerOk, Granted, RunOf;
      ghost var db := store.db;
      ghost var start := Result(Executing(k, call), db, h);
      LookupOne(s, p, k, call, db, h);
      h' := h;
      var admitted := Admit(call, granted, s);
      if !admitted {
        return Failed(true), h;
      }
      if !specs[call.tool].mutation {
        ReadOne(s, p, k, call, db, h, outcome);
        h' := Invoked(k, call, false, h);
        r := Reported(outcome);
        Then(s, p, start, Result(Invoking(k, call, false), db, h), Result(Verdict(k, call, r), db, h'));
        return;
      }
      if LedgerOk(s, db) && call.request in db.effects { DigestIdentifies(s, db, call); }
      r, h' := ExecuteMutation(call, outcome, s, p, k, h);
    }

    /** `recover_reconciled`: a committed row is answered without the handler; a row reconciled as having
        no effect is executed once more from its stored request; any other row is refused. */
    method RecoverReconciled(request: string, granted: set<string>, outcome: Outcome,
                             ghost s: Settings, ghost p: string, ghost run: string, ghost now: int, ghost h: History)
      returns (call: Call, r: Execution, ghost h': History)
      requires Valid() && Serves(s)
      modifies store
      ensures Leads(s, p, Result(Recovering(run, now, granted, request), old(store.db), h),
                    Result(if r.Executed? then Returned(FromResume(run, now, granted), call, r.output) else Aborted,
                           store.db, h'))
      ensures SameQueue(old(store.db), store.db) && SameTranscripts(old(store.db), store.db)
      ensures old(request !in store.db.effects || Unresolved(store.db.effects[request].state)) ==>
                r.Failed? && store.db == old(store.db) && h' == h
      ensures old(request in store.db.effects && store.db.effects[request].state == COMMITTED) ==>
                store.db == old(store.db) && h'.invocations == h.invocations
      ensures old(request in store.db.effects && store.db.effects[request].state == COMMITTED
                  && store.db.effects[request].result.Some?) ==>
        var row := old(store.db).effects[request];
        r.Executed? && r.output == row.result.value && call == StoredCall(request, row.request).(tool := row.tool)
      ensures LedgerOk(s, old(store.db)) && request in old(store.db).effects ==>
        var row := old(store.db).effects[request];
        && (row.state == COMMITTED ==>
              row.result.Some? && r == Executed(row.result.value, true, Sha256(row.result.value)))
        && (row.state == RECONCILED_NO_EFFECT ==>
              forall stored: Call | stored.request == request && SameRequest(row, stored) ::
                && call == stored
                && (if Admissible(s, stored, granted) && stored.arguments.Obj? then
                      && r == Reported(outcome) && Handled(old(store.db), store.db, stored, outcome)
                      && h'.invocations == h.invocations + [Invocation(stored, true, granted, run)]
                    else
                      && r.Failed? && (stored.arguments.Obj? ==> r.toolError) && store.db == old(store.db) && h' == h))
      ensures |h'.invocations| <= |h.invocations| + 1
    {
      hide Leads, Supported, Satisfies, RequestPayload, AddCompletion, AfterLookup, Admissible, LedgerOk, Committed, StoredCall;
      hide Handled, SameRequest;
      var db := store.db;
      ghost var k := FromResume(run, now, granted);
      if LedgerOk(s, db) && request in db.effects { StoredRequest(s, db, request); }
      ghost var start := Result(Recovering(run, now, granted, request), db, h);
      RecoverOne(s, p, run, now, granted, request, db, h);
      call, h' := Call(request, "", Null), h;
      if request !in db.effects {
        r := Failed(true);
        return;
      }
      var row := db.effects[request];
      call := StoredCall(request, row.request);
      if row.state == COMMITTED {
        call := call.(tool := row.tool);
        if row.result.None? {
          r := Failed(false);
          return;
        }
        h' := AddCompletion(h, request, row.result.value);
        CompletionOnly(h, request, row.result.value);
        r := Executed(row.result.value, true, if row.resultDigest.Some? then row.resultDigest.value else Sha256(Null));
        return;
      }
      if row.state != RECONCILED_NO_EFFECT {
        r := Failed(true);
        return;
      }
      if !call.arguments.Obj? {
        r := Failed(false);
        return;
      }
      r, h' := Execute(call, granted, outcome, s, p, k, h);
      Then(s, p, start, Result(Executing(k, call), db, h), Result(Verdict(k, call, r), store.db, h'));
      if r.Failed? {
        RaiseOne(s, p, k, call, r.toolError, store.db, h');
        Then(s, p, start, Result(Verdict(k, call, r), store.db, h'), Result(Aborted, store.db, h'));
      }
    }

    method EffectState(request: string) returns (state: Option<EffectState>)
      ensures state == if request in store.db.effects then Some(store.db.effects[request].state) else None
    {
      return if request in store.db.effects then Some(store.db.effects[request].state) else None;
    }

    /** `reconcile`: only an unresolved row, only with a well-formed digest, a result exactly when the
        effect occurred; entry and row in one transaction. */
    method Reconcile(request: string, effectOccurred: bool, evidence: string, result: Option<Json>) returns (ok: bool)
      modifies store
      ensures ok <==> Tables.Reconcile(old(store.db), request, effectOccurred, evidence, result).Some?
      ensures store.db == if ok then Tables.Reconcile(old(store.db), request, effectOccurred, evidence, result).value
                          else old(store.db)
      ensures ok <==>
        && |evidence| == 64 && (forall i | 0 <= i < 64 :: IsHex(evidence[i]))
        && request in old(store.db).effects
        && old(store.db).effects[request].state in {EXECUTING, ATTEMPTED_UNKNOWN}
        && (effectOccurred <==> result.Some?)
      ensures ok ==>
        && request in store.db.effects
        && store.db == old(store.db).(
             effects := old(store.db).effects[request := old(store.db).effects[request].(
               state := if effectOccurred then COMMITTED else RECONCILED_NO_EFFECT,
               result := result, resultDigest := if result.Some? then Some(Sha256(result.value)) else None)],
             reconciliations := old(store.db).reconciliations + [Reconciliation(request, effectOccurred, LowerHex(evidence), result)])
    {
      if |evidence| != 64 {
        return false;
      }
      for i := 0 to |evidence|
        invariant forall j | 0 <= j < i :: IsHex(evidence[j])
        invariant store.db == old(store.db)
      {
        if !IsHex(evidence[i]) {
          return false;
        }
      }
      if request !in store.db.effects {
        return false;
      }
      var state := store.db.effects[request].state;
      if state != EXECUTING && state != ATTEMPTED_UNKNOWN {
        return false;
      }
      if effectOccurred != result.Some? {
        return false;
      }
      var entry := Reconciliation(request, effectOccurred, LowerHex(evidence), result);
      store.db := store.db.(reconciliations := store.db.reconciliations + [entry]);
      store.db := SetEffect(store.db, request, if effectOccurred then COMMITTED else RECONCILED_NO_EFFECT, result);
      return true;
    }
  }

  /** A ledger row records one call, the one rebuilt from its stored request. */
  lemma StoredRequest(s: Settings, db: Database, request: string)
    requires LedgerOk(s, db) && request in db.effects
    ensures var row := db.effects[request]; var call := StoredCall(request, row.request);
      && call.request == request && SameRequest(row, call) && call.tool in s.tools && s.tools[call.tool].mutation
      && (forall stored: Call | stored.request == request && SameRequest(row, stored) :: stored == call)
      && (row.state == COMMITTED ==> row.result.Some? && row.resultDigest == Some(Sha256(row.result.value)))
      && call == call.(tool := row.tool)
  {
    var row := db.effects[request];
    assert LedgerRowOk(s, request, row);
    forall stored: Call | stored.request == request && SameRequest(row, stored)
      ensures stored == StoredCall(request, row.request)
    {
      PayloadInverse(stored);
    }
  }

  lemma HandlerInvokes(k: Caller, call: Call, outcome: Outcome, h: History)
    ensures HandlerHistory(k, call, outcome, h).invocations == h.invocations + [Invocation(call, true, Granted(k), RunOf(k))]
  {
    hide Granted, RunOf;
  }

  lemma RecoverOne(s: Settings, p: string, run: string, now: int, granted: set<string>, request: string,
                   db: Database, h: History)
    ensures var k := FromResume(run, now, granted); var next := AfterRecovery(k, request, db);
      Leads(s, p, Result(Recovering(run, now, granted, request), db, h),
            Result(next, db, if next.Returned? then AddCompletion(h, request, next.output) else h))
  {
    hide Leads, AfterRecovery, AddCompletion;
    ToolOne(s, p, Recovering(run, now, granted, request), db, h, Failure(false));
  }

  lemma RaiseOne(s: Settings, p: string, k: Caller, call: Call, toolError: bool, db: Database, h: History)
    ensures Leads(s, p, Result(Raised(k, call, toolError), db, h), Result(AfterRaise(k, call, toolError, db), db, h))
  {
    hide Leads, AfterRaise;
    ToolOne(s, p, Raised(k, call, toolError), db, h, Failure(false));
  }

  lemma CompletionOnly(h: History, request: string, output: Json)
    ensures AddCompletion(h, request, output).invocations == h.invocations
  {
  }

  predicate IsHex(c: char) {
    '0' <= c <= '9' || 'a' <= c <= 'f' || 'A' <= c <= 'F'
  }

  lemma LedgerRow(s: Settings, db: Database, q: string)
    requires q in db.effects
    ensures LedgerOk(s, db) ==>
              db.effects[q].result.Some? ==> db.effects[q].resultDigest == Some(Sha256(db.effects[q].result.value))
  {
  }
}
