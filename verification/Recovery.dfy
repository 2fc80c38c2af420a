/** Environment (S) with distinct request ids: a blocked run whose request is COMMITTED is resumed. */
module Recovery {
  import opened Basics
  import opened JsonValues
  import opened Tables
  import opened Protocol
  import opened Growth
  import opened QueueSafety
  import opened AdmissionSafety
  import opened SoloInvariant
  import opened TranscriptRefinement
  import opened AdmittedCalls
  import opened EffectRegistry

  lemma DistinctInvariants(s: Settings, c: Config)
    requires DistinctTo(s, c)
    ensures QueueInv(c) && AdmissionInv(s, c) && SoloInv(s, c) && TaleInv(s, c)
  {
    hide DistinctStep, QueueInv, AdmissionInv, SoloInv, TaleInv, SoloExecution;
    var trace :| EndsIn(s, trace, c);
    var n := |trace| - 1;
    DistinctIsSolo(s, trace);
    SoloIsExecution(s, trace);
    ExecutionInv(s, trace, n);
    SoloReachable(s, trace, n);
    TaleExecution(s, trace, n);
  }

  /** The message of a recovered result is free, or there already with the same content. */
  lemma RecoveredRecorded(s: Settings, db: Database, v: View, r: string, call: Call, output: Json)
    requires Stories(s, db, v) && r in db.runs && db.runs[r].status == BLOCKED_EFFECT && Distinct(v.decisions)
    requires Chose(v, r, db.runs[r].stepCount, ToolCall(call)) && Committed(v.effects, call.request, output)
    ensures RecordMessage(db, r, ReconciledMessage(call, output)).Some?
  {
    hide Shape, MessageOk, FindKey, Distinct, Chose, Committed;
    var transcript := Transcript(db, r);
    var key := ReconciledResultKey(call.request);
    var found := FindKey(transcript, key);
    if found.Some? {
      var j :| 0 <= j < |transcript| && transcript[j] == found.value;
      assert Shape(s, v, r, StoryOf(db, r));
      RecoveredContent(s, v, r, StoryOf(db, r), j, call, output);
    }
  }

  lemma RecoveredContent(s: Settings, v: View, r: string, story: Story, j: nat, call: Call, output: Json)
    requires Shape(s, v, r, story) && j < |story.messages| && Distinct(v.decisions)
    requires story.messages[j].key == Some(ReconciledResultKey(call.request))
    requires Chose(v, r, story.step, ToolCall(call)) && Committed(v.effects, call.request, output)
    ensures story.messages[j].role == Tool && story.messages[j].content == ReconciledText(call.tool, output)
  {
    KeyPosition(s, v, r, story, j);
    assert StepId(r, j / 2) == StepId(r, story.step);
    assert MessageOk(s, v, r, story.messages, j);
  }

  /** Nothing is scheduled beyond a run's generation. */
  lemma NextKeyFree(db: Database, r: string)
    requires QueueOk(db) && r in db.runs
    ensures RunStepKey(r, db.runs[r].stepCount + 1) !in db.eventKeys
  {
    hide QueueOk;
    if RunStepKey(r, db.runs[r].stepCount + 1) in db.eventKeys {
      KeyedStep(db, r, db.runs[r].stepCount + 1);
    }
  }

  lemma KeyedStep(db: Database, r: string, step: nat)
    requires QueueOk(db) && RunStepKey(r, step) in db.eventKeys
    ensures r in db.runs && step <= db.runs[r].stepCount
  {
    hide SourcesIndexed, TasksAnswered, AllScheduled, SchedulesOk, Left;
    var e := db.eventKeys[RunStepKey(r, step)];
    assert StepKeyOk(db.events[e]) && StepEventOk(db.runs, db.events[e]);
  }

  /** RUNNING at the next generation, with its event. */
  predicate Resumed(a: Database, b: Database, r: string, newEvent: string) {
    && r in a.runs && r in b.runs && b.runs[r].status == RUNNING && b.runs[r].stepCount == a.runs[r].stepCount + 1
    && newEvent in b.events && b.events[newEvent].work == RunStep(r, b.runs[r].stepCount)
    && b.events[newEvent].status == PENDING
  }

  lemma ResumeTransaction(db: Database, r: string, newEvent: string, now: int)
    requires QueueOk(db) && r in db.runs && db.runs[r].status == BLOCKED_EFFECT && newEvent !in db.events
    ensures var b := ResumeRun(db, r, newEvent, 0, now); b.Some? && Resumed(db, b.value, r, newEvent)
  {
    hide QueueOk;
    NextKeyFree(db, r);
  }

  /** What recovery starts from: a reachable run that is blocked on a COMMITTED request. */
  ghost predicate Resumable(s: Settings, c: Config, r: string) {
    && DistinctTo(s, c) && r in c.db.runs && c.db.runs[r].status == BLOCKED_EFFECT
    && c.db.runs[r].blockedRequest.Some? && InState(ViewOf(c.db, c.hist), c.db.runs[r].blockedRequest.value, COMMITTED)
  }

  /** The result row of the blocked request, and the call it records. */
  lemma BlockedRow(s: Settings, c: Config, r: string)
    requires Resumable(s, c, r)
    ensures var q := c.db.runs[r].blockedRequest.value; var row := c.db.effects[q]; var call := StoredCall(q, row.request);
      && row.result.Some? && row.tool == call.tool && call.request == q
      && Chose(ViewOf(c.db, c.hist), r, c.db.runs[r].stepCount, ToolCall(call))
      && Committed(c.db.effects, q, row.result.value)
  {
    hide DistinctTo, QueueInv, Fence, Budget, PcSolo, Completions, Stories, Distinct, Asked;
    DistinctInvariants(s, c);
    var v := ViewOf(c.db, c.hist);
    var q := c.db.runs[r].blockedRequest.value;
    assert Barred(v, r);
    assert LedgerRowOk(s, q, c.db.effects[q]);
    assert Records(v.effects, v.decisions[StepId(r, v.runs[r].stepCount)].call);
  }

  lemma BlockedCommitted(s: Settings, c: Config, r: string)
    requires Resumable(s, c, r)
    ensures r in c.db.runs && c.db.runs[r].status == BLOCKED_EFFECT && c.db.runs[r].blockedRequest.Some?
    ensures var q := c.db.runs[r].blockedRequest.value;
      && q in c.db.effects && c.db.effects[q].state == COMMITTED && c.db.effects[q].result.Some?
      && var call := StoredCall(q, c.db.effects[q].request);
         c.db.effects[q].tool == call.tool && call.request == q
  {
    hide DistinctTo, Chose, Committed, StoredCall;
    BlockedRow(s, c, r);
  }

  /** Both writes of the recovery succeed, one after the other. */
  lemma RecoveryWrites(s: Settings, c: Config, r: string, newEvent: string, now: int)
    requires Resumable(s, c, r) && newEvent !in c.db.events
    ensures var q := c.db.runs[r].blockedRequest.value; var row := c.db.effects[q];
      var call := StoredCall(q, row.request);
      && row.result.Some?
      && var db1 := RecordMessage(c.db, r, ReconciledMessage(call, row.result.value));
         && db1.Some?
         && var db2 := ResumeRun(db1.value, r, newEvent, 0, now); db2.Some? && Resumed(c.db, db2.value, r, newEvent)
  {
    hide DistinctTo, QueueOk, PcOk, SoloInv, AdmissionInv, Stories, Chose, Committed, StoredCall, ResumeRun, RecordMessage, Distinct, Owned;
    BlockedRow(s, c, r);
    DistinctInvariants(s, c);
    var q := c.db.runs[r].blockedRequest.value;
    var row := c.db.effects[q];
    var call := StoredCall(q, row.request);
    RecoveredRecorded(s, c.db, ViewOf(c.db, c.hist), r, call, row.result.value);
    var m := ReconciledMessage(call, row.result.value);
    var db1 := RecordMessage(c.db, r, m).value;
    RecordMessageFrame(c.db, r, m);
    assert QueueOk(db1) by { MessageQueue(c.db, db1); }
    ResumeTransaction(db1, r, newEvent, now);
    SameRunsResumed(c.db, db1, ResumeRun(db1, r, newEvent, 0, now).value, r, newEvent);
  }

  lemma MessageQueue(a: Database, b: Database)
    requires QueueOk(a) && SameQueue(a, b)
    ensures QueueOk(b)
  {
    hide CoreOk, AllScheduled;
    QueueUntouched(a, b);
  }

  lemma SameRunsResumed(a: Database, b: Database, d: Database, r: string, newEvent: string)
    requires b.runs == a.runs && Resumed(b, d, r, newEvent)
    ensures Resumed(a, d, r, newEvent)
  {
  }
  // ---- after a reconciliation that found no effect --------------------------------------

  /** A reachable run that is blocked on a request reconciled as having had no effect. */
  ghost predicate Retryable(s: Settings, c: Config, r: string) {
    && DistinctTo(s, c) && r in c.db.runs && c.db.runs[r].status == BLOCKED_EFFECT
    && c.db.runs[r].blockedRequest.Some?
    && InState(ViewOf(c.db, c.hist), c.db.runs[r].blockedRequest.value, RECONCILED_NO_EFFECT)
  }

  /** The call a blocked run waits for, rebuilt from its row. */
  function WaitingFor(db: Database, r: string): Call
    requires r in db.runs && db.runs[r].blockedRequest.Some? && db.runs[r].blockedRequest.value in db.effects
  {
    StoredCall(db.runs[r].blockedRequest.value, db.effects[db.runs[r].blockedRequest.value].request)
  }

  /** It is the call the run decided, recorded as such, and still admissible. */
  lemma RetryCall(s: Settings, c: Config, r: string)
    requires Retryable(s, c, r)
    ensures r in c.db.runs && c.db.runs[r].status == BLOCKED_EFFECT && c.db.runs[r].blockedRequest.Some?
    ensures var q := c.db.runs[r].blockedRequest.value;
      && q in c.db.effects && c.db.effects[q].state == RECONCILED_NO_EFFECT
      && var call := WaitingFor(c.db, r);
         && call.request == q && SameRequest(c.db.effects[q], call) && LedgerOk(s, c.db)
         && Chose(ViewOf(c.db, c.hist), r, c.db.runs[r].stepCount, ToolCall(call))
         && Admissible(s, call, c.db.runs[r].capabilities) && s.tools[call.tool].mutation
  {
    hide DistinctTo, QueueInv, Fence, Budget, PcSolo, Completions, Stories, Distinct, Asked, Admissible, StoredCall, SameRequest;
    DistinctInvariants(s, c);
    var v := ViewOf(c.db, c.hist);
    var q := c.db.runs[r].blockedRequest.value;
    var step := v.runs[r].stepCount;
    assert Barred(v, r);
    assert Records(v.effects, v.decisions[StepId(r, step)].call);
    StoredRequest(s, c.db, q);
    AlwaysAdmissible(s, c, r, step);
  }

  /** The shape of the transcripts does not depend on a row that was not committed. */
  lemma StoriesAfterCommit(s: Settings, c: Config, b: Database, call: Call, output: Json)
    requires Stories(s, c.db, ViewOf(c.db, c.hist)) && Handled(c.db, b, call, Output(output))
    requires call.request in c.db.effects ==> c.db.effects[call.request].state != COMMITTED
    ensures Stories(s, b, ViewOf(b, c.hist))
    ensures Committed(b.effects, call.request, output)
  {
    hide Shape, StoryStep;
    SameRunsTale(s, ViewOf(c.db, c.hist), ViewOf(b, c.hist), c.db, b);
    StoriesKeep(s, c.db, ViewOf(c.db, c.hist), b, ViewOf(b, c.hist));
  }

  /** Once the handler has returned and its row is COMMITTED, both writes of the recovery succeed. */
  lemma RetryWrites(s: Settings, c: Config, r: string, b: Database, output: Json, newEvent: string, now: int)
    requires Retryable(s, c, r) && newEvent !in c.db.events
    requires r in c.db.runs && c.db.runs[r].blockedRequest.Some? && c.db.runs[r].blockedRequest.value in c.db.effects
    requires Handled(c.db, b, WaitingFor(c.db, r), Output(output))
    ensures var db1 := RecordMessage(b, r, ReconciledMessage(WaitingFor(c.db, r), output));
      && db1.Some?
      && var db2 := ResumeRun(db1.value, r, newEvent, 0, now); db2.Some? && Resumed(c.db, db2.value, r, newEvent)
  {
    hide DistinctTo, QueueOk, PcOk, SoloInv, AdmissionInv, Stories, Chose, Committed, StoredCall, ResumeRun, RecordMessage;
    hide Distinct, Owned, SameRequest, Admissible, LedgerOk, Resumed;
    RetryCall(s, c, r);
    DistinctInvariants(s, c);
    var call := WaitingFor(c.db, r);
    StoriesAfterCommit(s, c, b, call, output);
    assert Chose(ViewOf(b, c.hist), r, b.runs[r].stepCount, ToolCall(call)) by { SameChosen(ViewOf(c.db, c.hist), ViewOf(b, c.hist), r, call); }
    RecoveredRecorded(s, b, ViewOf(b, c.hist), r, call, output);
    var m := ReconciledMessage(call, output);
    var db1 := RecordMessage(b, r, m).value;
    RecordMessageFrame(b, r, m);
    assert QueueOk(b) by { MessageQueue(c.db, b); }
    assert QueueOk(db1) by { MessageQueue(b, db1); }
    ResumeTransaction(db1, r, newEvent, now);
    SameRunsResumed(c.db, db1, ResumeRun(db1, r, newEvent, 0, now).value, r, newEvent);
  }

  lemma SameChosen(v: View, v': View, r: string, call: Call)
    requires v'.decisions == v.decisions && v'.runs == v.runs && r in v.runs && Chose(v, r, v.runs[r].stepCount, ToolCall(call))
    ensures Chose(v', r, v'.runs[r].stepCount, ToolCall(call))
  {
  }
}
