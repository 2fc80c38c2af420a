/** Environment (S) with distinct request ids: a step whose mutation is COMMITTED already, because a process
    died after the commit, is carried to the next generation by its redelivery, without the handler. */
module Replay {
  import opened Basics
  import opened JsonValues
  import opened Tables
  import opened StoredDecisions
  import opened Protocol
  import opened Growth
  import opened QueueSafety
  import opened AdmissionSafety
  import opened SoloInvariant
  import opened TranscriptRefinement
  import opened AdmittedCalls
  import opened DurableStore
  import opened EffectRegistry
  import opened Recovery

  // ---- the messages of a repeated step --------------------------------------------------

  /** The assistant's message of the current step is free, or there already with the same content. */
  lemma SpokenRecorded(s: Settings, db: Database, v: View, r: string, d: Decision)
    requires Stories(s, db, v) && r in db.runs && db.runs[r].status == RUNNING
    requires Chose(v, r, db.runs[r].stepCount, d)
    ensures RecordMessage(db, r, Spoken(db.runs[r].stepCount, d)).Some?
  {
    hide Shape, MessageOk, FindKey, Chose;
    var m := Spoken(db.runs[r].stepCount, d);
    var transcript := Transcript(db, r);
    var found := FindKey(transcript, m.key.value);
    if found.Some? {
      var j :| 0 <= j < |transcript| && transcript[j] == found.value;
      assert Shape(s, v, r, StoryOf(db, r));
      SpokenContent(s, v, r, StoryOf(db, r), j, d);
    }
  }

  lemma SpokenContent(s: Settings, v: View, r: string, story: Story, j: nat, d: Decision)
    requires Shape(s, v, r, story) && j < |story.messages| && Chose(v, r, story.step, d)
    requires story.messages[j].key == Spoken(story.step, d).key
    ensures story.messages[j] == Spoken(story.step, d)
  {
    KeyPosition(s, v, r, story, j);
    assert MessageOk(s, v, r, story.messages, j);
  }

  /** So is the result of a committed mutation. */
  lemma ResultRecorded(s: Settings, db: Database, v: View, f: Frame, call: Call, output: Json)
    requires Stories(s, db, v) && f.run in db.runs && db.runs[f.run].status == RUNNING && db.runs[f.run].stepCount == f.step
    requires Chose(v, f.run, f.step, ToolCall(call)) && MutationTool(s, call.tool) && Committed(v.effects, call.request, output)
    ensures RecordMessage(db, f.run, ResultMessage(f, call, output)).Some?
  {
    hide Shape, MessageOk, FindKey, Chose, Committed;
    var transcript := Transcript(db, f.run);
    var found := FindKey(transcript, ToolResultKey(f.step));
    if found.Some? {
      var j :| 0 <= j < |transcript| && transcript[j] == found.value;
      assert Shape(s, v, f.run, StoryOf(db, f.run));
      ResultContent(s, v, f.run, StoryOf(db, f.run), j, call, output);
    }
  }

  lemma ResultContent(s: Settings, v: View, r: string, story: Story, j: nat, call: Call, output: Json)
    requires Shape(s, v, r, story) && j < |story.messages| && Chose(v, r, story.step, ToolCall(call))
    requires story.messages[j].key == Some(ToolResultKey(story.step)) && MutationTool(s, call.tool)
    requires Committed(v.effects, call.request, output)
    ensures story.messages[j].role == Tool && story.messages[j].content == ResultText(call.tool, output)
  {
    KeyPosition(s, v, r, story, j);
    assert MessageOk(s, v, r, story.messages, j);
  }

  // ---- the delivery ---------------------------------------------------------------------

  /** The output a committed call is answered with. */
  function Stored(db: Database, call: Call): Json {
    if call.request in db.effects && db.effects[call.request].result.Some? then db.effects[call.request].result.value else Null
  }

  /** All that the tool-call branch needs to carry a committed call through. */
  ghost predicate ReplayReady(s: Settings, db: Database, f: Frame, call: Call, newEvent: string, worker: string) {
    && LedgerOk(s, db) && Admissible(s, call, f.capabilities) && MutationTool(s, call.tool) && Answerable(db, call)
    && f.run in db.runs && db.runs[f.run].status == RUNNING && db.runs[f.run].stepCount == f.step
    && Schedulable(db, newEvent, f.run, f.step + 1, f.visit.priority) && RunStepKey(f.run, f.step + 1) !in db.eventKeys
    && Owns(db, f.visit.event, worker)
    && RecordMessage(db, f.run, CallMessage(f, call)).Some?
    && RecordMessage(RecordMessage(db, f.run, CallMessage(f, call)).value, f.run, ResultMessage(f, call, Stored(db, call))).Some?
  }

  /** A run at a step whose stored decision is a committed mutation. */
  ghost predicate CommittedStep(s: Settings, c: Config, run: string, step: nat) {
    && DistinctTo(s, c) && run in c.db.runs && c.db.runs[run].status == RUNNING && c.db.runs[run].stepCount == step
    && StepId(run, step) in c.db.decisions && c.db.decisions[StepId(run, step)].ToolCall?
    && Readable(c.db.decisions[StepId(run, step)])
    && InState(ViewOf(c.db, c.hist), c.db.decisions[StepId(run, step)].call.request, COMMITTED)
  }

  /** What the invariants say of such a step. */
  lemma CommittedCall(s: Settings, c: Config, run: string, step: nat)
    requires CommittedStep(s, c, run, step)
    ensures var call := c.db.decisions[StepId(run, step)].call;
      && step < s.maxSteps && LedgerOk(s, c.db) && Answerable(c.db, call)
      && Admissible(s, call, c.db.runs[run].capabilities) && MutationTool(s, call.tool)
      && Committed(c.db.effects, call.request, Stored(c.db, call))
  {
    hide DistinctTo, QueueInv, Barrier, Budget, PcSolo, Completions, Stories, Distinct, Asked, Admissible, StoredCall;
    DistinctInvariants(s, c);
    var call := c.db.decisions[StepId(run, step)].call;
    var v := ViewOf(c.db, c.hist);
    assert Records(v.effects, v.decisions[StepId(run, step)].call);
    StoredRequest(s, c.db, call.request);
    AlwaysAdmissible(s, c, run, step);
    FenceBound(s, v.runs, v.decisions, run, step);
  }

  lemma FenceBound(s: Settings, runs: map<string, RunRow>, decisions: map<StepId, Decision>, run: string, step: nat)
    requires Fence(s, runs, decisions) && StepId(run, step) in decisions
    ensures step < s.maxSteps
  {
    assert StepId(run, step).step == step;
  }

  /** Both messages can be written, the second after the first. */
  lemma CommittedMessages(s: Settings, c: Config, f: Frame)
    requires CommittedStep(s, c, f.run, f.step)
    ensures var call := c.db.decisions[StepId(f.run, f.step)].call;
      var db1 := RecordMessage(c.db, f.run, CallMessage(f, call));
      db1.Some? && RecordMessage(db1.value, f.run, ResultMessage(f, call, Stored(c.db, call))).Some?
  {
    hide DistinctTo, QueueInv, SoloInv, AdmissionInv, Stories, RecordMessage, Committed, Answerable, Admissible, LedgerOk, StoriesStep;
    DistinctInvariants(s, c);
    CommittedCall(s, c, f.run, f.step);
    var v := ViewOf(c.db, c.hist);
    var call := c.db.decisions[StepId(f.run, f.step)].call;
    SpokenRecorded(s, c.db, v, f.run, ToolCall(call));
    assert CallMessage(f, call) == Spoken(f.step, ToolCall(call));
    var db1 := RecordMessage(c.db, f.run, CallMessage(f, call)).value;
    RecordMessageFrame(c.db, f.run, CallMessage(f, call));
    SpeakDecision(s, c.db, v, f.run, f.step, ToolCall(call));
    assert Stories(s, db1, v) by {
      assert Learns(v, v);
      StoriesKeep(s, c.db, v, db1, v);
    }
    ResultRecorded(s, db1, v, f, call, Stored(c.db, call));
  }

  /** What a write of a message depends on: the transcript and whether the run exists. */
  predicate Recordable(transcript: seq<Message>, known: bool, m: Message) {
    var found := if m.key.Some? then FindKey(transcript, m.key.value) else None;
    if found.Some? then found.value.role == m.role && found.value.content == m.content else known
  }

  function Appended(messages: map<string, seq<Message>>, r: string, m: Message): map<string, seq<Message>> {
    var transcript := if r in messages then messages[r] else [];
    if m.key.Some? && FindKey(transcript, m.key.value).Some? then messages else messages[r := transcript + [m]]
  }

  lemma RecordedFrom(db: Database, r: string, m: Message)
    ensures RecordMessage(db, r, m).Some? <==> Recordable(Transcript(db, r), r in db.runs, m)
    ensures RecordMessage(db, r, m).Some? ==>
              RecordMessage(db, r, m).value.messages == Appended(db.messages, r, m) && RecordMessage(db, r, m).value.runs == db.runs
  {
    hide FindKey;
  }

  lemma MessageElsewhere(a: Database, b: Database, r: string, m: Message)
    requires b.messages == a.messages && b.runs == a.runs && RecordMessage(a, r, m).Some?
    ensures RecordMessage(b, r, m).Some? && RecordMessage(b, r, m).value.messages == RecordMessage(a, r, m).value.messages
    ensures RecordMessage(b, r, m).value.runs == RecordMessage(a, r, m).value.runs
  {
    hide RecordMessage, Recordable, Appended;
    RecordedFrom(a, r, m);
    RecordedFrom(b, r, m);
  }

  lemma ClaimedSame(db: Database, e: string, worker: string, now: int, lease: int)
    requires e in db.events
    ensures var b := Claim(db, e, worker, now, lease);
      && b.runs == db.runs && b.messages == db.messages && b.effects == db.effects && b.decisions == db.decisions
      && b.eventKeys == db.eventKeys && b.events.Keys == db.events.Keys && Owns(b, e, worker)
  {
  }

  lemma ClaimedMessages(s: Settings, c: Config, b: Database, f: Frame)
    requires CommittedStep(s, c, f.run, f.step) && b.runs == c.db.runs && b.messages == c.db.messages && b.effects == c.db.effects
    ensures var call := c.db.decisions[StepId(f.run, f.step)].call;
      var db1 := RecordMessage(b, f.run, CallMessage(f, call));
      db1.Some? && RecordMessage(db1.value, f.run, ResultMessage(f, call, Stored(b, call))).Some?
  {
    hide DistinctTo, RecordMessage;
    CommittedMessages(s, c, f);
    var call := c.db.decisions[StepId(f.run, f.step)].call;
    var m := CallMessage(f, call);
    MessageElsewhere(c.db, b, f.run, m);
    MessageElsewhere(RecordMessage(c.db, f.run, m).value, RecordMessage(b, f.run, m).value, f.run,
                     ResultMessage(f, call, Stored(c.db, call)));
  }

  /** The redelivered event finds everything ready. */
  lemma ReplayStarts(s: Settings, c: Config, worker: string, e: string, now: int, f: Frame, newEvent: string)
    requires CommittedStep(s, c, f.run, f.step) && newEvent !in c.db.events
    requires e in c.db.events && f.visit.event == e && f.capabilities == c.db.runs[f.run].capabilities
    ensures f.step < s.maxSteps
    ensures ReplayReady(s, Claim(c.db, e, worker, now, s.lease), f, c.db.decisions[StepId(f.run, f.step)].call, newEvent, worker)
  {
    hide DistinctTo, QueueOk, PcOk, SoloInv, AdmissionInv, TaleInv, RecordMessage, Admissible, Committed, MutationTool;
    hide SameRequest, Claim, Owns;
    CommittedCall(s, c, f.run, f.step);
    DistinctInvariants(s, c);
    NextKeyFree(c.db, f.run);
    var b := Claim(c.db, e, worker, now, s.lease);
    ClaimedSame(c.db, e, worker, now, s.lease);
    ClaimedMessages(s, c, b, f);
    assert LedgerOk(s, b) by { SameLedgerOk(s, c.db, b); }
  }

  lemma SameLedgerOk(s: Settings, a: Database, b: Database)
    requires LedgerOk(s, a) && b.effects == a.effects
    ensures LedgerOk(s, b)
  {
  }

  /** The run at the next generation with its event, the delivered event done. */
  predicate Carried(a: Database, b: Database, f: Frame, newEvent: string) {
    Resumed(a, b, f.run, newEvent) && f.visit.event in b.events && b.events[f.visit.event].status == DONE
  }
}
