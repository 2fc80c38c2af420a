/** Environment (S) with distinct request ids: crash and retry refine a machine that never crashes.
    The crash-free machine tells the story of one run: decide, observe, advance, in this order and
    once each. Every step of the real system is a step of that machine or none at all. */
module TranscriptRefinement {
  import opened Basics
  import opened JsonValues
  import opened Tables
  import opened Protocol
  import opened Growth
  import opened AdmissionSafety
  import opened SoloInvariant
  import opened SoloTheorems

  // ---- the crash-free machine -----------------------------------------------------------

  /** What the outside sees of one run. */
  datatype Story = Story(status: RunStatus, step: nat, messages: seq<Message>)

  function StoryOf(db: Database, r: string): Story
    requires r in db.runs
  {
    Story(db.runs[r].status, db.runs[r].stepCount, Transcript(db, r))
  }

  const OPENING := Story(RUNNING, 0, [])

  /** The assistant's message for a decision. */
  function Spoken(step: nat, d: Decision): Message {
    match d
    case ToolCall(call) => Message(Assistant, CallText(call), Some(AssistantDecisionKey(step)))
    case FinalText(text) => Message(Assistant, PlainText(text), Some(AssistantFinalKey(step)))
  }

  /** The result of a call executed by its own step. A mutation's output is the committed one. */
  predicate Observed(s: Settings, effects: map<string, EffectRow>, call: Call, step: nat, m: Message) {
    && m.role == Tool && m.content.ResultText? && m.content.tool == call.tool && m.key == Some(ToolResultKey(step))
    && (MutationTool(s, call.tool) ==> Committed(effects, call.request, m.content.output))
  }

  /** The result of a call recovered after reconciliation. */
  predicate Recovered(effects: map<string, EffectRow>, call: Call, m: Message) {
    && m.role == Tool && m.content.ReconciledText? && m.content.tool == call.tool
    && m.key == Some(ReconciledResultKey(call.request)) && Committed(effects, call.request, m.content.output)
  }

  predicate Chose(v: View, r: string, step: nat, d: Decision) {
    StepId(r, step) in v.decisions && v.decisions[StepId(r, step)] == d
  }

  predicate Called(v: View, r: string, step: nat) {
    StepId(r, step) in v.decisions && v.decisions[StepId(r, step)].ToolCall?
  }

  /** One message more: the decision, then its result. */
  predicate Speaks(s: Settings, v: View, r: string, a: Story, b: Story) {
    && b.status == a.status && b.step == a.step && |b.messages| == |a.messages| + 1
    && b.messages[..|a.messages|] == a.messages
    && StepId(r, a.step) in v.decisions
    && var d := v.decisions[StepId(r, a.step)]; var m := b.messages[|a.messages|];
       || (a.status == RUNNING && |a.messages| == 2 * a.step && m == Spoken(a.step, d))
       || (a.status == RUNNING && |a.messages| == 2 * a.step + 1 && d.ToolCall? && Observed(s, v.effects, d.call, a.step, m))
       || (a.status == BLOCKED_EFFECT && |a.messages| == 2 * a.step + 1 && d.ToolCall? && Recovered(v.effects, d.call, m))
  }

  /** One move of the run: to the next generation, to an end, to the barrier and back. */
  predicate Moves(v: View, r: string, a: Story, b: Story) {
    && b.messages == a.messages
    && (|| (a.status == RUNNING && b.status == RUNNING && b.step == a.step + 1
            && |a.messages| == 2 * a.step + 2 && Called(v, r, a.step))
        || (a.status == RUNNING && b.status == COMPLETED && b.step == a.step + 1
            && |a.messages| == 2 * a.step + 1 && StepId(r, a.step) in v.decisions && v.decisions[StepId(r, a.step)].FinalText?)
        || (a.status == RUNNING && b.status == BLOCKED_EFFECT && b.step == a.step
            && |a.messages| == 2 * a.step + 1 && Called(v, r, a.step))
        || (a.status == BLOCKED_EFFECT && b.status == RUNNING && b.step == a.step + 1 && |a.messages| == 2 * a.step + 2)
        || (a.status == RUNNING && b.status == FAILED && b.step == a.step))
  }

  predicate StoryStep(s: Settings, v: View, r: string, a: Story, b: Story) {
    a == b || Speaks(s, v, r, a, b) || Moves(v, r, a, b)
  }

  // ---- what the crash-free machine keeps ------------------------------------------------

  /** Message `j` is the decision of step j/2, or its result. */
  predicate MessageOk(s: Settings, v: View, r: string, messages: seq<Message>, j: nat)
    requires j < |messages|
  {
    && StepId(r, j / 2) in v.decisions
    && var d := v.decisions[StepId(r, j / 2)];
       if j % 2 == 0 then messages[j] == Spoken(j / 2, d)
       else d.ToolCall? && (Observed(s, v.effects, d.call, j / 2, messages[j]) || Recovered(v.effects, d.call, messages[j]))
  }

  predicate LengthOk(story: Story) {
    var n, k := |story.messages|, story.step;
    match story.status
    case RUNNING => 2 * k <= n <= 2 * k + 2
    case FAILED => 2 * k <= n <= 2 * k + 2
    case BLOCKED_EFFECT => 2 * k + 1 <= n <= 2 * k + 2
    case COMPLETED => k >= 1 && n == 2 * k - 1
  }

  /** A result beyond the current call is the step's own, or the recovered one behind the barrier. */
  predicate TailOk(story: Story) {
    |story.messages| == 2 * story.step + 2 ==>
      var m := story.messages[2 * story.step + 1];
      (story.status == RUNNING ==> m.content.ResultText?) && (story.status == BLOCKED_EFFECT ==> m.content.ReconciledText?)
  }

  /** One assistant message and one result for each step already advanced past, in step order, plus a
      prefix of the current step's pair or the one final message. */
  ghost predicate Shape(s: Settings, v: View, r: string, story: Story) {
    && LengthOk(story) && TailOk(story)
    && (forall j: nat | j < |story.messages| :: MessageOk(s, v, r, story.messages, j))
    && (story.status == BLOCKED_EFFECT ==> Called(v, r, story.step))
  }

  /** Decisions and committed results stay. */
  ghost predicate Learns(v: View, v': View) {
    && SubMap(v.decisions, v'.decisions)
    && forall q | q in v.effects && v.effects[q].state == COMMITTED :: q in v'.effects && v'.effects[q] == v.effects[q]
  }

  lemma MessageLater(s: Settings, v: View, v': View, r: string, messages: seq<Message>, messages': seq<Message>, j: nat)
    requires Learns(v, v') && j < |messages| <= |messages'| && messages'[j] == messages[j]
    requires MessageOk(s, v, r, messages, j)
    ensures MessageOk(s, v', r, messages', j)
  {
  }

  /** The shape is an invariant of the crash-free machine. */
  lemma StoryKeeps(s: Settings, v: View, v': View, r: string, a: Story, b: Story)
    requires Shape(s, v, r, a) && Learns(v, v') && StoryStep(s, v', r, a, b)
    ensures Shape(s, v', r, b)
  {
    hide MessageOk, Learns;
    assert |b.messages| >= |a.messages|;
    forall j: nat | j < |b.messages|
      ensures MessageOk(s, v', r, b.messages, j)
    {
      if j < |a.messages| {
        assert b.messages[j] == b.messages[..|a.messages|][j];
        MessageLater(s, v, v', r, a.messages, b.messages, j);
      } else {
        LastSpoken(s, v', r, a, b);
      }
    }
    CalledLater(v, v', r, a.step);
  }

  lemma CalledLater(v: View, v': View, r: string, step: nat)
    requires Learns(v, v')
    ensures Called(v, r, step) ==> Called(v', r, step)
  {
  }

  lemma LastSpoken(s: Settings, v: View, r: string, a: Story, b: Story)
    requires Speaks(s, v, r, a, b)
    ensures MessageOk(s, v, r, b.messages, |a.messages|)
  {
    hide Observed, Recovered;
    assert (2 * a.step) / 2 == a.step && (2 * a.step + 1) / 2 == a.step;
  }
  // ---- the real system ------------------------------------------------------------------

  /** No two stored decisions carry one request id. */
  ghost predicate Distinct(decisions: map<StepId, Decision>) {
    forall a, b | a in decisions && b in decisions && decisions[a].ToolCall? && decisions[b].ToolCall?
                  && decisions[a].call.request == decisions[b].call.request :: a == b
  }

  ghost predicate NewRequest(decisions: map<StepId, Decision>, d: Decision) {
    d.ToolCall? ==> forall id | id in decisions && decisions[id].ToolCall? :: decisions[id].call.request != d.call.request
  }

  ghost predicate Asked(decisions: map<StepId, Decision>, q: string) {
    exists id :: id in decisions && decisions[id].ToolCall? && decisions[id].call.request == q
  }

  /** A ledger row is the record of the one decision with its request id. */
  ghost predicate Owned(decisions: map<StepId, Decision>, effects: map<string, EffectRow>) {
    && (forall q | q in effects :: Asked(decisions, q))
    && (forall id | id in decisions && decisions[id].ToolCall? && decisions[id].call.request in effects ::
          Records(effects, decisions[id].call))
  }

  ghost predicate Identities(v: View) {
    Distinct(v.decisions) && Owned(v.decisions, v.effects)
  }

  ghost predicate Stories(s: Settings, db: Database, v: View) {
    && (forall r | r in db.runs :: Shape(s, v, r, StoryOf(db, r)))
    && (forall r | r in db.messages :: r in db.runs)
  }

  /** How far the transcript is at each program counter. */
  ghost predicate PcTale(db: Database, pc: PC) {
    && (CallPhase(pc) && pc.caller.FromStep? ==>
          |Transcript(db, pc.caller.frame.run)| >= 2 * pc.caller.frame.step + 1)
    && (pc.Advancing? ==> |Transcript(db, pc.frame.run)| == 2 * pc.frame.step + 2)
    && (pc.Completing? || pc.Blocking? ==> |Transcript(db, pc.frame.run)| == 2 * pc.frame.step + 1)
    && (pc.Resuming? ==> pc.run in db.runs && |Transcript(db, pc.run)| == 2 * db.runs[pc.run].stepCount + 2)
    && (pc.RecordingDecision? ==> NewRequest(db.decisions, pc.decision))
  }

  /** Every run's story moves as the crash-free machine allows. */
  ghost predicate StoriesStep(s: Settings, v: View, a: Database, b: Database) {
    && (forall r | r in a.runs :: r in b.runs && StoryStep(s, v, r, StoryOf(a, r), StoryOf(b, r)))
    && (forall r | r in b.runs && r !in a.runs :: StoryOf(b, r) == OPENING)
    && (forall r | r in b.messages :: r in b.runs)
  }

  /** Every story but that of `only` stands still. */
  ghost predicate OthersStand(a: Database, b: Database, only: string) {
    && (forall r | r in a.runs && r != only :: r in b.runs && StoryOf(b, r) == StoryOf(a, r))
    && (forall r | r in b.runs && r !in a.runs :: StoryOf(b, r) == OPENING)
    && (forall r | r in b.messages :: r in b.runs)
  }

  lemma OneStory(s: Settings, v: View, a: Database, b: Database, r: string)
    requires OthersStand(a, b, r)
    requires r in a.runs ==> r in b.runs && StoryStep(s, v, r, StoryOf(a, r), StoryOf(b, r))
    ensures StoriesStep(s, v, a, b)
  {
    hide Speaks, Moves;
  }

  lemma StoriesKeep(s: Settings, a: Database, v: View, b: Database, v': View)
    requires Stories(s, a, v) && Learns(v, v') && StoriesStep(s, v', a, b)
    ensures Stories(s, b, v')
  {
    hide Learns, StoryStep, Shape;
    forall r | r in b.runs
      ensures Shape(s, v', r, StoryOf(b, r))
    {
      if r in a.runs {
        StoryKeeps(s, v, v', r, StoryOf(a, r), StoryOf(b, r));
      } else {
        OpeningShape(s, v', r);
      }
    }
  }

  lemma OpeningShape(s: Settings, v: View, r: string)
    ensures Shape(s, v, r, OPENING)
  {
  }

  // ---- writing a message ----------------------------------------------------------------

  /** RecordMessage either finds the keyed entry, or appends, or raises. */
  lemma RecordMessageCases(db: Database, r: string, m: Message)
    requires m.key.Some? && (forall x | x in db.messages :: x in db.runs)
    ensures var b := RecordMessage(db, r, m);
      b.Some? ==>
        && OthersStand(db, b.value, r) && b.value.runs == db.runs
        && (|| (b.value == db && exists j: nat :: j < |Transcript(db, r)| && Transcript(db, r)[j].key == m.key)
            || (&& r in db.runs && Transcript(b.value, r) == Transcript(db, r) + [m]
                && forall j: nat | j < |Transcript(db, r)| :: Transcript(db, r)[j].key != m.key))
  {
    hide FindKey;
    var found := FindKey(Transcript(db, r), m.key.value);
    if found.Some? {
      var j :| 0 <= j < |Transcript(db, r)| && Transcript(db, r)[j] == found.value;
    }
  }

  /** Keys name their position. */
  lemma KeyPosition(s: Settings, v: View, r: string, story: Story, j: nat)
    requires Shape(s, v, r, story) && j < |story.messages| && story.messages[j].key.Some?
    ensures story.messages[j].key.value.AssistantDecisionKey? || story.messages[j].key.value.AssistantFinalKey? ==>
              story.messages[j].key.value.step == j / 2 && j % 2 == 0
    ensures story.messages[j].key.value.ToolResultKey? ==> story.messages[j].key.value.step == j / 2 && j % 2 == 1
    ensures story.messages[j].key.value.ReconciledResultKey? ==>
              && j % 2 == 1 && StepId(r, j / 2) in v.decisions && v.decisions[StepId(r, j / 2)].ToolCall?
              && v.decisions[StepId(r, j / 2)].call.request == story.messages[j].key.value.request
  {
    assert MessageOk(s, v, r, story.messages, j);
  }

  /** The assistant's message of the current step: already there, or the next one. */
  lemma SpeakDecision(s: Settings, db: Database, v: View, r: string, step: nat, d: Decision)
    requires Stories(s, db, v) && r in db.runs && db.runs[r].status == RUNNING && db.runs[r].stepCount == step
    requires Chose(v, r, step, d)
    ensures var b := RecordMessage(db, r, Spoken(step, d));
      b.Some? ==> StoriesStep(s, v, db, b.value) && |Transcript(b.value, r)| >= 2 * step + 1
                  && (d.FinalText? ==> |Transcript(b.value, r)| == 2 * step + 1)
  {
    hide RecordMessage, MessageOk, Observed, Recovered;
    var a := StoryOf(db, r);
    var m := Spoken(step, d);
    assert Shape(s, v, r, a);
    RecordMessageCases(db, r, m);
    var b := RecordMessage(db, r, m);
    if b.Some? {
      if |a.messages| >= 2 * step + 1 { SpokenThere(s, v, r, a, d); }
      if exists j: nat :: j < |a.messages| && a.messages[j].key == m.key {
        var j: nat :| j < |a.messages| && a.messages[j].key == m.key;
        KeyPosition(s, v, r, a, j);
        assert b.value == db;
        if d.FinalText? && |a.messages| > 2 * step + 1 { NothingAfterFinal(s, v, r, a, d); }
        OneStory(s, v, db, b.value, r);
      } else {
        assert |a.messages| == 2 * step;
        OneStory(s, v, db, b.value, r);
      }
    }
  }

  lemma SpokenThere(s: Settings, v: View, r: string, story: Story, d: Decision)
    requires Shape(s, v, r, story) && Chose(v, r, story.step, d) && |story.messages| >= 2 * story.step + 1
    ensures story.messages[2 * story.step] == Spoken(story.step, d)
  {
    var j := 2 * story.step;
    assert j / 2 == story.step && j % 2 == 0;
    assert MessageOk(s, v, r, story.messages, j);
  }

  lemma ResultOfCall(s: Settings, v: View, r: string, story: Story, j: nat)
    requires Shape(s, v, r, story) && j < |story.messages| && j % 2 == 1
    ensures Called(v, r, j / 2)
  {
    assert MessageOk(s, v, r, story.messages, j);
  }

  lemma NothingAfterFinal(s: Settings, v: View, r: string, story: Story, d: Decision)
    requires Shape(s, v, r, story) && Chose(v, r, story.step, d) && d.FinalText?
    ensures |story.messages| < 2 * story.step + 2
  {
    hide Shape;
    var j := 2 * story.step + 1;
    assert j / 2 == story.step && j % 2 == 1;
    if j < |story.messages| {
      ResultOfCall(s, v, r, story, j);
    }
  }

  /** The result message of the step that executed the call. */
  lemma SpeakResult(s: Settings, db: Database, v: View, f: Frame, call: Call, output: Json)
    requires Stories(s, db, v) && f.run in db.runs && db.runs[f.run].status == RUNNING && db.runs[f.run].stepCount == f.step
    requires Chose(v, f.run, f.step, ToolCall(call)) && |Transcript(db, f.run)| >= 2 * f.step + 1
    requires MutationTool(s, call.tool) ==> Committed(v.effects, call.request, output)
    ensures var b := RecordMessage(db, f.run, ResultMessage(f, call, output));
      b.Some? ==> StoriesStep(s, v, db, b.value) && |Transcript(b.value, f.run)| == 2 * f.step + 2
  {
    hide RecordMessage, MessageOk, Committed, MutationTool;
    var r := f.run;
    var a := StoryOf(db, r);
    var m := ResultMessage(f, call, output);
    assert Shape(s, v, r, a);
    RecordMessageCases(db, r, m);
    var b := RecordMessage(db, r, m);
    if b.Some? {
      if |a.messages| == 2 * f.step + 2 { ResultThere(s, v, r, a); }
      if exists j: nat :: j < |a.messages| && a.messages[j].key == m.key {
        var j: nat :| j < |a.messages| && a.messages[j].key == m.key;
        KeyPosition(s, v, r, a, j);
        assert b.value == db;
        OneStory(s, v, db, b.value, r);
      } else {
        assert |a.messages| == 2 * f.step + 1;
        OneStory(s, v, db, b.value, r);
      }
    }
  }

  lemma ResultThere(s: Settings, v: View, r: string, story: Story)
    requires Shape(s, v, r, story) && |story.messages| == 2 * story.step + 2
    ensures story.status == RUNNING ==> story.messages[2 * story.step + 1].key == Some(ToolResultKey(story.step))
    ensures Called(v, r, story.step)
    ensures story.status == BLOCKED_EFFECT ==>
              story.messages[2 * story.step + 1].key == Some(ReconciledResultKey(v.decisions[StepId(r, story.step)].call.request))
  {
    hide MutationTool, Committed;
    var j := 2 * story.step + 1;
    assert j / 2 == story.step && j % 2 == 1;
    assert MessageOk(s, v, r, story.messages, j);
  }

  /** The message of a recovered result, behind the barrier. */
  lemma SpeakRecovered(s: Settings, db: Database, v: View, r: string, call: Call, output: Json)
    requires Stories(s, db, v) && r in db.runs && db.runs[r].status == BLOCKED_EFFECT && Distinct(v.decisions)
    requires Chose(v, r, db.runs[r].stepCount, ToolCall(call)) && Committed(v.effects, call.request, output)
    ensures var b := RecordMessage(db, r, ReconciledMessage(call, output));
      b.Some? ==> StoriesStep(s, v, db, b.value) && |Transcript(b.value, r)| == 2 * db.runs[r].stepCount + 2
  {
    hide RecordMessage, MessageOk, Committed;
    var a := StoryOf(db, r);
    var m := ReconciledMessage(call, output);
    assert Shape(s, v, r, a);
    RecordMessageCases(db, r, m);
    var b := RecordMessage(db, r, m);
    if b.Some? {
      if |a.messages| == 2 * a.step + 2 { ResultThere(s, v, r, a); }
      if exists j: nat :: j < |a.messages| && a.messages[j].key == m.key {
        var j: nat :| j < |a.messages| && a.messages[j].key == m.key;
        KeyPosition(s, v, r, a, j);
        assert StepId(r, j / 2) == StepId(r, a.step);
        assert b.value == db;
        OneStory(s, v, db, b.value, r);
      } else {
        assert |a.messages| == 2 * a.step + 1;
        OneStory(s, v, db, b.value, r);
      }
    }
  }

  // ---- each statement -------------------------------------------------------------------

  /** What one step has to give. */
  ghost predicate TaleKept(s: Settings, db: Database, h: History, r: Result) {
    && StoriesStep(s, ViewOf(r.db, r.hist), db, r.db)
    && Identities(ViewOf(r.db, r.hist)) && PcTale(r.db, r.pc)
  }

  /** No run moves, no message is written, no decision is stored. */
  predicate StoriesSame(a: Database, b: Database) {
    && b.decisions == a.decisions && b.messages == a.messages
    && (forall r | r in a.runs :: r in b.runs && b.runs[r].status == a.runs[r].status && b.runs[r].stepCount == a.runs[r].stepCount)
    && (forall r | r in b.runs && r !in a.runs :: b.runs[r].status == RUNNING && b.runs[r].stepCount == 0)
  }

  lemma SameStories(s: Settings, v: View, v': View, a: Database, b: Database)
    requires Stories(s, a, v) && StoriesSame(a, b)
    ensures StoriesStep(s, v', a, b)
  {
    hide Speaks, Moves, Shape;
  }

  lemma EventStepTale(s: Settings, p: string, pc: PC, db: Database, h: History, i: Input)
    requires EventPhase(pc) && Stories(s, db, ViewOf(db, h)) && Identities(ViewOf(db, h))
    ensures TaleKept(s, db, h, EventStep(p, pc, db, h, i))
  {
    hide EventStep, Identities, Stories, StoriesStep;
    var r := EventStep(p, pc, db, h, i);
    EventStepFrame(p, pc, db, h, i);
    EventStepRuns(p, pc, db, h, i);
    SameStories(s, ViewOf(db, h), ViewOf(r.db, r.hist), db, r.db);
    IdentitiesSame(ViewOf(db, h), ViewOf(r.db, r.hist));
    EventStepCounter(p, pc, db, h, i, r.db);
  }

  lemma IdentitiesSame(v: View, v': View)
    requires Identities(v) && v'.decisions == v.decisions && v'.effects == v.effects
    ensures Identities(v')
  {
    hide Distinct, Owned;
  }

  lemma EventStepCounter(p: string, pc: PC, db: Database, h: History, i: Input, b: Database)
    requires EventPhase(pc)
    ensures PcTale(b, EventStep(p, pc, db, h, i).pc)
  {
    hide CreateRunWithInitialStep, Acknowledge, Requeue, Log, AddLease, Backoff;
  }

  /** The model's answer carries a request id that no stored decision has. */
  ghost predicate NewReply(db: Database, pc: PC, i: Input) {
    pc.Asking? && i.reply.Answer? ==> NewRequest(db.decisions, i.reply.decision)
  }

  lemma AddDecisionIdentities(v: View, id: StepId, d: Decision)
    requires Identities(v) && id !in v.decisions && NewRequest(v.decisions, d)
    ensures Identities(v.(decisions := v.decisions[id := d]))
  {
    hide Records;
    var v' := v.(decisions := v.decisions[id := d]);
    forall q | q in v'.effects
      ensures Asked(v'.decisions, q)
    {
      assert Asked(v.decisions, q);
      var x :| x in v.decisions && v.decisions[x].ToolCall? && v.decisions[x].call.request == q;
      assert x in v'.decisions && v'.decisions[x] == v.decisions[x];
    }
  }

  lemma DecisionStepTale(s: Settings, pc: PC, db: Database, h: History, i: Input)
    requires DecisionPhase(pc) && Stories(s, db, ViewOf(db, h)) && Identities(ViewOf(db, h)) && PcTale(db, pc)
    requires RunPromise(s, ViewOf(db, h), pc) && NewReply(db, pc, i)
    ensures TaleKept(s, db, h, DecisionStep(s, pc, db, h, i))
  {
    hide Identities, Stories, StoriesStep, RecordMessage, UpdateRun, NewRequest;
    var v := ViewOf(db, h);
    var r := DecisionStep(s, pc, db, h, i);
    if pc.FailingMaxSteps? {
      FailStory(s, db, h, pc.run, "max_steps exceeded");
    } else if pc.RecordingDecision? {
      AddDecisionIdentities(v, StepId(pc.frame.run, pc.frame.step), pc.decision);
      SameRunsTale(s, v, ViewOf(r.db, r.hist), db, r.db);
    } else if pc.RecordingCall? || pc.RecordingFinal? {
      DecisionMessageFrame(s, pc, db, h, i);
      IdentitiesSame(v, ViewOf(r.db, r.hist));
      SpeakDecision(s, db, v, pc.frame.run, pc.frame.step,
                    if pc.RecordingCall? then ToolCall(pc.call) else FinalText(pc.text));
      SameStories(s, v, v, db, db);
    } else {
      SameStories(s, v, v, db, db);
    }
  }

  lemma SameRunsTale(s: Settings, v: View, v': View, a: Database, b: Database)
    requires Stories(s, a, v) && b.runs == a.runs && b.messages == a.messages
    ensures StoriesStep(s, v', a, b)
  {
    hide Speaks, Moves, Shape;
  }

  lemma FailStory(s: Settings, db: Database, h: History, r: string, error: string)
    requires Stories(s, db, ViewOf(db, h)) && Identities(ViewOf(db, h))
    requires r in db.runs && db.runs[r].status == RUNNING
    ensures var b := FailRun(db, r, error); StoriesStep(s, ViewOf(b, h), db, b) && Identities(ViewOf(b, h))
  {
    hide Identities, Shape, Speaks, StoriesStep;
    var b := FailRun(db, r, error);
    IdentitiesSame(ViewOf(db, h), ViewOf(b, h));
    OneStory(s, ViewOf(b, h), db, b, r);
  }

  lemma NoteStory(s: Settings, db: Database, h: History, r: string, error: string)
    requires Stories(s, db, ViewOf(db, h)) && Identities(ViewOf(db, h))
    ensures var b := NoteError(db, r, error); StoriesStep(s, ViewOf(b, h), db, b) && Identities(ViewOf(b, h))
  {
    hide Identities, Stories, StoriesStep, StoriesSame;
    var b := NoteError(db, r, error);
    IdentitiesSame(ViewOf(db, h), ViewOf(b, h));
    assert StoriesSame(db, b) by { NoteSame(db, r, error); }
    SameStories(s, ViewOf(db, h), ViewOf(b, h), db, b);
  }

  lemma NoteSame(db: Database, r: string, error: string)
    ensures StoriesSame(db, NoteError(db, r, error))
  {
  }

  /** A run row replaced: its story makes that move, the others stand. */
  lemma MoveStory(s: Settings, db: Database, h: History, r: string, row: RunRow, b: Database, h': History)
    requires Stories(s, db, ViewOf(db, h)) && Identities(ViewOf(db, h)) && r in db.runs
    requires SameTranscripts(db, b) && SameLedger(db, b) && b.runs == db.runs[r := row]
    requires Moves(ViewOf(db, h), r, StoryOf(db, r), Story(row.status, row.stepCount, Transcript(db, r)))
    ensures StoriesStep(s, ViewOf(b, h'), db, b) && Identities(ViewOf(b, h'))
  {
    hide Identities, Shape, Speaks;
    IdentitiesSame(ViewOf(db, h), ViewOf(b, h'));
    OneStory(s, ViewOf(b, h'), db, b, r);
  }

  lemma ClosingStepCounter(pc: PC, db: Database, h: History, i: Input, b: Database)
    requires ClosingPhase(pc)
    ensures PcTale(b, ClosingStep(pc, db, h, i).pc)
  {
    hide AdvanceRunStep, ResumeRun, UpdateRun, BlockRun, Log;
  }

  lemma ClosingStepTale(s: Settings, pc: PC, db: Database, h: History, i: Input)
    requires ClosingPhase(pc) && Stories(s, db, ViewOf(db, h)) && Identities(ViewOf(db, h)) && PcTale(db, pc)
    requires PcSolo(s, ViewOf(db, h), pc)
    ensures TaleKept(s, db, h, ClosingStep(pc, db, h, i))
  {
    hide Identities, StoriesStep, Stories, PcTale, AdvanceRunStep, ResumeRun, UpdateRun, BlockRun, PcSolo;
    var v := ViewOf(db, h);
    var r := ClosingStep(pc, db, h, i);
    ClosingStepCounter(pc, db, h, i, r.db);
    SameStories(s, v, v, db, db);
    if pc.FailingTool? {
      CurrentFrame(s, v, pc);
      FailStory(s, db, h, pc.frame.run, i.text);
    } else if pc.NotingError? {
      NoteStory(s, db, h, pc.frame.run, i.text);
    } else if pc.BlockJournaling? {
      SameStories(s, v, ViewOf(r.db, r.hist), db, r.db);
      IdentitiesSame(v, ViewOf(r.db, r.hist));
    } else {
      MovingTale(s, pc, db, h, i);
    }
  }

  lemma CurrentFrame(s: Settings, v: View, pc: PC)
    requires PcSolo(s, v, pc) && OpenPhase(pc)
    ensures Current(s, v, pc.frame)
  {
  }

  lemma MovingTale(s: Settings, pc: PC, db: Database, h: History, i: Input)
    requires pc.Advancing? || pc.Completing? || pc.Blocking? || pc.Resuming?
    requires Stories(s, db, ViewOf(db, h)) && Identities(ViewOf(db, h)) && PcTale(db, pc)
    requires PcSolo(s, ViewOf(db, h), pc)
    ensures var r := ClosingStep(pc, db, h, i);
      StoriesStep(s, ViewOf(r.db, r.hist), db, r.db) && Identities(ViewOf(r.db, r.hist))
  {
    hide Identities, StoriesStep, Stories, AdvanceRunStep, ResumeRun, Invocations, NoEffects, StoredCall;
    var v := ViewOf(db, h);
    var r := ClosingStep(pc, db, h, i);
    SameStories(s, v, v, db, db);
    if r.db != db {
      if pc.Resuming? {
        ResumeFrame(db, pc.run, i.newEvent, 0, pc.now);
        MoveStory(s, db, h, pc.run, r.db.runs[pc.run], r.db, r.hist);
      } else {
        if pc.Advancing? {
          AdvanceFrame(db, pc.frame.run, pc.frame.step, i.newEvent, pc.frame.visit.priority, pc.frame.visit.now);
          AdvancingCall(s, v, pc.frame, StoryOf(db, pc.frame.run), db);
        }
        MoveStory(s, db, h, pc.frame.run, r.db.runs[pc.frame.run], r.db, r.hist);
      }
    }
  }

  lemma AdvancingCall(s: Settings, v: View, f: Frame, story: Story, db: Database)
    requires Stories(s, db, v) && f.run in db.runs && story == StoryOf(db, f.run) && |story.messages| == 2 * story.step + 2
    ensures Called(v, f.run, story.step)
  {
    ResultThere(s, v, f.run, story);
  }

  // ---- inside `execute` -----------------------------------------------------------------

  /** A ledger write for the decided call itself. */
  lemma OwnedWrite(v: View, call: Call, row: EffectRow)
    requires Identities(v) && Asked(v.decisions, call.request)
    requires StoredCall(call.request, row.request) == call
    requires forall id | id in v.decisions && v.decisions[id].ToolCall? && v.decisions[id].call.request == call.request ::
               v.decisions[id].call == call
    ensures Identities(v.(effects := v.effects[call.request := row]))
  {
    hide StoredCall, Asked;
  }

  lemma DecidedOnly(v: View, f: Frame, call: Call)
    requires Distinct(v.decisions) && Decided(v, f, ToolCall(call))
    ensures Asked(v.decisions, call.request)
    ensures forall id | id in v.decisions && v.decisions[id].ToolCall? && v.decisions[id].call.request == call.request ::
              v.decisions[id].call == call
  {
    assert v.decisions[StepId(f.run, f.step)] == ToolCall(call);
  }

  /** Updates that keep the recorded request. */
  lemma OwnedUpdate(v: View, q: string, row: EffectRow)
    requires Identities(v) && q in v.effects && row.request == v.effects[q].request
    ensures Identities(v.(effects := v.effects[q := row]))
  {
    hide StoredCall, Asked;
    var effects' := v.effects[q := row];
    forall id | id in v.decisions && v.decisions[id].ToolCall? && v.decisions[id].call.request in effects'
      ensures Records(effects', v.decisions[id].call)
    {
      assert Records(v.effects, v.decisions[id].call);
    }
  }

  lemma WriteStepTale(s: Settings, pc: PC, db: Database, h: History, i: Input)
    requires (pc.Admitting? || pc.Rearming? || pc.MarkingUnknown? || pc.Committing?)
    requires Stories(s, db, ViewOf(db, h)) && Identities(ViewOf(db, h)) && PcTale(db, pc)
    requires PcSolo(s, ViewOf(db, h), pc)
    ensures TaleKept(s, db, h, ToolStep(s, pc, db, h, i))
  {
    hide StoriesStep, Stories, StoredCall, RequestPayload, Distinct, Owned, Current, Invocations, NoEffects;
    var v := ViewOf(db, h);
    var r := ToolStep(s, pc, db, h, i);
    var q := pc.call.request;
    SameRunsTale(s, v, ViewOf(r.db, r.hist), db, r.db);
    if pc.Admitting? {
      if pc.caller.FromStep? {
        PayloadInverse(pc.call);
        DecidedOnly(v, pc.caller.frame, pc.call);
        OwnedWrite(v, pc.call, r.db.effects[q]);
        assert ViewOf(r.db, r.hist) == v.(effects := v.effects[q := r.db.effects[q]]);
      }
    } else {
      OwnedUpdate(v, q, r.db.effects[q]);
      IdentitiesSame(v.(effects := v.effects[q := r.db.effects[q]]), ViewOf(r.db, r.hist));
    }
  }

  /** A result recorded by its own step settles a mutation. */
  lemma ResultSettles(s: Settings, v: View, r: string, story: Story, call: Call)
    requires Shape(s, v, r, story) && story.status == RUNNING && |story.messages| == 2 * story.step + 2
    requires Chose(v, r, story.step, ToolCall(call))
    ensures MutationTool(s, call.tool) ==> InState(v, call.request, COMMITTED)
  {
    var j := 2 * story.step + 1;
    assert j / 2 == story.step && j % 2 == 1;
    assert MessageOk(s, v, r, story.messages, j);
  }

  lemma OnlyMutations(s: Settings, db: Database, v: View, id: StepId)
    requires LedgerOk(s, db) && v.effects == db.effects && Owned(v.decisions, v.effects)
    requires id in v.decisions && v.decisions[id].ToolCall? && v.decisions[id].call.request in db.effects
    ensures MutationTool(s, v.decisions[id].call.tool)
  {
    hide StoredCall;
    var call := v.decisions[id].call;
    assert LedgerRowOk(s, call.request, db.effects[call.request]);
    assert Records(db.effects, call);
  }

  /** A step whose result is already in the transcript is not blocked by its own request. */
  lemma RaisedTale(s: Settings, f: Frame, call: Call, db: Database, h: History)
    requires Stories(s, db, ViewOf(db, h)) && Identities(ViewOf(db, h)) && LedgerOk(s, db)
    requires Current(s, ViewOf(db, h), f) && Decided(ViewOf(db, h), f, ToolCall(call))
    requires |Transcript(db, f.run)| >= 2 * f.step + 1
    requires call.request in db.effects && Unresolved(db.effects[call.request].state)
    ensures |Transcript(db, f.run)| == 2 * f.step + 1
  {
    hide LedgerOk, Distinct, Owned, MutationTool;
    var v := ViewOf(db, h);
    var story := StoryOf(db, f.run);
    assert Shape(s, v, f.run, story);
    OnlyMutations(s, db, v, StepId(f.run, f.step));
    if |story.messages| == 2 * f.step + 2 {
      ResultSettles(s, v, f.run, story, call);
    }
  }

  lemma ReadStepTale(s: Settings, pc: PC, db: Database, h: History, i: Input)
    requires pc.Executing? || pc.Recovering? || pc.Raised? || pc.Invoking?
    requires Stories(s, db, ViewOf(db, h)) && Identities(ViewOf(db, h)) && PcTale(db, pc) && LedgerOk(s, db)
    requires PcSolo(s, ViewOf(db, h), pc)
    ensures TaleKept(s, db, h, ToolStep(s, pc, db, h, i))
  {
    hide StoriesStep, Stories, StoredCall, Identities, LedgerOk, Current, Invocations, NoEffects, Admissible, Decided;
    var v := ViewOf(db, h);
    var r := ToolStep(s, pc, db, h, i);
    SameRunsTale(s, v, ViewOf(r.db, r.hist), db, r.db);
    IdentitiesSame(v, ViewOf(r.db, r.hist));
    if pc.Raised? && r.pc.Blocking? {
      RaisedTale(s, pc.caller.frame, pc.call, db, h);
    }
  }

  lemma ReturnStepTale(s: Settings, pc: PC, db: Database, h: History, i: Input)
    requires pc.Returned?
    requires Stories(s, db, ViewOf(db, h)) && Identities(ViewOf(db, h)) && PcTale(db, pc)
    requires PcSolo(s, ViewOf(db, h), pc) && Barrier(ViewOf(db, h))
    ensures TaleKept(s, db, h, ToolStep(s, pc, db, h, i))
  {
    hide StoriesStep, Stories, Distinct, Owned, RecordMessage, Committed, Invocations, NoEffects, StoredCall;
    var v := ViewOf(db, h);
    var r := ToolStep(s, pc, db, h, i);
    ToolMessageFrame(s, pc, db, h, i);
    IdentitiesSame(v, ViewOf(r.db, r.hist));
    SameRunsTale(s, v, v, db, db);
    if pc.caller.FromStep? {
      SpeakResult(s, db, v, pc.caller.frame, pc.call, pc.output);
    } else {
      assert Barred(v, pc.caller.run);
      BlockedCall(v, pc.caller.run, pc.call);
      SpeakRecovered(s, db, v, pc.caller.run, pc.call, pc.output);
    }
  }

  /** The call a blocked run waits for is the one it decided. */
  lemma BlockedCall(v: View, r: string, call: Call)
    requires Owned(v.decisions, v.effects) && BlockedOn(v, r, call.request) && Barred(v, r) && Records(v.effects, call)
    ensures Chose(v, r, v.runs[r].stepCount, ToolCall(call))
  {
    hide StoredCall;
    assert Records(v.effects, v.decisions[StepId(r, v.runs[r].stepCount)].call);
  }

  lemma ToolStepTale(s: Settings, pc: PC, db: Database, h: History, i: Input)
    requires ToolPhase(pc) && LedgerOk(s, db)
    requires Stories(s, db, ViewOf(db, h)) && Identities(ViewOf(db, h)) && PcTale(db, pc)
    requires PcSolo(s, ViewOf(db, h), pc) && Barrier(ViewOf(db, h))
    ensures TaleKept(s, db, h, ToolStep(s, pc, db, h, i))
  {
    hide Stories, Identities, PcTale, TaleKept, PcSolo, LedgerOk, Barrier, ToolStep;
    if pc.Returned? {
      ReturnStepTale(s, pc, db, h, i);
    } else if pc.Admitting? || pc.Rearming? || pc.MarkingUnknown? || pc.Committing? {
      WriteStepTale(s, pc, db, h, i);
    } else {
      ReadStepTale(s, pc, db, h, i);
    }
  }

  lemma TickStepTale(s: Settings, pc: PC, db: Database, h: History, i: Input)
    requires TickPhase(pc) && Stories(s, db, ViewOf(db, h)) && Identities(ViewOf(db, h))
    ensures TaleKept(s, db, h, TickStep(pc, db, h, i))
  {
    hide Identities, Stories, StoriesStep, Enqueue, Occurrences, SetNextAt, DisableSchedule;
    var r := TickStep(pc, db, h, i);
    TickStepFrame(pc, db, h, i);
    SameStories(s, ViewOf(db, h), ViewOf(r.db, r.hist), db, r.db);
    IdentitiesSame(ViewOf(db, h), ViewOf(r.db, r.hist));
  }

  lemma NextTale(s: Settings, p: string, pc: PC, db: Database, h: History, i: Input)
    requires LedgerOk(s, db) && NewReply(db, pc, i)
    requires Stories(s, db, ViewOf(db, h)) && Identities(ViewOf(db, h)) && PcTale(db, pc)
    requires PcSolo(s, ViewOf(db, h), pc) && Barrier(ViewOf(db, h))
    ensures TaleKept(s, db, h, Next(s, p, pc, db, h, i))
  {
    hide LedgerOk, NewReply, Stories, Identities, PcTale, TaleKept, PcSolo, Barrier;
    hide EventStep, DecisionStep, ClosingStep, ToolStep, TickStep;
    if EventPhase(pc) {
      EventStepTale(s, p, pc, db, h, i);
    } else if DecisionPhase(pc) {
      assert RunPromise(s, ViewOf(db, h), pc) by { hide *; SoloParts(s, ViewOf(db, h), pc); }
      DecisionStepTale(s, pc, db, h, i);
    } else if ClosingPhase(pc) {
      ClosingStepTale(s, pc, db, h, i);
    } else if ToolPhase(pc) {
      ToolStepTale(s, pc, db, h, i);
    } else if TickPhase(pc) {
      TickStepTale(s, pc, db, h, i);
    } else {
      IdleTale(s, db, h);
    }
  }

  lemma SoloParts(s: Settings, v: View, pc: PC)
    requires PcSolo(s, v, pc)
    ensures RunPromise(s, v, pc)
  {
  }

  lemma IdleTale(s: Settings, db: Database, h: History)
    requires Stories(s, db, ViewOf(db, h)) && Identities(ViewOf(db, h))
    ensures TaleKept(s, db, h, Result(Idle, db, h))
  {
    hide Identities, Stories, StoriesStep;
    SameStories(s, ViewOf(db, h), ViewOf(db, h), db, db);
  }
  // ---- the whole system -----------------------------------------------------------------

  /** Environment (S) in which the model never reuses a request id of a stored decision. */
  ghost predicate NewAnswers(c: Config, a: Action, i: Input) {
    a.Work? ==> NewReply(c.db, Pc(c, a.p), i)
  }

  ghost predicate DistinctStep(s: Settings, c: Config, c': Config) {
    hide Enabled, Apply;
    exists a, i :: Enabled(c, a, i) && SoloHost(c, a) && NewAnswers(c, a, i) && c' == Apply(s, c, a, i) && Solo(c')
  }

  ghost predicate DistinctExecution(s: Settings, trace: seq<Config>) {
    hide DistinctStep;
    && trace != [] && trace[0] == INITIAL_CONFIG
    && forall n | 0 <= n < |trace| - 1 :: DistinctStep(s, trace[n], trace[n + 1])
  }

  ghost predicate TaleInv(s: Settings, c: Config) {
    && Stories(s, c.db, ViewOf(c.db, c.hist)) && Identities(ViewOf(c.db, c.hist))
    && forall p | p in c.procs :: PcTale(c.db, c.procs[p])
  }

  ghost predicate StepTold(s: Settings, c: Config, c': Config) {
    && StoriesStep(s, ViewOf(c'.db, c'.hist), c.db, c'.db) && Identities(ViewOf(c'.db, c'.hist))
    && forall p | p in c'.procs :: PcTale(c'.db, c'.procs[p])
  }

  lemma PassiveTale(db: Database, pc: PC)
    requires Passive(pc) || pc.Ticking?
    ensures PcTale(db, pc)
  {
  }

  /** Actions that move no story and touch no decision and no ledger row. */
  lemma CounterTale(s: Settings, c: Config, c': Config, p: string)
    requires TaleInv(s, c) && StoriesSame(c.db, c'.db) && c'.db.effects == c.db.effects
    requires forall r | r in c.db.runs :: r in c'.db.runs
    requires forall q | q in c'.procs && q != p :: q in c.procs && c'.procs[q] == c.procs[q]
    requires p in c'.procs ==> PcTale(c'.db, c'.procs[p])
    ensures StepTold(s, c, c')
  {
    hide Stories, Identities, StoriesStep, PcTale, StoriesSame;
    SameStories(s, ViewOf(c.db, c.hist), ViewOf(c'.db, c'.hist), c.db, c'.db);
    assert c'.db.decisions == c.db.decisions by { SameDecisions(c.db, c'.db); }
    IdentitiesSame(ViewOf(c.db, c.hist), ViewOf(c'.db, c'.hist));
    forall q | q in c'.procs
      ensures PcTale(c'.db, c'.procs[q])
    {
      if q != p { PcTaleSame(c.db, c'.db, c.procs[q]); }
    }
  }

  lemma SameDecisions(a: Database, b: Database)
    requires StoriesSame(a, b)
    ensures b.decisions == a.decisions
  {
  }

  lemma PcTaleSame(a: Database, b: Database, pc: PC)
    requires PcTale(a, pc) && StoriesSame(a, b)
    ensures PcTale(b, pc)
  {
    hide NewRequest;
  }

  lemma WorkTale(s: Settings, c: Config, p: string, i: Input)
    requires TaleInv(s, c) && SoloInv(s, c) && AdmissionInv(s, c) && Enabled(c, Work(p), i)
    requires NewAnswers(c, Work(p), i) && Solo(Apply(s, c, Work(p), i))
    ensures StepTold(s, c, Apply(s, c, Work(p), i))
  {
    hide Stories, Identities, PcTale, StoriesStep, Fence, Budget, Barrier, PcSolo, Completions, LedgerOk, InvocationsOk;
    hide PcAdmitted, NewReply, Next, StoriesSame;
    WorkKnown(c, p, i);
    var pc := c.procs[p];
    var c' := Apply(s, c, Work(p), i);
    NextTale(s, p, pc, c.db, c.hist, i);
    forall q | q in c'.procs
      ensures PcTale(c'.db, c'.procs[q])
    {
      if q != p && Passive(c.procs[q]) {
        PassiveTale(c'.db, c.procs[q]);
      } else if q != p {
        PassiveStories(s, p, pc, c.db, c.hist, i);
        PcTaleSame(c.db, c'.db, c.procs[q]);
      }
    }
  }

  lemma PassiveStories(s: Settings, p: string, pc: PC, db: Database, h: History, i: Input)
    requires Passive(pc)
    ensures StoriesSame(db, Next(s, p, pc, db, h, i).db)
  {
    hide DecisionStep, ClosingStep, ToolStep, TickStep, CreateRunWithInitialStep, Acknowledge, Requeue, Backoff;
  }

  lemma ReconcileTale(s: Settings, c: Config, a: Action, i: Input)
    requires a.HostReconcile? && TaleInv(s, c)
    ensures StepTold(s, c, Apply(s, c, a, i))
  {
    hide Stories, Identities, StoriesStep, PcTale, IsHexDigest, LowerHex, StoriesSame;
    var c' := Apply(s, c, a, i);
    var v := ViewOf(c.db, c.hist);
    SameRunsTale(s, v, ViewOf(c'.db, c'.hist), c.db, c'.db);
    if c'.db.effects != c.db.effects {
      OwnedUpdate(v, a.request, c'.db.effects[a.request]);
      IdentitiesSame(v.(effects := v.effects[a.request := c'.db.effects[a.request]]), ViewOf(c'.db, c'.hist));
    } else {
      IdentitiesSame(v, ViewOf(c'.db, c'.hist));
    }
    forall q | q in c'.procs
      ensures PcTale(c'.db, c'.procs[q])
    {
      ReconcilePc(c.db, c'.db, c.procs[q]);
    }
  }

  lemma ReconcilePc(a: Database, b: Database, pc: PC)
    requires PcTale(a, pc) && b.runs == a.runs && b.messages == a.messages && b.decisions == a.decisions
    ensures PcTale(b, pc)
  {
    hide NewRequest;
  }

  lemma UnwindTale(db: Database, pc: PC)
    requires PcTale(db, pc)
    ensures PcTale(db, Unwind(pc))
  {
    hide NewRequest, Transcript;
  }

  lemma DispatchTale(db: Database, v: Visit, work: Work)
    ensures PcTale(db, Dispatch(v, work))
  {
    hide AdmitTask;
  }

  lemma ClaimTale(s: Settings, c: Config, p: string, i: Input)
    requires TaleInv(s, c)
    ensures StepTold(s, c, ApplyClaim(s, c, p, i))
  {
    hide TaleInv, StepTold, PcTale, Dispatch;
    var c' := ApplyClaim(s, c, p, i);
    if c' == c {
      StandTale(s, c);
    } else {
      var row := c.db.events[i.choice.value];
      DispatchTale(c'.db, Visit(i.choice.value, row.priority, row.attempts + 1, i.now), row.work);
      CounterTale(s, c, c', p);
    }
  }

  lemma StandTale(s: Settings, c: Config)
    requires TaleInv(s, c)
    ensures StepTold(s, c, c)
  {
    hide Stories, Identities, PcTale, StoriesStep;
    SameStories(s, ViewOf(c.db, c.hist), ViewOf(c.db, c.hist), c.db, c.db);
  }

  lemma HostTale(s: Settings, c: Config, a: Action, i: Input)
    requires a.HostSubmit? || a.AddInterval? || a.HostEnqueue?
    requires TaleInv(s, c)
    ensures StepTold(s, c, Apply(s, c, a, i))
  {
    hide TaleInv, StepTold, PcTale, CreateRunWithInitialStep, Enqueue, Next;
    var c' := Apply(s, c, a, i);
    if a.HostEnqueue? && c' != c {
      var at := if a.availableAt.Some? then a.availableAt.value else i.now;
      EnqueueFrame(c.db, i.newEvent, a.work, a.priority, a.dedup, i.now, at);
      PassiveTale(c'.db, c'.procs[a.p]);
      CounterTale(s, c, c', a.p);
    } else if c' == c {
      StandTale(s, c);
    } else {
      if a.HostSubmit? {
        CreateFrame(c.db, i.newRun, i.newEvent, a.task, a.capabilities, a.source, 0, i.now);
      }
      assert StoriesSame(c.db, c'.db);
      HostCounters(s, c, c');
    }
  }

  lemma HostCounters(s: Settings, c: Config, c': Config)
    requires TaleInv(s, c) && StoriesSame(c.db, c'.db) && c'.db.effects == c.db.effects && c'.procs == c.procs
    ensures StepTold(s, c, c')
  {
    hide Stories, Identities, PcTale, StoriesSame, StepTold;
    assert forall r | r in c.db.runs :: r in c'.db.runs by { KnownRuns(c.db, c'.db); }
    if "" in c'.procs { PcTaleSame(c.db, c'.db, c.procs[""]); }
    CounterTale(s, c, c', "");
  }

  lemma KnownRuns(a: Database, b: Database)
    requires StoriesSame(a, b)
    ensures forall r | r in a.runs :: r in b.runs
  {
  }

  lemma ApplyTale(s: Settings, c: Config, a: Action, i: Input)
    requires TaleInv(s, c) && SoloInv(s, c) && AdmissionInv(s, c)
    requires Enabled(c, a, i) && NewAnswers(c, a, i) && Solo(Apply(s, c, a, i))
    ensures StepTold(s, c, Apply(s, c, a, i))
  {
    hide TaleInv, SoloInv, AdmissionInv, StepTold, PcTale, Solo, Next, Unwind, ApplyClaim, NewAnswers, StartResume, DueListing;
    var c' := Apply(s, c, a, i);
    if a.Work? {
      WorkTale(s, c, a.p, i);
    } else if a.ClaimNext? {
      ClaimTale(s, c, a.p, i);
    } else if a.HostReconcile? {
      ReconcileTale(s, c, a, i);
    } else if a.Tick? || a.Crash? {
      PassiveTale(c'.db, c'.procs[a.p]);
      CounterTale(s, c, c', a.p);
    } else if a.Resume? {
      ResumeTale(c, a.p, a.run, i.now);
      CounterTale(s, c, c', a.p);
    } else if a.Throw? {
      assert PcTale(c.db, Pc(c, a.p)) by { CounterHeld(s, c, a.p); }
      UnwindTale(c.db, Pc(c, a.p));
      CounterTale(s, c, c', a.p);
    } else {
      HostTale(s, c, a, i);
    }
  }

  lemma CounterHeld(s: Settings, c: Config, p: string)
    requires TaleInv(s, c)
    ensures PcTale(c.db, Pc(c, p))
  {
    hide Stories, Identities;
  }

  lemma ResumeTale(c: Config, p: string, run: string, now: int)
    ensures PcTale(c.db, StartResume(c, p, run, now))
  {
  }

  /** Committed results and decisions stay, step by step. */
  lemma StepLearns(s: Settings, c: Config, a: Action, i: Input)
    requires SoloInv(s, c) && Enabled(c, a, i)
    ensures Learns(ViewOf(c.db, c.hist), ViewOf(Apply(s, c, a, i).db, Apply(s, c, a, i).hist))
  {
    hide SoloInv, Enabled, Apply;
    var c' := Apply(s, c, a, i);
    ApplyGrows(s, c, a, i);
    forall q | q in c.db.effects && c.db.effects[q].state == COMMITTED
      ensures q in c'.db.effects && c'.db.effects[q] == c.db.effects[q]
    {
      ApplyMoves(s, c, a, i, q);
    }
    assert SubMap(c.db.decisions, c'.db.decisions);
  }

  lemma TaleStep(s: Settings, c: Config, c': Config)
    requires TaleInv(s, c) && SoloInv(s, c) && AdmissionInv(s, c) && DistinctStep(s, c, c')
    ensures TaleInv(s, c') && StoriesStep(s, ViewOf(c'.db, c'.hist), c.db, c'.db)
  {
    hide SoloInv, AdmissionInv, Enabled, Apply, SoloHost, Solo, NewAnswers, Stories, Identities, PcTale, StoriesStep, Learns;
    var a, i :| Enabled(c, a, i) && SoloHost(c, a) && NewAnswers(c, a, i) && c' == Apply(s, c, a, i) && Solo(c');
    ApplyTale(s, c, a, i);
    StepLearns(s, c, a, i);
    StoriesKeep(s, c.db, ViewOf(c.db, c.hist), c'.db, ViewOf(c'.db, c'.hist));
  }

  lemma DistinctIsSolo(s: Settings, trace: seq<Config>)
    requires DistinctExecution(s, trace)
    ensures SoloExecution(s, trace)
  {
    hide Enabled, Apply, SoloHost, Solo, NewAnswers;
    forall n | 0 <= n < |trace| - 1
      ensures SoloStep(s, trace[n], trace[n + 1])
    {
      assert DistinctStep(s, trace[n], trace[n + 1]);
      var a, i :| Enabled(trace[n], a, i) && SoloHost(trace[n], a) && NewAnswers(trace[n], a, i)
                  && trace[n + 1] == Apply(s, trace[n], a, i) && Solo(trace[n + 1]);
    }
  }

  lemma TaleInitial(s: Settings)
    ensures TaleInv(s, INITIAL_CONFIG)
  {
  }

  lemma {:induction false} TaleExecution(s: Settings, trace: seq<Config>, n: nat)
    requires DistinctExecution(s, trace) && n < |trace|
    ensures TaleInv(s, trace[n])
  {
    hide DistinctStep, TaleInv, SoloInv, AdmissionInv, SoloExecution;
    if n == 0 {
      assert TaleInv(s, INITIAL_CONFIG) by { TaleInitial(s); }
    } else {
      TaleExecution(s, trace, n - 1);
      DistinctIsSolo(s, trace);
      SoloReachable(s, trace, n - 1);
      assert DistinctStep(s, trace[n - 1], trace[n]);
      TaleStep(s, trace[n - 1], trace[n]);
    }
  }

  // ---- what it says ---------------------------------------------------------------------

  /** Crash and retry refine the crash-free machine: every step of every execution, a crash and a
      redelivery included, is for each run a step of the crash-free machine or leaves its story as it is;
      a new run begins with the opening story. */
  lemma CrashFreeRefinement(s: Settings, trace: seq<Config>, n: nat, r: string)
    requires DistinctExecution(s, trace) && n + 1 < |trace| && r in trace[n + 1].db.runs
    ensures var db, db' := trace[n].db, trace[n + 1].db;
      if r in db.runs then StoryStep(s, ViewOf(db', trace[n + 1].hist), r, StoryOf(db, r), StoryOf(db', r))
      else StoryOf(db', r) == OPENING
  {
    hide DistinctStep, TaleInv, SoloInv, AdmissionInv, SoloExecution, StoryStep;
    TaleExecution(s, trace, n);
    DistinctIsSolo(s, trace);
    SoloReachable(s, trace, n);
    assert DistinctStep(s, trace[n], trace[n + 1]);
    TaleStep(s, trace[n], trace[n + 1]);
  }

  /** The transcript of a run at generation s: message 2k is the stored decision of step k and message
      2k+1 its one result, committed if the tool is a mutation; every step already advanced past has
      both, and what follows is a prefix of the current step's pair or the one final message. */
  lemma TranscriptShape(s: Settings, trace: seq<Config>, n: nat, r: string, j: nat)
    requires DistinctExecution(s, trace) && n < |trace| && r in trace[n].db.runs
    ensures LengthOk(StoryOf(trace[n].db, r))
    ensures var messages := Transcript(trace[n].db, r);
      j < |messages| ==> MessageOk(s, ViewOf(trace[n].db, trace[n].hist), r, messages, j)
  {
    hide DistinctExecution, MessageOk, Identities, PcTale;
    TaleExecution(s, trace, n);
    assert Shape(s, ViewOf(trace[n].db, trace[n].hist), r, StoryOf(trace[n].db, r));
  }

  /** Hence no key occurs twice in a transcript. */
  lemma KeysOnce(s: Settings, trace: seq<Config>, n: nat, r: string, i: nat, j: nat)
    requires DistinctExecution(s, trace) && n < |trace| && r in trace[n].db.runs
    requires i < j < |Transcript(trace[n].db, r)|
    ensures var messages := Transcript(trace[n].db, r); messages[i].key.Some? && messages[i].key != messages[j].key
  {
    hide DistinctExecution, PcTale, Owned, Committed, MutationTool;
    TaleExecution(s, trace, n);
    var v := ViewOf(trace[n].db, trace[n].hist);
    var story := StoryOf(trace[n].db, r);
    assert Shape(s, v, r, story);
    KeyedMessage(s, v, r, story, i);
    KeyedMessage(s, v, r, story, j);
    if story.messages[i].key == story.messages[j].key {
      KeyPosition(s, v, r, story, i);
      KeyPosition(s, v, r, story, j);
    }
  }

  lemma KeyedMessage(s: Settings, v: View, r: string, story: Story, j: nat)
    requires Shape(s, v, r, story) && j < |story.messages|
    ensures story.messages[j].key.Some?
  {
    hide Committed;
    assert MessageOk(s, v, r, story.messages, j);
  }
  /** A configuration that environment (S) with distinct request ids reaches. */
  ghost predicate DistinctTo(s: Settings, c: Config) {
    hide DistinctExecution;
    exists trace :: EndsIn(s, trace, c)
  }

  ghost predicate EndsIn(s: Settings, trace: seq<Config>, c: Config) {
    hide DistinctStep;
    DistinctExecution(s, trace) && trace[|trace| - 1] == c
  }
}
