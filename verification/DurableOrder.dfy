/** The order in which a run's durable writes become visible: exactly which steps let a durable
    sequence pass a delivery whose response is not recorded. */
module DurableOrder {
  import opened ControlProtocol
  import opened HostControl
  import opened Json
  import opened Numbers
  import opened Results
  import opened Store

  /** Whoever reads a durable sequence beyond a delivery finds that delivery's response recorded. */
  ghost predicate Ordered(w: World, r: RunId) {
    r in w.runs && r in w.durable.controls ==>
      forall i :: 0 <= i < |w.runs[r].deliveries| && w.durable.controls[r].sequence > w.runs[r].deliveries[i].sequence ==>
        Answered(w.durable.requests, r, w.runs[r].deliveries[i])
  }

  /** The request of the last delivery is still an intent. */
  predicate LastIsOpen(d: Durable, run: Run) {
    run.deliveries != [] &&
    var entry := Lookup(d, run.deliveries[|run.deliveries| - 1].receipt.requestId);
    entry.Some? && entry.value.Intent?
  }

  /** The next frame is admitted for a new escalation, after memory has moved past the delivery, and
      its write of the control takes effect, whatever it reports. */
  predicate AdmitsPast(run: Run, fault: Fault, sequence: nat) {
    && run.host.Some? && run.queue != [] && !fault.NotWritten?
    && var h, e := run.host.value, run.queue[0].disposition.escalationId;
    && e !in h.consumed && h.pending.None? && PausedAt(h, e) && h.run.sequence > sequence
  }

  /** The two ways to break the order, each a condition on the state before the step. */
  predicate BreaksOrder(w: World, s: Step, r: RunId) {
    && r in w.runs && r in w.durable.controls && LastIsOpen(w.durable, w.runs[r])
    && var run := w.runs[r];
       var last := run.deliveries[|run.deliveries| - 1];
       || (s.Serve? && s.runId == r && AdmitsPast(run, s.fault, last.sequence))
       || (s.ReconcileLoss? && s.runId == r && SaturatingAdd(w.durable.controls[r].sequence, 1) > last.sequence)
  }

  /** Every delivery but the last is answered, so the order is about the last one only. */
  lemma OrderIsAboutTheLast(w: World, r: RunId)
    requires Inv(w) && r in w.runs
    ensures r in w.durable.controls
    ensures var run := w.runs[r];
            Ordered(w, r) <==>
              !(LastIsOpen(w.durable, run) && w.durable.controls[r].sequence > run.deliveries[|run.deliveries| - 1].sequence)
  {
    hide QueueOk, HostOk, ClientOk, LocksOk, AnswersOk;
    assert RunOk(w.durable, w.clients, r, w.runs[r]);
  }

  lemma SameLast(d: Durable, d': Durable, run: Run, run': Run)
    requires d'.requests == d.requests && run'.deliveries == run.deliveries
    ensures LastIsOpen(d', run') == LastIsOpen(d, run) && (LastIsOpen(d, run) ==> run.deliveries != [])
  {
  }

  predicate TouchesRun(s: Step, r: RunId) {
    || (s.Bootstrap? && s.runId == r)
    || (s.Serve? && s.runId == r)
    || (s.Checkpoint? && s.runId == r)
    || (s.PublishControl? && s.runId == r)
    || (s.DeliverResume? && s.runId == r)
    || (s.ReconcileLoss? && s.runId == r)
  }

  lemma OtherStepsKeepDeliveries(w: World, s: Step, r: RunId)
    requires Enabled(w, s) && r in w.runs && !(s.Checkpoint? && s.runId == r) && !(s.DeliverResume? && s.runId == r)
    ensures r in Next(w, s).runs && Next(w, s).runs[r].deliveries == w.runs[r].deliveries
  {
    hide PausedAt, Paused, ExitCode, Terminal, EscalationOf, AfterDelivery, Admit, Respond;
  }

  lemma HostAndSnapshot(w: World, r: RunId)
    requires Inv(w) && Live(w, r)
    ensures w.runs[r].host.value.run.runId == r
    ensures w.runs[r].stage.Writing? ==> w.runs[r].stage.snapshot.runId == r
    ensures w.runs[r].stage.Writing? ==> !LastIsOpen(w.durable, w.runs[r])
  {
    hide QueueOk, DeliveriesOk, ClientOk, ConsumedOk, PendingOk, FreshOk, OrderOk, LocksOk, AnswersOk;
    assert RunOk(w.durable, w.clients, r, w.runs[r]);
  }

  lemma WrittenElsewhere(w: World, s: Step, r: RunId)
    requires (s.Bootstrap? || s.PublishControl? || s.ReconcileLoss?) && Enabled(w, s) && s.runId != r && r in w.durable.controls
    requires s.PublishControl? ==> w.runs[s.runId].stage.snapshot.runId == s.runId
    ensures r in Next(w, s).durable.controls && Next(w, s).durable.controls[r] == w.durable.controls[r]
  {
    hide Paused, EscalationOf, Terminal;
  }

  lemma ServedElsewhere(w: World, s: Step, r: RunId)
    requires Inv(w) && s.Serve? && Enabled(w, s) && s.runId != r && r in w.durable.controls
    ensures r in Next(w, s).durable.controls && Next(w, s).durable.controls[r] == w.durable.controls[r]
  {
    assert Live(w, s.runId);
    HostAndSnapshot(w, s.runId);
    hide Next, Inv;
    ServedControl(w, s, r);
  }

  lemma PublishedElsewhere(w: World, s: Step, r: RunId)
    requires Inv(w) && s.PublishControl? && Enabled(w, s) && s.runId != r && r in w.durable.controls
    ensures r in Next(w, s).durable.controls && Next(w, s).durable.controls[r] == w.durable.controls[r]
  {
    assert Live(w, s.runId) && w.runs[s.runId].stage.Writing?;
    HostAndSnapshot(w, s.runId);
    hide Next, Inv;
    WrittenElsewhere(w, s, r);
  }

  lemma OtherStepsKeepControl(w: World, s: Step, r: RunId)
    requires Inv(w) && Enabled(w, s) && r in w.runs && !TouchesRun(s, r)
    ensures r in w.durable.controls && r in Next(w, s).durable.controls
    ensures Next(w, s).durable.controls[r] == w.durable.controls[r]
  {
    assert s.Bootstrap? ==> s.runId != r;
    hide Next, Enabled, Inv, LastIsOpen, Ordered;
    OrderIsAboutTheLast(w, r);
    if s.Serve? {
      ServedElsewhere(w, s, r);
    } else if s.PublishControl? {
      PublishedElsewhere(w, s, r);
    } else if s.Bootstrap? || s.ReconcileLoss? {
      WrittenElsewhere(w, s, r);
    } else {
      OnlyTheseWriteControls(w, s);
    }
  }

  /** A recorded response stays recorded. */
  lemma AnsweredStays(w: World, s: Step, r: RunId, d: Delivery)
    requires Inv(w) && Enabled(w, s) && Answered(w.durable.requests, r, d) && !d.receipt.digest.JobDigest?
    ensures Answered(Next(w, s).durable.requests, r, d)
  {
    StepAdvances(w, s, d.receipt.requestId);
    hide Next, Inv, Enabled;
  }

  lemma AnsweredAllStay(w: World, s: Step, r: RunId)
    requires Inv(w) && Enabled(w, s) && r in w.runs
    ensures forall i :: 0 <= i < |w.runs[r].deliveries| && Answered(w.durable.requests, r, w.runs[r].deliveries[i]) ==>
              Answered(Next(w, s).durable.requests, r, w.runs[r].deliveries[i])
  {
    hide Next, Enabled, QueueOk, HostOk, OrderOk, ClientOk, Answered;
    var deliveries := w.runs[r].deliveries;
    assert RunOk(w.durable, w.clients, r, w.runs[r]);
    forall i | 0 <= i < |deliveries| && Answered(w.durable.requests, r, deliveries[i])
      ensures Answered(Next(w, s).durable.requests, r, deliveries[i])
    {
      assert ReceiptOk(w.durable.requests, r, deliveries[i].escalationId, deliveries[i].receipt);
      AnsweredStays(w, s, r, deliveries[i]);
    }
  }

  /** A step that changes neither the run's deliveries nor its control keeps the order. */
  lemma SameControlKeepsOrder(w: World, s: Step, r: RunId)
    requires Inv(w) && Enabled(w, s) && r in w.runs && Ordered(w, r)
    requires r in Next(w, s).runs && Next(w, s).runs[r].deliveries == w.runs[r].deliveries
    requires r in w.durable.controls && r in Next(w, s).durable.controls
    requires Next(w, s).durable.controls[r] == w.durable.controls[r]
    ensures Ordered(Next(w, s), r)
  {
    AnsweredAllStay(w, s, r);
    hide Inv, Next, Enabled, Answered;
  }

  lemma DeliveryIsNotPassed(w: World, s: Step)
    requires Inv(w) && s.DeliverResume? && Enabled(w, s)
    ensures Ordered(Next(w, s), s.runId)
  {
    var r := s.runId;
    NextKeepsInv(w, s);
    OrderIsAboutTheLast(Next(w, s), r);
    assert OrderOk(w.durable, r, w.runs[r]) by { assert RunOk(w.durable, w.clients, r, w.runs[r]); }
    hide Inv, Ordered, Answered, CanDeliver;
  }

  /** A checkpoint only fixes the first result after the last delivery. */
  lemma CheckpointedLast(run: Run, result: Value)
    ensures var after := AfterDelivery(run, result);
            && |after| == |run.deliveries|
            && forall i :: 0 <= i < |after| ==> after[i].receipt == run.deliveries[i].receipt && after[i].sequence == run.deliveries[i].sequence
  {
  }

  lemma CheckpointedWorld(w: World, s: Step)
    requires s.Checkpoint? && Enabled(w, s)
    ensures var r, w' := s.runId, Next(w, s);
            && w'.durable == w.durable && r in w'.runs && w'.runs[r].deliveries == AfterDelivery(w.runs[r], s.result)
  {
    hide Paused, AfterDelivery;
  }

  lemma CheckpointKeepsOrder(w: World, s: Step)
    requires Inv(w) && s.Checkpoint? && Enabled(w, s) && Ordered(w, s.runId)
    ensures Ordered(Next(w, s), s.runId)
  {
    var r := s.runId;
    assert r in w.runs;
    hide Inv, Ordered, Next, Enabled, AfterDelivery;
    NextKeepsInv(w, s);
    OrderIsAboutTheLast(w, r);
    CheckpointedWorld(w, s);
    OrderIsAboutTheLast(Next(w, s), r);
    CheckpointedLast(w.runs[r], s.result);
  }

  lemma PublicationKeepsOrder(w: World, s: Step)
    requires Inv(w) && s.PublishControl? && Enabled(w, s)
    ensures Ordered(Next(w, s), s.runId)
    ensures !LastIsOpen(w.durable, w.runs[s.runId])
  {
    var r := s.runId;
    HostAndSnapshot(w, r);
    NextKeepsInv(w, s);
    OrderIsAboutTheLast(Next(w, s), r);
    hide Inv, Ordered, Answered, Paused, EscalationOf;
  }

  /** What admitting the next frame writes. */
  lemma AdmittedSequence(d: Durable, r: RunId, run: Run, fault: Fault, sequence: nat)
    requires run.host.Some? && run.host.value.run.runId == r && run.queue != [] && r in d.controls
    ensures var m := run.queue[0];
            var a := Admit(run.host.value, d, Receipt(m.requestId, m.digest), m.disposition, fault);
            && a.durable.requests == d.requests && r in a.durable.controls
            && (AdmitsPast(run, fault, sequence) ==> a.durable.controls[r].sequence > sequence)
            && (d.controls[r].sequence <= sequence && !AdmitsPast(run, fault, sequence) ==> a.durable.controls[r].sequence <= sequence)
  {
    hide PausedAt;
  }

  lemma ServedWorld(w: World, s: Step)
    requires s.Serve? && Enabled(w, s)
    ensures var r := s.runId;
            var m := w.runs[r].queue[0];
            var a := Admit(w.runs[r].host.value, w.durable, Receipt(m.requestId, m.digest), m.disposition, s.fault);
            Next(w, s).durable == a.durable && r in Next(w, s).runs && Next(w, s).runs[r].deliveries == w.runs[r].deliveries
  {
    hide Admit;
  }

  lemma ServingBreaks(w: World, s: Step)
    requires Inv(w) && s.Serve? && Enabled(w, s) && Ordered(w, s.runId)
    ensures !Ordered(Next(w, s), s.runId) <==> BreaksOrder(w, s, s.runId)
  {
    var r := s.runId;
    assert Live(w, r) && w.runs[r].queue != [];
    hide Inv, Ordered, LastIsOpen, Next, Enabled, Admit, AdmitsPast;
    NextKeepsInv(w, s);
    OrderIsAboutTheLast(w, r);
    HostAndSnapshot(w, r);
    ServedWorld(w, s);
    OrderIsAboutTheLast(Next(w, s), r);
    var sequence := if w.runs[r].deliveries == [] then 0 else w.runs[r].deliveries[|w.runs[r].deliveries| - 1].sequence;
    AdmittedSequence(w.durable, r, w.runs[r], s.fault, sequence);
    SameLast(w.durable, Next(w, s).durable, w.runs[r], Next(w, s).runs[r]);
  }

  lemma ReconciledWorld(w: World, s: Step)
    requires s.ReconcileLoss? && Enabled(w, s)
    ensures var r, w' := s.runId, Next(w, s);
            && w'.durable.requests == w.durable.requests && r in w.durable.controls && r in w'.durable.controls
            && w'.durable.controls[r].sequence == SaturatingAdd(w.durable.controls[r].sequence, 1)
            && r in w'.runs && w'.runs[r].deliveries == w.runs[r].deliveries
  {
    hide Terminal;
  }

  lemma ReconcilingBreaks(w: World, s: Step)
    requires Inv(w) && s.ReconcileLoss? && Enabled(w, s) && Ordered(w, s.runId)
    ensures !Ordered(Next(w, s), s.runId) <==> BreaksOrder(w, s, s.runId)
  {
    var r := s.runId;
    assert r in w.runs;
    hide Inv, Ordered, LastIsOpen, Next, Enabled;
    NextKeepsInv(w, s);
    OrderIsAboutTheLast(w, r);
    ReconciledWorld(w, s);
    OrderIsAboutTheLast(Next(w, s), r);
    SameLast(w.durable, Next(w, s).durable, w.runs[r], Next(w, s).runs[r]);
  }

  /** The exact condition, for every step of every process: an ordered run stops being ordered if and
      only if its last delivery is open and either an admission or a reconciler passes it. */
  lemma BreaksExactly(w: World, s: Step, r: RunId)
    requires Inv(w) && Enabled(w, s) && Ordered(w, r)
    ensures !Ordered(Next(w, s), r) <==> BreaksOrder(w, s, r)
  {
    hide Next, Ordered, LastIsOpen, Inv, AdmitsPast;
    if r !in w.runs {
      NewRunIsOrdered(w, s, r);
    } else if s.Serve? && s.runId == r {
      ServingBreaks(w, s);
    } else if s.ReconcileLoss? && s.runId == r {
      ReconcilingBreaks(w, s);
    } else {
      OthersKeepOrder(w, s, r);
    }
  }

  lemma OthersKeepOrder(w: World, s: Step, r: RunId)
    requires Inv(w) && Enabled(w, s) && Ordered(w, r) && r in w.runs
    requires !(s.Serve? && s.runId == r) && !(s.ReconcileLoss? && s.runId == r)
    ensures Ordered(Next(w, s), r)
  {
    hide Next, Ordered, Inv;
    assert !(s.Bootstrap? && s.runId == r);
    hide Enabled;
    if s.PublishControl? && s.runId == r {
      PublicationKeepsOrder(w, s);
    } else if s.Checkpoint? && s.runId == r {
      CheckpointKeepsOrder(w, s);
    } else if s.DeliverResume? && s.runId == r {
      DeliveryIsNotPassed(w, s);
    } else {
      OtherStepsKeepDeliveries(w, s, r);
      OtherStepsKeepControl(w, s, r);
      SameControlKeepsOrder(w, s, r);
    }
  }

  lemma NewRunIsOrdered(w: World, s: Step, r: RunId)
    requires Enabled(w, s) && r !in w.runs
    ensures Ordered(Next(w, s), r)
  {
    hide PausedAt, Paused, ExitCode, Terminal, EscalationOf, AfterDelivery, Admit, Respond, Answered;
  }

  // ----- over whole runs

  ghost predicate OrderedThroughout(w: World, steps: seq<Step>, r: RunId)
    requires IsRun(w, steps)
    decreases |steps|
  {
    Ordered(w, r) && (steps != [] ==> OrderedThroughout(Next(w, steps[0]), steps[1..], r))
  }

  ghost predicate SomeStepBreaks(w: World, steps: seq<Step>, r: RunId)
    requires IsRun(w, steps)
    decreases |steps|
  {
    steps != [] && (BreaksOrder(w, steps[0], r) || SomeStepBreaks(Next(w, steps[0]), steps[1..], r))
  }

  lemma {:induction false} OrderedUntilBroken(w: World, steps: seq<Step>, r: RunId)
    requires Inv(w) && IsRun(w, steps) && Ordered(w, r)
    ensures OrderedThroughout(w, steps, r) <==> !SomeStepBreaks(w, steps, r)
    decreases |steps|
  {
    hide Next, Ordered, Inv, Enabled, BreaksOrder;
    if steps != [] {
      BreaksExactly(w, steps[0], r);
      NextKeepsInv(w, steps[0]);
      if Ordered(Next(w, steps[0]), r) {
        OrderedUntilBroken(Next(w, steps[0]), steps[1..], r);
      }
    }
  }

  /** Every run of the system keeps the order at every crash point if and only if none of its steps
      is one of the two. */
  lemma CrashOrderExactly(steps: seq<Step>, r: RunId)
    requires IsRun(Start, steps)
    ensures OrderedThroughout(Start, steps, r) <==> !SomeStepBreaks(Start, steps, r)
  {
    RunKeepsInv(Start, []);
    OrderedUntilBroken(Start, steps, r);
  }

  // ----- both ways happen

  lemma {:induction false} RunThenStep(w: World, steps: seq<Step>, s: Step)
    requires IsRun(w, steps) && Enabled(After(w, steps), s)
    ensures IsRun(w, steps + [s]) && After(w, steps + [s]) == Next(After(w, steps), s)
    decreases |steps|
  {
    hide Next, Enabled;
    if steps == [] {
      assert [s][1..] == [];
    } else {
      assert (steps + [s])[1..] == steps[1..] + [s];
      RunThenStep(Next(w, steps[0]), steps[1..], s);
    }
  }

  lemma ReachesNext(w: World, s: Step, w': World)
    requires Reachable(w) && Enabled(w, s) && Next(w, s) == w'
    ensures Reachable(w')
  {
    hide Next, Enabled;
    var steps :| IsRun(Start, steps) && After(Start, steps) == w;
    RunThenStep(Start, steps, s);
  }

  const RUN: RunId := "run"
  const RUNNING := Obj(map["state" := Str("running"), "terminal" := Bool(false)])
  const LOST := Obj(map["state" := Str("blocked"), "terminal" := Bool(true)])

  function PausedOn(e: string): Value {
    Obj(map["state" := Str("uncertain"), "terminal" := Bool(false), "escalation" := Obj(map["id" := Str(e)])])
  }

  function Resuming(e: string): Command {
    Resume(RUN, Disposition(e, ""))
  }

  function FrameOf(e: string, c: ClientId): Message {
    Message(e, Disposition(e, ""), DigestOf(Resuming(e)), c)
  }

  function ReceiptOf(e: string): Receipt {
    Receipt(e, DigestOf(Resuming(e)))
  }

  function ControlOf(sequence: nat, deadline: Option<nat>, result: Value): RunControl {
    RunControl(sequence, RUN, "job", "digest", 0, deadline, result)
  }

  function OneRun(requests: map<RequestId, Entry>, control: RunControl, run: Run, clients: map<ClientId, Client>): World {
    World(Durable(requests, map[RUN := control]), map[RUN := run], clients, {})
  }

  function Alive(h: HostState, stage: Stage, queue: seq<Message>): Run {
    Run(Some(h), stage, None, queue, [], false, false)
  }

  const BEGUN := ControlOf(1, None, RUNNING)
  const FIRST := ControlOf(2, Some(0), PausedOn("first"))
  const SUSPENDED := ControlOf(2, None, PausedOn("first"))
  const SECOND := ControlOf(3, Some(0), PausedOn("second"))

  function Began(): World {
    OneRun(map[], BEGUN, Alive(HostState(BEGUN, None, None, map[]), Quiet, []), map[])
  }

  function Advanced(stage: Stage): World {
    OneRun(map[], BEGUN, Alive(HostState(FIRST, None, None, map[]), stage, []), map[])
  }

  /** The pause at `first` is published and the flow driver waits. */
  function Waits(clients: map<ClientId, Client>): World {
    OneRun(map[], FIRST, Alive(HostState(FIRST, None, None, map[]), Quiet, []).(waiting := Some("first")), clients)
  }

  function Asks(e: string, phase: Phase): Client {
    Client(e, Resuming(e), phase)
  }

  function IntentOf(e: string): Entry {
    Intent(RUN, DigestOf(Resuming(e)))
  }

  function Asked(phase: Phase, queue: seq<Message>): World {
    OneRun(map["first" := IntentOf("first")], FIRST,
           Alive(HostState(FIRST, None, None, map[]), Quiet, queue).(waiting := Some("first")),
           map[0 := Asks("first", phase)])
  }

  const CONSUMED := map["first" := ReceiptOf("first")]

  function Admitted(): World {
    OneRun(map["first" := IntentOf("first")], SUSPENDED,
           Alive(HostState(SUSPENDED, Some(PendingResume(Disposition("first", ""), ReceiptOf("first"))), None, CONSUMED), Quiet, [])
           .(waiting := Some("first")),
           map[0 := Asks("first", Awaiting)])
  }

  /** The resume has been delivered and its response is owed. */
  function Owing(h: HostState, stage: Stage, first: Option<Value>, failed: bool): World {
    OneRun(map["first" := IntentOf("first")], SUSPENDED,
           Alive(h, stage, []).(deliveries := [Delivery("first", ReceiptOf("first"), 2, first)], responseFailed := failed),
           map[0 := Asks("first", Awaiting)])
  }

  function Delivered(): World {
    Owing(HostState(SUSPENDED, None, Some(Publication(ReceiptOf("first"), None)), CONSUMED), Quiet, None, false)
  }

  lemma BeganIsReached()
    ensures Reachable(Began())
  {
    assert Reachable(Start) by { assert IsRun(Start, []) && After(Start, []) == Start; }
    hide Reachable;
    ReachesNext(Start, Bootstrap(RUN, ControlOf(0, None, RUNNING)), Began());
  }

  lemma WaitingIsReached()
    ensures Reachable(Waits(map[]))
  {
    BeganIsReached();
    var responding, writing := Advanced(Responding(PausedOn("first"))), Advanced(Writing(FIRST));
    FirstPause(responding);
    FirstAnswer(responding, writing);
    FirstPublication(writing);
    hide *;
    ReachesNext(Began(), Checkpoint(RUN, PausedOn("first"), 0, 0), responding);
    ReachesNext(responding, AnswerResume(RUN, true, NoFault), writing);
    ReachesNext(writing, PublishControl(RUN, NoFault), Waits(map[]));
  }

  lemma CheckpointStep(w: World, r: RunId, result: Value)
    requires Live(w, r) && w.runs[r].stage.Quiet? && w.runs[r].waiting.None?
    ensures Enabled(w, Checkpoint(r, result, 0, 0))
    ensures Next(w, Checkpoint(r, result, 0, 0)) == SetRun(w, r, Checkpointed(w.runs[r], result, 0, 0))
  {
    hide Checkpointed;
  }

  lemma AnswerStep(w: World, r: RunId, isSealed: bool)
    requires Live(w, r) && w.runs[r].stage.Responding?
    ensures Enabled(w, AnswerResume(r, isSealed, NoFault))
    ensures var a := Respond(w.runs[r].host.value, w.durable, w.runs[r].stage.result, isSealed, NoFault);
            Next(w, AnswerResume(r, isSealed, NoFault)) == SetRun(w.(durable := a.durable), r, AnsweredRun(w.runs[r], a))
  {
    hide Respond, AnsweredRun;
  }

  lemma FirstPause(responding: World)
    requires responding == Advanced(Responding(PausedOn("first")))
    ensures Enabled(Began(), Checkpoint(RUN, PausedOn("first"), 0, 0)) && Next(Began(), Checkpoint(RUN, PausedOn("first"), 0, 0)) == responding
  {
    CheckpointStep(Began(), RUN, PausedOn("first"));
    PausedOnPauses("first");
    hide PausedOn, Paused, Next, Enabled;
  }

  lemma FirstAnswer(responding: World, writing: World)
    requires responding == Advanced(Responding(PausedOn("first"))) && writing == Advanced(Writing(FIRST))
    ensures Enabled(responding, AnswerResume(RUN, true, NoFault)) && Next(responding, AnswerResume(RUN, true, NoFault)) == writing
  {
    AnswerStep(responding, RUN, true);
    hide PausedOn, Next, Enabled;
  }

  lemma FirstPublication(writing: World)
    requires writing == Advanced(Writing(FIRST))
    ensures Enabled(writing, PublishControl(RUN, NoFault)) && Next(writing, PublishControl(RUN, NoFault)) == Waits(map[])
  {
    PausedOnPauses("first");
    hide PausedOn, Paused, EscalationOf;
  }

  lemma PausedOnPauses(e: string)
    ensures Paused(PausedOn(e)) && EscalationOf(PausedOn(e)) == Some(e) && ExitCode(PausedOn(e)) == Some(2)
    ensures !Terminal(PausedOn(e)) && Terminal(LOST)
  {
  }

  lemma AskedIsReached()
    ensures Reachable(Asked(Waiting, [FrameOf("first", 0)]))
  {
    WaitingIsReached();
    hide Reachable, PausedOn;
    var locked, ready := Waits(map[0 := Asks("first", Locked)]), Asked(Ready, []);
    ReachesNext(Waits(map[]), Arrive(0, "first", Resuming("first")), locked);
    ReachesNext(locked, RecordIntent(0, NoFault), ready);
    FrameIsSent(ready, 0, "first");
    ReachesNext(ready, Send(0), Asked(Waiting, [FrameOf("first", 0)]));
  }

  lemma FrameIsSent(w: World, c: ClientId, e: string)
    requires c in w.clients && w.clients[c] == Asks(e, Ready) && Live(w, RUN) && w.runs[RUN].queue == []
    ensures Enabled(w, Send(c))
    ensures Next(w, Send(c)) == w.(clients := w.clients[c := Asks(e, Waiting)], runs := w.runs[RUN := w.runs[RUN].(queue := [FrameOf(e, c)])])
  {
    assert [] + [FrameOf(e, c)] == [FrameOf(e, c)];
  }

  /** Serving the only frame, for a new escalation the run is paused at. */
  lemma FrameIsServed(w: World, c: ClientId, e: string)
    requires Live(w, RUN) && w.runs[RUN].stage.Quiet? && w.runs[RUN].queue == [FrameOf(e, c)]
    requires c in w.clients && w.clients[c] == Asks(e, Waiting)
    requires var h := w.runs[RUN].host.value;
             e !in h.consumed && h.pending.None? && h.run.result == PausedOn(e) && h.run.runId == RUN
    ensures Enabled(w, Serve(RUN, NoFault))
    ensures var h := w.runs[RUN].host.value;
            var run := h.run.(pauseDeadline := None);
            var host := HostState(run, Some(PendingResume(Disposition(e, ""), ReceiptOf(e))), h.awaiting, h.consumed[e := ReceiptOf(e)]);
            Next(w, Serve(RUN, NoFault)) ==
              World(w.durable.(controls := w.durable.controls[RUN := run]),
                    w.runs[RUN := w.runs[RUN].(host := Some(host), queue := [])],
                    w.clients[c := Asks(e, Awaiting)], w.answers)
  {
    PausedOnPauses(e);
    hide PausedOn, Paused, EscalationOf, ExitCode;
    assert [FrameOf(e, c)][1..] == [];
  }

  lemma DeliveredIsReached()
    ensures Reachable(Delivered())
  {
    AskedIsReached();
    var asked := Asked(Waiting, [FrameOf("first", 0)]);
    FrameIsServed(asked, 0, "first");
    hide Reachable, PausedOn, Next, Enabled;
    ReachesNext(asked, Serve(RUN, NoFault), Admitted());
    ResumeIsDelivered();
    ReachesNext(Admitted(), DeliverResume(RUN), Delivered());
  }

  lemma ResumeIsDelivered()
    ensures Enabled(Admitted(), DeliverResume(RUN)) && Next(Admitted(), DeliverResume(RUN)) == Delivered()
  {
    hide PausedOn;
    var d := Delivery("first", ReceiptOf("first"), 2, None);
    assert [] + [d] == [d];
  }

  function Lost(): World {
    Delivered().(runs := map[RUN := CrashedRun(Delivered().runs[RUN])])
  }

  lemma LostIsReached()
    ensures Reachable(Lost())
  {
    DeliveredIsReached();
    hide Reachable, PausedOn;
    ReachesNext(Delivered(), Crash(RUN), Lost());
  }

  lemma LossBreaks()
    ensures var w, s := Lost(), ReconcileLoss(RUN, LOST);
            && RUN in w.runs && !w.runs[RUN].responseFailed && Enabled(w, s) && Ordered(w, RUN) && BreaksOrder(w, s, RUN)
  {
    PausedOnPauses("first");
    hide PausedOn, Terminal;
  }

  /** A host that dies between a delivery and its response: the reconciler passes the delivery while
      its request is an intent, and no publication has failed. */
  lemma HostLossBreaksOrder()
    ensures exists w: World, s: Step ::
              && Reachable(w) && s.ReconcileLoss? && Enabled(w, s) && s.runId in w.runs && !w.runs[s.runId].responseFailed
              && Ordered(w, s.runId) && BreaksOrder(w, s, s.runId) && !Ordered(Next(w, s), s.runId)
  {
    LostIsReached();
    ReachableInv(Lost());
    LossBreaks();
    hide *;
    BreaksExactly(Lost(), ReconcileLoss(RUN, LOST), RUN);
  }

  // The other way: the response fails, and the run pauses again.

  const OWED := Some(Publication(ReceiptOf("first"), Some(PausedOn("second"))))

  /** The run has paused at `second` with the first response unpublished. */
  function PausedAgain(clients: map<ClientId, Client>): World {
    Owing(HostState(SECOND, None, OWED, CONSUMED), Quiet, Some(PausedOn("second")), true).(clients := clients)
  }

  function Both(phase: Phase): map<ClientId, Client> {
    map[0 := Asks("first", Awaiting), 1 := Asks("second", phase)]
  }

  function AskedAgain(phase: Phase, queue: seq<Message>): World {
    var w := PausedAgain(Both(phase));
    w.(durable := w.durable.(requests := map["first" := IntentOf("first"), "second" := IntentOf("second")]),
       runs := map[RUN := w.runs[RUN].(queue := queue)])
  }

  lemma PausedAgainIsReached()
    ensures Reachable(PausedAgain(map[0 := Asks("first", Awaiting)]))
  {
    DeliveredIsReached();
    var advanced := Owing(HostState(SECOND, None, Some(Publication(ReceiptOf("first"), None)), CONSUMED),
                          Responding(PausedOn("second")), Some(PausedOn("second")), false);
    RunPausesAgain(advanced);
    ResponseFails(advanced);
    hide *;
    ReachesNext(Delivered(), Checkpoint(RUN, PausedOn("second"), 0, 0), advanced);
    ReachesNext(advanced, AnswerResume(RUN, false, NoFault), PausedAgain(map[0 := Asks("first", Awaiting)]));
  }

  lemma RunPausesAgain(advanced: World)
    requires advanced == Owing(HostState(SECOND, None, Some(Publication(ReceiptOf("first"), None)), CONSUMED),
                               Responding(PausedOn("second")), Some(PausedOn("second")), false)
    ensures Enabled(Delivered(), Checkpoint(RUN, PausedOn("second"), 0, 0))
    ensures Next(Delivered(), Checkpoint(RUN, PausedOn("second"), 0, 0)) == advanced
  {
    CheckpointStep(Delivered(), RUN, PausedOn("second"));
    SecondPause(Delivered().runs[RUN]);
    hide Checkpointed, PausedOn, Next, Enabled;
  }

  lemma SecondPause(run: Run)
    requires run == Delivered().runs[RUN]
    ensures Checkpointed(run, PausedOn("second"), 0, 0) ==
            run.(host := Some(HostState(SECOND, None, Some(Publication(ReceiptOf("first"), None)), CONSUMED)),
                 stage := Responding(PausedOn("second")),
                 deliveries := [Delivery("first", ReceiptOf("first"), 2, Some(PausedOn("second")))])
  {
    PausedOnPauses("second");
    hide PausedOn, Paused;
  }

  lemma ResponseFails(advanced: World)
    requires advanced == Owing(HostState(SECOND, None, Some(Publication(ReceiptOf("first"), None)), CONSUMED),
                               Responding(PausedOn("second")), Some(PausedOn("second")), false)
    ensures Enabled(advanced, AnswerResume(RUN, false, NoFault))
    ensures Next(advanced, AnswerResume(RUN, false, NoFault)) == PausedAgain(map[0 := Asks("first", Awaiting)])
  {
    AnswerStep(advanced, RUN, false);
    hide PausedOn, ExitCode, Next, Enabled;
  }

  lemma SecondAskedIsReached()
    ensures Reachable(AskedAgain(Waiting, [FrameOf("second", 1)]))
  {
    PausedAgainIsReached();
    var before, locked, ready := PausedAgain(map[0 := Asks("first", Awaiting)]), PausedAgain(Both(Locked)), AskedAgain(Ready, []);
    SecondArrives(before, locked);
    SecondRecords(locked, ready);
    SecondSends(ready);
    hide *;
    ReachesNext(before, Arrive(1, "second", Resuming("second")), locked);
    ReachesNext(locked, RecordIntent(1, NoFault), ready);
    ReachesNext(ready, Send(1), AskedAgain(Waiting, [FrameOf("second", 1)]));
  }

  lemma SecondArrives(before: World, locked: World)
    requires before == PausedAgain(map[0 := Asks("first", Awaiting)]) && locked == PausedAgain(Both(Locked))
    ensures Enabled(before, Arrive(1, "second", Resuming("second"))) && Next(before, Arrive(1, "second", Resuming("second"))) == locked
  {
    hide PausedOn;
  }

  lemma SecondRecords(locked: World, ready: World)
    requires locked == PausedAgain(Both(Locked)) && ready == AskedAgain(Ready, [])
    ensures Enabled(locked, RecordIntent(1, NoFault)) && Next(locked, RecordIntent(1, NoFault)) == ready
  {
    hide PausedOn;
    assert Both(Locked)[1 := Asks("second", Ready)] == Both(Ready);
  }

  lemma SecondSends(ready: World)
    requires ready == AskedAgain(Ready, [])
    ensures Enabled(ready, Send(1)) && Next(ready, Send(1)) == AskedAgain(Waiting, [FrameOf("second", 1)])
  {
    hide PausedOn, Next;
    FrameIsSent(ready, 1, "second");
    assert Both(Ready)[1 := Asks("second", Waiting)] == Both(Waiting);
  }

  lemma AdmissionBreaks()
    ensures var w, s := AskedAgain(Waiting, [FrameOf("second", 1)]), Serve(RUN, NoFault);
            && RUN in w.runs && !w.runs[RUN].reconciled && Enabled(w, s) && Ordered(w, RUN) && BreaksOrder(w, s, RUN)
  {
    PausedOnPauses("second");
    hide PausedOn, Paused, EscalationOf;
  }

  /** A response that fails to publish, and the next result pauses the run again: the admission of its
      resume passes the unanswered delivery. */
  lemma FailedResponseBreaksOrder()
    ensures exists w: World, s: Step ::
              && Reachable(w) && s.Serve? && Enabled(w, s) && s.runId in w.runs && !w.runs[s.runId].reconciled
              && Ordered(w, s.runId) && BreaksOrder(w, s, s.runId) && !Ordered(Next(w, s), s.runId)
  {
    SecondAskedIsReached();
    var asked := AskedAgain(Waiting, [FrameOf("second", 1)]);
    ReachableInv(asked);
    AdmissionBreaks();
    hide *;
    BreaksExactly(asked, Serve(RUN, NoFault), RUN);
  }
}
