/** Resume and abort clients, run hosts and loss reconcilers, interleaved freely, with a crash possible
    between any two durable writes. */
module ControlProtocol {
  import opened HostControl
  import opened Json
  import opened Numbers
  import opened Results
  import opened Store

  type ClientId = nat

  datatype Command = Resume(runId: RunId, disposition: Disposition) | AbortRun(abortedRun: RunId)

  /** Where one client invocation stands. It holds its request's lock until it is done. */
  datatype Phase = Locked | Ready | Waiting | Rejected | Awaiting | Polling | Done

  datatype Client = Client(requestId: RequestId, command: Command, phase: Phase)

  /** A resume frame on its way to the host; connections are served one at a time in order. */
  datatype Message = Message(requestId: RequestId, disposition: Disposition, digest: Digest, sender: ClientId)

  /** Progress of one checkpoint publication, which excludes admissions until it ends. */
  datatype Stage = Quiet | Responding(result: Value) | Writing(snapshot: RunControl)

  /** History: one delivery to the run, the sequence it was delivered at, and the first checkpoint
      result published after it. */
  datatype Delivery = Delivery(escalationId: string, receipt: Receipt, sequence: nat, first: Option<Value>)

  datatype Run = Run(
    host: Option<HostState>,
    stage: Stage,
    waiting: Option<string>,
    queue: seq<Message>,
    deliveries: seq<Delivery>,
    responseFailed: bool,
    reconciled: bool)

  datatype World = World(
    durable: Durable,
    runs: map<RunId, Run>,
    clients: map<ClientId, Client>,
    answers: set<(RequestId, Record)>)

  function DigestOf(c: Command): Digest {
    if c.Resume? then ResumeDigest(c.runId, c.disposition) else AbortDigest(c.abortedRun)
  }

  function RunOf(c: Command): RunId {
    if c.Resume? then c.runId else c.abortedRun
  }

  function StaleRecord(q: RequestId, c: Command, message: string): Record {
    SealedRecord(q, RunOf(c), DigestOf(c), 64,
                 Obj(map["schema_version" := Num(1),
                         "error" := Obj(map["code" := Str("stale_escalation"), "message" := Str(message)])]))
  }

  const TERMINAL_MESSAGE := "the run no longer accepts this escalation"
  const CONSUMED_MESSAGE := "the escalation was stale or already consumed"

  function AbortRecord(c: Command, control: RunControl): Record {
    Record(control.requestId, control.runId, DigestOf(c), None,
           if ExitCode(control.result).Some? then ExitCode(control.result).value else 70, control.result)
  }

  // ----- steps

  datatype Step =
    | Arrive(client: ClientId, requestId: RequestId, command: Command)
    | Leave(client: ClientId)
    | AnswerPrior(client: ClientId)
    | FindIntent(client: ClientId)
    | RecordIntent(client: ClientId, fault: Fault)
    | RejectTerminal(client: ClientId, fault: Fault)
    | Send(client: ClientId)
    | PersistStale(client: ClientId, fault: Fault)
    | AnswerComplete(client: ClientId)
    | StartAbort(client: ClientId)
    | FinishAbort(client: ClientId, fault: Fault)
    | JobRequest(requestId: RequestId, entry: Entry)
    | Bootstrap(runId: RunId, control: RunControl)
    | Serve(runId: RunId, fault: Fault)
    | Drop(runId: RunId)
    | Checkpoint(runId: RunId, result: Value, now: nat, pauseTimeout: nat)
    | ReadDeadline(runId: RunId, now: nat, pauseTimeout: nat)
    | AnswerResume(runId: RunId, isSealed: bool, fault: Fault)
    | PublishControl(runId: RunId, fault: Fault)
    | DeliverResume(runId: RunId)
    | StopWaiting(runId: RunId)
    | Crash(runId: RunId)
    | ReconcileLoss(runId: RunId, lostResult: Value)

  predicate Active(c: Client) {
    c.phase != Done
  }

  predicate At(w: World, c: ClientId, phase: Phase) {
    c in w.clients && w.clients[c].phase == phase
  }

  predicate Live(w: World, r: RunId) {
    r in w.runs && w.runs[r].host.Some?
  }

  predicate TerminalControl(d: Durable, r: RunId) {
    r in d.controls && Terminal(d.controls[r].result)
  }

  predicate Enabled(w: World, s: Step) {
    match s
    case Arrive(c, q, _) =>
      c !in w.clients && forall other :: other in w.clients && Active(w.clients[other]) ==> w.clients[other].requestId != q
    case Leave(c) => c in w.clients
    case AnswerPrior(c) =>
      At(w, c, Locked) &&
      var client := w.clients[c];
      var entry := Lookup(w.durable, client.requestId);
      entry.Some? && entry.value.Complete? && entry.value.record.digest == DigestOf(client.command) &&
      (client.command.Resume? ==> SealMatches(entry.value.record))
    case FindIntent(c) =>
      At(w, c, Locked) && w.clients[c].command.Resume? &&
      Lookup(w.durable, w.clients[c].requestId) == Some(Intent(w.clients[c].command.runId, DigestOf(w.clients[c].command)))
    case RecordIntent(c, _) =>
      At(w, c, Locked) && w.clients[c].command.Resume? && w.clients[c].requestId !in w.durable.requests
    case RejectTerminal(c, _) =>
      At(w, c, Locked) && w.clients[c].command.Resume? && w.clients[c].requestId !in w.durable.requests &&
      TerminalControl(w.durable, w.clients[c].command.runId)
    case Send(c) => At(w, c, Ready) && w.clients[c].command.Resume? && Live(w, w.clients[c].command.runId)
    case PersistStale(c, _) =>
      At(w, c, Rejected) && Lookup(w.durable, w.clients[c].requestId).Some? && Lookup(w.durable, w.clients[c].requestId).value.Intent?
    case AnswerComplete(c) =>
      (At(w, c, Ready) || At(w, c, Waiting) || At(w, c, Rejected) || At(w, c, Awaiting)) &&
      var entry := Lookup(w.durable, w.clients[c].requestId);
      entry.Some? && entry.value.Complete? && entry.value.record.digest == DigestOf(w.clients[c].command) &&
      SealMatches(entry.value.record)
    case StartAbort(c) =>
      At(w, c, Locked) && w.clients[c].command.AbortRun? && w.clients[c].requestId !in w.durable.requests
    case FinishAbort(c, _) =>
      (At(w, c, Polling) || (At(w, c, Locked) && w.clients[c].requestId !in w.durable.requests)) &&
      w.clients[c].command.AbortRun? && TerminalControl(w.durable, w.clients[c].command.abortedRun)
    case JobRequest(q, entry) =>
      EntryDigest(entry).JobDigest? &&
      (q in w.durable.requests ==> EntryDigest(w.durable.requests[q]).JobDigest?) &&
      (q !in w.durable.requests ==> forall other :: other in w.clients && Active(w.clients[other]) ==> w.clients[other].requestId != q)
    case Bootstrap(r, control) => r !in w.runs && control.runId == r
    case Serve(r, _) => Live(w, r) && w.runs[r].stage.Quiet? && w.runs[r].queue != []
    case Drop(r) => Live(w, r) && w.runs[r].queue != []
    case Checkpoint(r, _, _, _) => Live(w, r) && w.runs[r].stage.Quiet? && w.runs[r].waiting.None?
    case ReadDeadline(r, _, _) => Live(w, r) && w.runs[r].stage.Quiet? && w.runs[r].waiting.None?
    case AnswerResume(r, _, _) => Live(w, r) && w.runs[r].stage.Responding?
    case PublishControl(r, _) => Live(w, r) && w.runs[r].stage.Writing?
    case DeliverResume(r) =>
      Live(w, r) && w.runs[r].waiting.Some? && CanDeliver(w.runs[r].host.value, w.runs[r].waiting.value)
    case StopWaiting(r) => Live(w, r) && w.runs[r].waiting.Some?
    case Crash(r) => Live(w, r)
    case ReconcileLoss(r, lost) =>
      r in w.runs && w.runs[r].host.None? && r in w.durable.controls && !Terminal(w.durable.controls[r].result) && Terminal(lost)
  }

  function Move(w: World, c: ClientId, phase: Phase): World
    requires c in w.clients
  {
    w.(clients := w.clients[c := w.clients[c].(phase := phase)])
  }

  function Put(w: World, c: ClientId, e: Entry, fault: Fault): World
    requires c in w.clients
  {
    w.(durable := WriteRequest(w.durable, w.clients[c].requestId, e, fault))
  }

  function Answer(w: World, c: ClientId, record: Record): World
    requires c in w.clients
  {
    Move(w, c, Done).(answers := w.answers + {(w.clients[c].requestId, record)})
  }

  /** A client that finalizes its own record answers with it only when the write succeeded. */
  function Finalize(w: World, c: ClientId, record: Record, fault: Fault): World
    requires c in w.clients
  {
    var written := Put(w, c, Complete(record), fault);
    if fault.NoFault? then Answer(written, c, record) else Move(written, c, Done)
  }

  function SetRun(w: World, r: RunId, run: Run): World {
    w.(runs := w.runs[r := run])
  }

  /** The reply reaches its sender only if that client is still waiting for it. */
  function Reply(w: World, m: Message, phase: Phase): World {
    if At(w, m.sender, Waiting) then Move(w, m.sender, phase) else w
  }

  function AfterDelivery(run: Run, result: Value): seq<Delivery> {
    var n := |run.deliveries|;
    if n > 0 && run.deliveries[n - 1].first.None? then run.deliveries[..n - 1] + [run.deliveries[n - 1].(first := Some(result))]
    else run.deliveries
  }

  function Checkpointed(run: Run, result: Value, now: nat, pauseTimeout: nat): Run
    requires run.host.Some?
  {
    run.(host := Some(Advance(run.host.value, result, now, pauseTimeout)),
         stage := Responding(result),
         deliveries := AfterDelivery(run, result))
  }

  function AnsweredRun(run: Run, a: Responded): Run {
    run.(host := Some(a.host),
         stage := if a.ok then Writing(a.host.run) else Quiet,
         responseFailed := run.responseFailed || !a.ok)
  }

  /** Only a successful publication of a paused result lets the flow driver wait for its escalation. */
  function PublishedRun(run: Run, fault: Fault): Run
    requires run.stage.Writing?
  {
    var result := run.stage.snapshot.result;
    run.(stage := Quiet,
         waiting := if fault.NoFault? && Paused(result) then EscalationOf(result) else None)
  }

  function DeliveredRun(run: Run): Run
    requires run.host.Some? && run.host.value.pending.Some? && run.waiting.Some?
  {
    var h := run.host.value;
    run.(host := Some(Deliver(h)),
         waiting := None,
         deliveries := run.deliveries + [Delivery(run.waiting.value, h.pending.value.receipt, h.run.sequence, None)])
  }

  function CrashedRun(run: Run): Run {
    run.(host := None, stage := Quiet, waiting := None, queue := [])
  }

  function Sent(w: World, c: ClientId): World
    requires c in w.clients && w.clients[c].command.Resume? && w.clients[c].command.runId in w.runs
  {
    var client := w.clients[c];
    var r := client.command.runId;
    var m := Message(client.requestId, client.command.disposition, DigestOf(client.command), c);
    SetRun(Move(w, c, Waiting), r, w.runs[r].(queue := w.runs[r].queue + [m]))
  }

  function Next(w: World, s: Step): World
    requires Enabled(w, s)
  {
    match s
    case Arrive(c, q, command) => w.(clients := w.clients[c := Client(q, command, Locked)])
    case Leave(c) => Move(w, c, Done)
    case AnswerPrior(c) => Answer(w, c, w.durable.requests[w.clients[c].requestId].record)
    case FindIntent(c) => Move(w, c, Ready)
    case RecordIntent(c, fault) =>
      Move(Put(w, c, Intent(w.clients[c].command.runId, DigestOf(w.clients[c].command)), fault), c,
           if fault.NoFault? then Ready else Done)
    case RejectTerminal(c, fault) =>
      Finalize(w, c, StaleRecord(w.clients[c].requestId, w.clients[c].command, TERMINAL_MESSAGE), fault)
    case Send(c) => Sent(w, c)
    case PersistStale(c, fault) =>
      Finalize(w, c, StaleRecord(w.clients[c].requestId, w.clients[c].command, CONSUMED_MESSAGE), fault)
    case AnswerComplete(c) => Answer(w, c, w.durable.requests[w.clients[c].requestId].record)
    case StartAbort(c) => Move(w, c, Polling)
    case FinishAbort(c, fault) =>
      Finalize(w, c, AbortRecord(w.clients[c].command, w.durable.controls[w.clients[c].command.abortedRun]), fault)
    case JobRequest(q, entry) => w.(durable := w.durable.(requests := w.durable.requests[q := entry]))
    case Bootstrap(r, control) =>
      var run := control.(sequence := 1, pauseDeadline := None);
      SetRun(w.(durable := WriteControl(w.durable, run, NoFault)), r,
             Run(Some(HostState(run, None, None, map[])), Quiet, None, [], [], false, false))
    case Serve(r, fault) =>
      var run := w.runs[r];
      var m := run.queue[0];
      var a := Admit(run.host.value, w.durable, Receipt(m.requestId, m.digest), m.disposition, fault);
      var served := SetRun(w.(durable := a.durable), r, run.(host := Some(a.host), queue := run.queue[1..]));
      Reply(served, m, if a.outcome == Accepted then Awaiting else if a.outcome == Stale then Rejected else Done)
    case Drop(r) => SetRun(w, r, w.runs[r].(queue := w.runs[r].queue[1..]))
    case Checkpoint(r, result, now, pauseTimeout) => SetRun(w, r, Checkpointed(w.runs[r], result, now, pauseTimeout))
    case ReadDeadline(r, now, pauseTimeout) =>
      SetRun(w, r, w.runs[r].(host := Some(KeepDeadline(w.runs[r].host.value, now, pauseTimeout))))
    case AnswerResume(r, isSealed, fault) =>
      var run := w.runs[r];
      var a := Respond(run.host.value, w.durable, run.stage.result, isSealed, fault);
      SetRun(w.(durable := a.durable), r, AnsweredRun(run, a))
    case PublishControl(r, fault) =>
      var run := w.runs[r];
      SetRun(w.(durable := WriteControl(w.durable, run.stage.snapshot, fault)), r, PublishedRun(run, fault))
    case DeliverResume(r) => SetRun(w, r, DeliveredRun(w.runs[r]))
    case StopWaiting(r) => SetRun(w, r, w.runs[r].(waiting := None))
    case Crash(r) => SetRun(w, r, CrashedRun(w.runs[r]))
    case ReconcileLoss(r, lost) =>
      var control := w.durable.controls[r];
      SetRun(w.(durable := w.durable.(controls := w.durable.controls[r :=
                  control.(sequence := SaturatingAdd(control.sequence, 1), pauseDeadline := None, result := lost)])),
             r, w.runs[r].(reconciled := true))
  }

  // ----- invariant

  ghost predicate Registered(requests: map<RequestId, Entry>, r: RunId, q: RequestId, digest: Digest) {
    q in requests && EntryDigest(requests[q]) == digest && EntryRun(requests[q]) == r
  }

  ghost predicate ReceiptOk(requests: map<RequestId, Entry>, r: RunId, e: string, receipt: Receipt) {
    && receipt.digest.ResumeDigest? && receipt.digest.runId == r && receipt.digest.disposition.escalationId == e
    && Registered(requests, r, receipt.requestId, receipt.digest)
  }

  ghost predicate QueueOk(requests: map<RequestId, Entry>, clients: map<ClientId, Client>, r: RunId, queue: seq<Message>) {
    && (forall i :: 0 <= i < |queue| ==>
          && queue[i].sender in clients && clients[queue[i].sender].requestId == queue[i].requestId
          && (clients[queue[i].sender].phase == Waiting || clients[queue[i].sender].phase == Done)
          && queue[i].digest == ResumeDigest(r, queue[i].disposition)
          && Registered(requests, r, queue[i].requestId, queue[i].digest))
    && (forall i, j :: 0 <= i < j < |queue| && queue[i].requestId == queue[j].requestId ==> clients[queue[i].sender].phase == Done)
  }

  ghost predicate Answered(requests: map<RequestId, Entry>, r: RunId, d: Delivery) {
    && d.first.Some? && ExitCode(d.first.value).Some? && d.receipt.requestId in requests
    && requests[d.receipt.requestId] == Complete(ResponseRecord(r, d.receipt, d.first.value))
  }

  ghost predicate DeliveriesOk(requests: map<RequestId, Entry>, r: RunId, deliveries: seq<Delivery>) {
    && (forall i :: 0 <= i < |deliveries| ==>
          && ReceiptOk(requests, r, deliveries[i].escalationId, deliveries[i].receipt)
          && (requests[deliveries[i].receipt.requestId].Intent? || Answered(requests, r, deliveries[i])))
    && (forall i :: 0 <= i < |deliveries| - 1 ==> Answered(requests, r, deliveries[i]))
    && (forall i, j :: 0 <= i < j < |deliveries| ==> deliveries[i].escalationId != deliveries[j].escalationId)
  }

  ghost predicate IsDelivered(deliveries: seq<Delivery>, e: string, receipt: Receipt) {
    exists i :: 0 <= i < |deliveries| && deliveries[i].escalationId == e && deliveries[i].receipt == receipt
  }

  /** Consumption and delivery agree: every consumed escalation is pending or was delivered. */
  ghost predicate ConsumedOk(requests: map<RequestId, Entry>, r: RunId, h: HostState, deliveries: seq<Delivery>) {
    && (forall e :: e in h.consumed ==>
          && ReceiptOk(requests, r, e, h.consumed[e])
          && ((h.pending.Some? && h.pending.value.request.escalationId == e) || IsDelivered(deliveries, e, h.consumed[e])))
    && (forall i :: 0 <= i < |deliveries| ==>
          deliveries[i].escalationId in h.consumed && h.consumed[deliveries[i].escalationId] == deliveries[i].receipt)
  }

  ghost predicate PendingOk(requests: map<RequestId, Entry>, r: RunId, h: HostState, deliveries: seq<Delivery>) {
    h.pending.Some? ==>
      var e := h.pending.value.request.escalationId;
      var receipt := h.pending.value.receipt;
      && e in h.consumed && h.consumed[e] == receipt
      && receipt.digest == ResumeDigest(r, h.pending.value.request)
      && receipt.requestId in requests && requests[receipt.requestId].Intent?
      && (forall i :: 0 <= i < |deliveries| ==> deliveries[i].escalationId != e)
  }

  /** What the host still owes the last delivery. */
  ghost predicate OwedOk(requests: map<RequestId, Entry>, r: RunId, run: Run)
    requires run.host.Some?
  {
    var owed := run.host.value.awaiting;
    var n := |run.deliveries|;
    && (owed.None? ==> forall i :: 0 <= i < n ==> Answered(requests, r, run.deliveries[i]))
    && (owed.Some? ==>
          && n > 0 && run.deliveries[n - 1].receipt == owed.value.receipt
          && (if owed.value.response.Some? then run.deliveries[n - 1].first == owed.value.response
              else if run.stage.Responding? then run.deliveries[n - 1].first == Some(run.stage.result)
              else run.deliveries[n - 1].first == None))
  }

  /** A request is open unless the host has already consumed this very receipt of it. */
  ghost predicate Open(requests: map<RequestId, Entry>, consumed: map<string, Receipt>, receipt: Receipt) {
    || (receipt.requestId in requests && requests[receipt.requestId].Intent?)
    || (receipt.digest.ResumeDigest? && receipt.digest.disposition.escalationId in consumed &&
        consumed[receipt.digest.disposition.escalationId] == receipt)
  }

  ghost predicate FreshOk(requests: map<RequestId, Entry>, h: HostState, queue: seq<Message>) {
    forall i :: 0 <= i < |queue| ==> Open(requests, h.consumed, Receipt(queue[i].requestId, queue[i].digest))
  }

  ghost predicate HostOk(requests: map<RequestId, Entry>, r: RunId, run: Run)
    requires run.host.Some?
  {
    var h := run.host.value;
    && h.run.runId == r
    && ConsumedOk(requests, r, h, run.deliveries)
    && PendingOk(requests, r, h, run.deliveries)
    && OwedOk(requests, r, run)
    && FreshOk(requests, h, run.queue)
    && (run.stage.Writing? ==> h.awaiting.None? && run.stage.snapshot == h.run)
    && (run.waiting.Some? ==> run.stage.Quiet? && h.awaiting.None?)
  }

  /** Durable sequences trail memory, and pass a delivery only once its response is recorded. */
  ghost predicate OrderOk(d: Durable, r: RunId, run: Run) {
    && r in d.controls && d.controls[r].runId == r && d.controls[r].sequence <= U64_MAX
    && (run.host.Some? ==> d.controls[r].sequence <= run.host.value.run.sequence <= U64_MAX)
    && (!run.responseFailed && !run.reconciled ==> forall i :: 0 <= i < |run.deliveries| ==>
          d.controls[r].sequence > run.deliveries[i].sequence ==> Answered(d.requests, r, run.deliveries[i]))
    && (!run.responseFailed && run.host.Some? && run.host.value.awaiting.Some? && run.deliveries != [] ==>
          var last := run.deliveries[|run.deliveries| - 1];
          d.controls[r].sequence <= last.sequence && (run.stage.Quiet? ==> run.host.value.run.sequence == last.sequence))
  }

  ghost predicate RunOk(d: Durable, clients: map<ClientId, Client>, r: RunId, run: Run) {
    && QueueOk(d.requests, clients, r, run.queue)
    && DeliveriesOk(d.requests, r, run.deliveries)
    && (if run.host.Some? then HostOk(d.requests, r, run) && !run.reconciled
        else run.queue == [] && run.stage.Quiet? && run.waiting.None?)
    && OrderOk(d, r, run)
  }

  ghost predicate MentionsRun(run: Run, q: RequestId) {
    || (exists i :: 0 <= i < |run.queue| && run.queue[i].requestId == q)
    || (exists i :: 0 <= i < |run.deliveries| && run.deliveries[i].receipt.requestId == q)
    || (run.host.Some? && exists e :: e in run.host.value.consumed && run.host.value.consumed[e].requestId == q)
  }

  ghost predicate Untouched(runs: map<RunId, Run>, q: RequestId) {
    forall r :: r in runs ==> !MentionsRun(runs[r], q)
  }

  ghost predicate ClientOk(w: World, c: ClientId)
    requires c in w.clients
  {
    var client := w.clients[c];
    && (client.phase in {Ready, Waiting, Rejected, Awaiting} ==>
          client.command.Resume? && Registered(w.durable.requests, client.command.runId, client.requestId, DigestOf(client.command)))
    && (client.phase == Ready ==>
          var r := client.command.runId;
          || w.durable.requests[client.requestId].Intent?
          || (r in w.runs && (w.runs[r].host.Some? ==>
                Open(w.durable.requests, w.runs[r].host.value.consumed, Receipt(client.requestId, DigestOf(client.command))))))
    && (client.phase == Polling ==> client.requestId !in w.durable.requests)
    && (client.phase == Rejected ==> Untouched(w.runs, client.requestId))
  }

  ghost predicate LocksOk(clients: map<ClientId, Client>) {
    forall a, b :: a in clients && b in clients && a != b && Active(clients[a]) && Active(clients[b]) ==>
      clients[a].requestId != clients[b].requestId
  }

  ghost predicate AnswersOk(w: World) {
    forall q, record :: (q, record) in w.answers ==>
      q in w.durable.requests && w.durable.requests[q] == Complete(record) && !record.digest.JobDigest?
  }

  ghost predicate Inv(w: World) {
    && LocksOk(w.clients)
    && AnswersOk(w)
    && (forall r :: r in w.runs ==> RunOk(w.durable, w.clients, r, w.runs[r]))
    && (forall c :: c in w.clients ==> ClientOk(w, c))
  }

  // ----- every step keeps the invariant

  lemma ClientsFrame(d: Durable, before: map<ClientId, Client>, after: map<ClientId, Client>, r: RunId, run: Run)
    requires RunOk(d, before, r, run)
    requires forall c :: c in before ==> c in after && after[c].requestId == before[c].requestId
    requires forall c :: c in before && (before[c].phase == Waiting || before[c].phase == Done) ==>
               after[c].phase == before[c].phase || after[c].phase == Done
    ensures RunOk(d, after, r, run)
  {
  }

  lemma DeliveriesFrame(requests: map<RequestId, Entry>, q: RequestId, entry: Entry, r: RunId, deliveries: seq<Delivery>)
    requires DeliveriesOk(requests, r, deliveries)
    requires forall i :: 0 <= i < |deliveries| ==> deliveries[i].receipt.requestId != q
    ensures DeliveriesOk(requests[q := entry], r, deliveries)
  {
  }

  lemma HostFrame(requests: map<RequestId, Entry>, q: RequestId, entry: Entry, r: RunId, run: Run)
    requires run.host.Some? && HostOk(requests, r, run) && !MentionsRun(run, q)
    ensures HostOk(requests[q := entry], r, run)
  {
    var after := requests[q := entry];
    var h := run.host.value;
    forall e | e in h.consumed
      ensures ReceiptOk(after, r, e, h.consumed[e]) && after[h.consumed[e].requestId] == requests[h.consumed[e].requestId]
    {
      assert ReceiptOk(requests, r, e, h.consumed[e]);
    }
  }

  lemma QueueFrame(requests: map<RequestId, Entry>, q: RequestId, entry: Entry, clients: map<ClientId, Client>, r: RunId, queue: seq<Message>)
    requires QueueOk(requests, clients, r, queue)
    requires forall i :: 0 <= i < |queue| ==> queue[i].requestId != q
    ensures QueueOk(requests[q := entry], clients, r, queue)
  {
  }

  lemma OrderFrame(d: Durable, q: RequestId, entry: Entry, r: RunId, run: Run)
    requires OrderOk(d, r, run)
    requires forall i :: 0 <= i < |run.deliveries| ==> run.deliveries[i].receipt.requestId != q
    ensures OrderOk(d.(requests := d.requests[q := entry]), r, run)
  {
  }

  lemma RequestsFrame(d: Durable, q: RequestId, entry: Entry, clients: map<ClientId, Client>, r: RunId, run: Run)
    requires RunOk(d, clients, r, run) && !MentionsRun(run, q)
    ensures RunOk(d.(requests := d.requests[q := entry]), clients, r, run)
  {
    hide QueueOk, DeliveriesOk, HostOk, OrderOk;
    QueueFrame(d.requests, q, entry, clients, r, run.queue);
    DeliveriesFrame(d.requests, q, entry, r, run.deliveries);
    if run.host.Some? { HostFrame(d.requests, q, entry, r, run); }
    OrderFrame(d, q, entry, r, run);
  }

  lemma AbsentIsUntouched(w: World, q: RequestId)
    requires Inv(w) && (q !in w.durable.requests || EntryDigest(w.durable.requests[q]).JobDigest?)
    ensures Untouched(w.runs, q)
  {
    forall r | r in w.runs
      ensures !MentionsRun(w.runs[r], q)
    {
      assert RunOk(w.durable, w.clients, r, w.runs[r]);
    }
  }

  /** Writing the entry of a request no run mentions disturbs only that request's own clients. */
  lemma PutKeepsRuns(w: World, q: RequestId, e: Entry)
    requires Inv(w) && Untouched(w.runs, q)
    ensures forall r :: r in w.runs ==> RunOk(w.durable.(requests := w.durable.requests[q := e]), w.clients, r, w.runs[r])
  {
    forall r | r in w.runs
      ensures RunOk(w.durable.(requests := w.durable.requests[q := e]), w.clients, r, w.runs[r])
    {
      RequestsFrame(w.durable, q, e, w.clients, r, w.runs[r]);
    }
  }

  predicate MoveStep(s: Step) {
    s.Leave? || s.FindIntent? || s.StartAbort? || s.AnswerPrior? || s.AnswerComplete?
  }

  /** A client may always leave, and on finding its own intent or no entry at all may become ready or
      start polling. */
  ghost predicate MayMove(w: World, c: ClientId, phase: Phase) {
    && c in w.clients
    && (phase == Done ||
        (phase == Polling && w.clients[c].requestId !in w.durable.requests && At(w, c, Locked)) ||
        (phase == Ready && At(w, c, Locked) && w.clients[c].command.Resume? &&
         Lookup(w.durable, w.clients[c].requestId) == Some(Intent(w.clients[c].command.runId, DigestOf(w.clients[c].command)))))
  }

  lemma MovedClient(w: World, c: ClientId, phase: Phase, other: ClientId)
    requires MayMove(w, c, phase) && other in w.clients && ClientOk(w, other)
    ensures ClientOk(Move(w, c, phase), other)
  {
  }

  lemma MoveKeeps(w: World, c: ClientId, phase: Phase)
    requires Inv(w) && MayMove(w, c, phase)
    ensures Inv(Move(w, c, phase))
  {
    hide RunOk, ClientOk;
    var w' := Move(w, c, phase);
    forall r | r in w'.runs
      ensures RunOk(w'.durable, w'.clients, r, w'.runs[r])
    {
      ClientsFrame(w.durable, w.clients, w'.clients, r, w.runs[r]);
    }
    forall other | other in w'.clients
      ensures ClientOk(w', other)
    {
      MovedClient(w, c, phase, other);
    }
  }

  lemma AnswerKeeps(w: World, c: ClientId)
    requires Inv(w) && c in w.clients
    requires Lookup(w.durable, w.clients[c].requestId).Some? && w.durable.requests[w.clients[c].requestId].Complete?
    requires !w.durable.requests[w.clients[c].requestId].record.digest.JobDigest?
    ensures Inv(Answer(w, c, w.durable.requests[w.clients[c].requestId].record))
  {
    MoveKeeps(w, c, Done);
    var w' := Answer(w, c, w.durable.requests[w.clients[c].requestId].record);
    hide RunOk;
    forall other | other in w'.clients
      ensures ClientOk(w', other)
    {
      assert ClientOk(Move(w, c, Done), other);
    }
  }

  lemma MoveStepKeeps(w: World, s: Step)
    requires Inv(w) && MoveStep(s) && Enabled(w, s)
    ensures Inv(Next(w, s))
  {
    hide Inv;
    match s
    case Leave(c) => MoveKeeps(w, c, Done);
    case FindIntent(c) => MoveKeeps(w, c, Ready);
    case StartAbort(c) => MoveKeeps(w, c, Polling);
    case AnswerPrior(c) => AnswerKeeps(w, c);
    case AnswerComplete(c) => AnswerKeeps(w, c);
  }

  lemma ArriveKeeps(w: World, s: Step)
    requires Inv(w) && s.Arrive? && Enabled(w, s)
    ensures Inv(Next(w, s))
  {
    hide RunOk, MentionsRun;
    var w' := Next(w, s);
    forall r | r in w'.runs
      ensures RunOk(w'.durable, w'.clients, r, w'.runs[r])
    {
      ClientsFrame(w.durable, w.clients, w'.clients, r, w.runs[r]);
    }
    forall c | c in w'.clients
      ensures ClientOk(w', c)
    {
      if c in w.clients { assert ClientOk(w, c); }
    }
  }

  predicate PutStep(s: Step) {
    s.RecordIntent? || s.RejectTerminal? || s.PersistStale? || s.FinishAbort?
  }

  ghost predicate HolderMayWrite(w: World, c: ClientId, entry: Entry, phase: Phase) {
    && c in w.clients && Active(w.clients[c]) && w.clients[c].phase != Waiting && Untouched(w.runs, w.clients[c].requestId)
    && (w.clients[c].requestId in w.durable.requests ==> w.durable.requests[w.clients[c].requestId].Intent?)
    && (phase == Done || phase == Ready)
    && (phase == Ready ==> w.clients[c].command.Resume? && entry == Intent(RunOf(w.clients[c].command), DigestOf(w.clients[c].command)))
  }

  lemma HolderWritesRuns(w: World, c: ClientId, entry: Entry, phase: Phase)
    requires Inv(w) && HolderMayWrite(w, c, entry, phase)
    ensures var w' := Move(Put(w, c, entry, NoFault), c, phase);
            forall r :: r in w'.runs ==> RunOk(w'.durable, w'.clients, r, w'.runs[r])
  {
    hide RunOk, MentionsRun, ClientOk;
    var w' := Move(Put(w, c, entry, NoFault), c, phase);
    PutKeepsRuns(w, w.clients[c].requestId, entry);
    forall r | r in w'.runs
      ensures RunOk(w'.durable, w'.clients, r, w'.runs[r])
    {
      ClientsFrame(w'.durable, w.clients, w'.clients, r, w.runs[r]);
    }
  }

  lemma HolderWritesClient(w: World, c: ClientId, entry: Entry, phase: Phase, other: ClientId)
    requires Inv(w) && HolderMayWrite(w, c, entry, phase) && other in w.clients
    ensures ClientOk(Move(Put(w, c, entry, NoFault), c, phase), other)
  {
    assert ClientOk(w, other);
  }

  /** A lock holder that writes its own untouched request and moves on. */
  lemma HolderWrites(w: World, c: ClientId, entry: Entry, phase: Phase, answers: set<(RequestId, Record)>)
    requires Inv(w) && HolderMayWrite(w, c, entry, phase)
    requires answers == w.answers ||
             (entry.Complete? && !entry.record.digest.JobDigest? && answers == w.answers + {(w.clients[c].requestId, entry.record)})
    ensures Inv(Move(Put(w, c, entry, NoFault), c, phase).(answers := answers))
  {
    var moved := Move(Put(w, c, entry, NoFault), c, phase);
    var w' := moved.(answers := answers);
    HolderWritesRuns(w, c, entry, phase);
    forall other | other in w'.clients
      ensures ClientOk(w', other)
    {
      HolderWritesClient(w, c, entry, phase, other);
      assert ClientOk(moved, other);
    }
    assert AnswersOk(w');
    assert LocksOk(w'.clients);
  }

  /** What a holder's step writes, and where it takes the holder. */
  lemma PutShape(w: World, s: Step)
    requires PutStep(s) && Enabled(w, s)
    ensures var c := s.client;
            var q := w.clients[c].requestId;
            var w' := Next(w, s);
            if s.fault.NotWritten? then w' == Move(w, c, Done)
            else
              && q in w'.durable.requests && c in w'.clients
              && w' == Move(Put(w, c, w'.durable.requests[q], NoFault), c, w'.clients[c].phase).(answers := w'.answers)
              && (w'.answers == w.answers ||
                  (w'.durable.requests[q].Complete? && !w'.durable.requests[q].record.digest.JobDigest?
                   && w'.answers == w.answers + {(q, w'.durable.requests[q].record)}))
  {
    hide Terminal, ExitCode;
  }

  lemma PutMayWrite(w: World, s: Step)
    requires Inv(w) && PutStep(s) && Enabled(w, s) && !s.fault.NotWritten?
    ensures var q := w.clients[s.client].requestId;
            var w' := Next(w, s);
            q in w'.durable.requests && s.client in w'.clients &&
            HolderMayWrite(w, s.client, w'.durable.requests[q], w'.clients[s.client].phase)
  {
    hide RunOk, MentionsRun, LocksOk, AnswersOk, Open, Registered, Terminal, ExitCode;
    assert ClientOk(w, s.client);
    if !s.PersistStale? { AbsentIsUntouched(w, w.clients[s.client].requestId); }
    hide Inv;
  }

  lemma PutKeeps(w: World, s: Step)
    requires Inv(w) && PutStep(s) && Enabled(w, s)
    ensures Inv(Next(w, s))
  {
    hide Inv, Next, HolderMayWrite, ClientOk;
    PutShape(w, s);
    if s.fault.NotWritten? {
      MoveKeeps(w, s.client, Done);
    } else {
      PutMayWrite(w, s);
      var w' := Next(w, s);
      HolderWrites(w, s.client, w'.durable.requests[w.clients[s.client].requestId], w'.clients[s.client].phase, w'.answers);
    }
  }

  lemma JobKeeps(w: World, s: Step)
    requires Inv(w) && s.JobRequest? && Enabled(w, s)
    ensures Inv(Next(w, s))
  {
    hide RunOk, MentionsRun;
    var w' := Next(w, s);
    AbsentIsUntouched(w, s.requestId);
    PutKeepsRuns(w, s.requestId, s.entry);
    forall c | c in w'.clients
      ensures ClientOk(w', c)
    {
      assert ClientOk(w, c);
    }
  }

  lemma ControlsFrame(d: Durable, r: RunId, control: RunControl, clients: map<ClientId, Client>, other: RunId, run: Run)
    requires RunOk(d, clients, other, run) && other != r
    ensures RunOk(d.(controls := d.controls[r := control]), clients, other, run)
  {
  }

  /** A request registered to one run is mentioned by no other. */
  lemma OtherRunsDoNotMention(w: World, r: RunId, q: RequestId, other: RunId)
    requires Inv(w) && q in w.durable.requests && EntryRun(w.durable.requests[q]) == r
    requires other in w.runs && other != r
    ensures !MentionsRun(w.runs[other], q)
  {
  }

  ghost predicate Extends(before: map<string, Receipt>, after: map<string, Receipt>) {
    forall e :: e in before ==> e in after && after[e] == before[e]
  }

  /** A step of one run that writes at most its own control keeps the whole
      invariant once that run is shown to keep its part. */
  lemma RunStepKeeps(w: World, w': World, r: RunId)
    requires Inv(w) && r in w.runs && r in w'.runs
    requires w' == World(w'.durable, w.runs[r := w'.runs[r]], w.clients, w.answers)
    requires w'.durable == w.durable ||
             (r in w'.durable.controls && w'.durable == w.durable.(controls := w.durable.controls[r := w'.durable.controls[r]]))
    requires RunOk(w'.durable, w.clients, r, w'.runs[r])
    requires forall q :: MentionsRun(w'.runs[r], q) ==> MentionsRun(w.runs[r], q)
    requires w'.runs[r].host.Some? ==> w.runs[r].host.Some? && Extends(w.runs[r].host.value.consumed, w'.runs[r].host.value.consumed)
    ensures Inv(w')
  {
    hide RunOk, MentionsRun, ClientOk;
    forall other | other in w'.runs
      ensures RunOk(w'.durable, w'.clients, other, w'.runs[other])
    {
      if other != r {
        if w'.durable != w.durable { ControlsFrame(w.durable, r, w'.durable.controls[r], w.clients, other, w.runs[other]); }
      }
    }
    forall c | c in w'.clients
      ensures ClientOk(w', c)
    {
      RunStepClient(w, w', r, c);
    }
  }

  lemma RunStepClient(w: World, w': World, r: RunId, c: ClientId)
    requires c in w.clients && ClientOk(w, c) && r in w.runs && r in w'.runs
    requires w'.clients == w.clients && w'.durable.requests == w.durable.requests && w'.runs == w.runs[r := w'.runs[r]]
    requires w'.runs[r].host.Some? ==> w.runs[r].host.Some? && Extends(w.runs[r].host.value.consumed, w'.runs[r].host.value.consumed)
    requires forall q :: MentionsRun(w'.runs[r], q) ==> MentionsRun(w.runs[r], q)
    ensures ClientOk(w', c)
  {
  }

  lemma QueueTailOk(requests: map<RequestId, Entry>, clients: map<ClientId, Client>, r: RunId, queue: seq<Message>)
    requires QueueOk(requests, clients, r, queue) && queue != []
    ensures QueueOk(requests, clients, r, queue[1..])
  {
  }

  lemma DroppedRunOk(d: Durable, clients: map<ClientId, Client>, r: RunId, run: Run)
    requires RunOk(d, clients, r, run) && run.host.Some? && run.queue != []
    ensures RunOk(d, clients, r, run.(queue := run.queue[1..]))
  {
    QueueTailOk(d.requests, clients, r, run.queue);
    assert forall i :: 0 <= i < |run.queue[1..]| ==> run.queue[1..][i] == run.queue[i + 1];
    assert FreshOk(d.requests, run.host.value, run.queue[1..]);
    hide QueueOk, DeliveriesOk, FreshOk, ConsumedOk, PendingOk, Answered;
  }

  lemma DropKeeps(w: World, s: Step)
    requires Inv(w) && s.Drop? && Enabled(w, s)
    ensures Inv(Next(w, s))
  {
    var r := s.runId;
    var run := w.runs[r];
    DroppedRunOk(w.durable, w.clients, r, run);
    TailMentions(run, run.(queue := run.queue[1..]));
    hide RunOk, MentionsRun, ClientOk;
    RunStepKeeps(w, Next(w, s), r);
  }

  lemma TailMentions(run: Run, run': Run)
    requires run'.queue == [] || (run.queue != [] && run'.queue == run.queue[1..])
    requires run'.deliveries == run.deliveries && (run'.host == run.host || run'.host.None?)
    ensures forall q :: MentionsRun(run', q) ==> MentionsRun(run, q)
  {
  }

  lemma SameMentions(run: Run, run': Run)
    requires run'.queue == run.queue && run'.deliveries == run.deliveries && run'.host == run.host
    ensures forall q :: MentionsRun(run', q) <==> MentionsRun(run, q)
  {
  }

  lemma StopWaitingKeeps(w: World, s: Step)
    requires Inv(w) && s.StopWaiting? && Enabled(w, s)
    ensures Inv(Next(w, s))
  {
    assert RunOk(w.durable, w.clients, s.runId, w.runs[s.runId]);
    RunStepKeeps(w, Next(w, s), s.runId);
  }

  lemma CrashKeeps(w: World, s: Step)
    requires Inv(w) && s.Crash? && Enabled(w, s)
    ensures Inv(Next(w, s))
  {
    assert RunOk(w.durable, w.clients, s.runId, w.runs[s.runId]);
    TailMentions(w.runs[s.runId], CrashedRun(w.runs[s.runId]));
    RunStepKeeps(w, Next(w, s), s.runId);
  }

  lemma CheckpointedDeliveries(requests: map<RequestId, Entry>, r: RunId, run: Run, result: Value)
    requires DeliveriesOk(requests, r, run.deliveries)
    requires run.host.Some? && OwedOk(requests, r, run) && run.stage.Quiet?
    ensures DeliveriesOk(requests, r, AfterDelivery(run, result))
    ensures |AfterDelivery(run, result)| == |run.deliveries|
    ensures forall i :: 0 <= i < |run.deliveries| ==>
              AfterDelivery(run, result)[i] == run.deliveries[i].(first := AfterDelivery(run, result)[i].first)
    ensures forall i :: 0 <= i < |run.deliveries| && run.deliveries[i].first.Some? ==>
              AfterDelivery(run, result)[i] == run.deliveries[i]
    ensures run.host.value.awaiting.None? ==> AfterDelivery(run, result) == run.deliveries
    ensures run.host.value.awaiting.Some? && run.host.value.awaiting.value.response.None? ==>
              AfterDelivery(run, result)[|run.deliveries| - 1].first == Some(result)
  {
    var n := |run.deliveries|;
    var after := AfterDelivery(run, result);
    if n > 0 && run.deliveries[n - 1].first.None? {
      assert !Answered(requests, r, run.deliveries[n - 1]);
      assert forall i :: 0 <= i < n - 1 ==> after[i] == run.deliveries[i];
      assert after[n - 1] == run.deliveries[n - 1].(first := Some(result));
      hide Answered, ReceiptOk, OwedOk;
      assert DeliveriesOk(requests, r, after);
    }
  }

  lemma CheckpointedConsumed(requests: map<RequestId, Entry>, r: RunId, h: HostState, before: seq<Delivery>, after: seq<Delivery>)
    requires ConsumedOk(requests, r, h, before) && |after| == |before|
    requires forall i :: 0 <= i < |before| ==> after[i].escalationId == before[i].escalationId && after[i].receipt == before[i].receipt
    ensures ConsumedOk(requests, r, h, after)
  {
  }

  lemma CheckpointedOwed(d: Durable, r: RunId, run: Run, result: Value, now: nat, pauseTimeout: nat)
    requires DeliveriesOk(d.requests, r, run.deliveries) && OrderOk(d, r, run)
    requires run.host.Some? && OwedOk(d.requests, r, run) && run.stage.Quiet?
    ensures OwedOk(d.requests, r, Checkpointed(run, result, now, pauseTimeout))
    ensures OrderOk(d, r, Checkpointed(run, result, now, pauseTimeout))
  {
    CheckpointedDeliveries(d.requests, r, run, result);
    hide DeliveriesOk;
  }

  lemma CheckpointedRunOk(d: Durable, clients: map<ClientId, Client>, r: RunId, run: Run, result: Value, now: nat, pauseTimeout: nat)
    requires RunOk(d, clients, r, run) && run.host.Some? && run.stage.Quiet? && run.waiting.None?
    ensures RunOk(d, clients, r, Checkpointed(run, result, now, pauseTimeout))
  {
    hide QueueOk, DeliveriesOk, FreshOk, ConsumedOk, OwedOk, OrderOk;
    var run' := Checkpointed(run, result, now, pauseTimeout);
    CheckpointedDeliveries(d.requests, r, run, result);
    CheckpointedConsumed(d.requests, r, run.host.value, run.deliveries, run'.deliveries);
    CheckpointedOwed(d, r, run, result, now, pauseTimeout);
    CheckpointedPending(d.requests, r, run.host.value, run'.host.value, run.deliveries, run'.deliveries, run.queue);
  }

  lemma CheckpointedPending(requests: map<RequestId, Entry>, r: RunId, h: HostState, h': HostState,
                            before: seq<Delivery>, after: seq<Delivery>, queue: seq<Message>)
    requires h'.consumed == h.consumed && h'.pending == h.pending && |after| == |before|
    requires forall i :: 0 <= i < |before| ==> after[i].escalationId == before[i].escalationId
    requires ConsumedOk(requests, r, h, after) && PendingOk(requests, r, h, before) && FreshOk(requests, h, queue)
    ensures ConsumedOk(requests, r, h', after) && PendingOk(requests, r, h', after) && FreshOk(requests, h', queue)
  {
  }

  lemma CheckpointedMentions(d: Durable, clients: map<ClientId, Client>, r: RunId, run: Run, result: Value, now: nat, pauseTimeout: nat)
    requires RunOk(d, clients, r, run) && run.host.Some? && run.stage.Quiet?
    ensures forall q :: MentionsRun(Checkpointed(run, result, now, pauseTimeout), q) ==> MentionsRun(run, q)
  {
    hide DeliveriesOk, QueueOk, ConsumedOk, PendingOk, OwedOk, FreshOk, OrderOk;
    CheckpointedDeliveries(d.requests, r, run, result);
  }

  lemma CheckpointKeeps(w: World, s: Step)
    requires Inv(w) && s.Checkpoint? && Enabled(w, s)
    ensures Inv(Next(w, s))
  {
    hide RunOk, ClientOk;
    var run := w.runs[s.runId];
    CheckpointedRunOk(w.durable, w.clients, s.runId, run, s.result, s.now, s.pauseTimeout);
    CheckpointedMentions(w.durable, w.clients, s.runId, run, s.result, s.now, s.pauseTimeout);
    RunStepKeeps(w, Next(w, s), s.runId);
  }

  lemma ReadDeadlineRunOk(d: Durable, clients: map<ClientId, Client>, r: RunId, run: Run, now: nat, pauseTimeout: nat)
    requires RunOk(d, clients, r, run) && run.host.Some? && run.stage.Quiet?
    ensures RunOk(d, clients, r, run.(host := Some(KeepDeadline(run.host.value, now, pauseTimeout))))
  {
    hide QueueOk, DeliveriesOk, Answered, ReceiptOk, IsDelivered, Open;
  }

  lemma ReadDeadlineMentions(run: Run, now: nat, pauseTimeout: nat)
    requires run.host.Some?
    ensures forall q :: MentionsRun(run.(host := Some(KeepDeadline(run.host.value, now, pauseTimeout))), q) ==> MentionsRun(run, q)
  {
  }

  lemma ReadDeadlineKeeps(w: World, s: Step)
    requires Inv(w) && s.ReadDeadline? && Enabled(w, s)
    ensures Inv(Next(w, s))
  {
    hide RunOk, ClientOk, MentionsRun;
    var run := w.runs[s.runId];
    ReadDeadlineRunOk(w.durable, w.clients, s.runId, run, s.now, s.pauseTimeout);
    ReadDeadlineMentions(run, s.now, s.pauseTimeout);
    RunStepKeeps(w, Next(w, s), s.runId);
  }

  lemma PublishControlKeeps(w: World, s: Step)
    requires Inv(w) && s.PublishControl? && Enabled(w, s)
    ensures Inv(Next(w, s))
  {
    var run := w.runs[s.runId];
    PublishedRunOk(w.durable, w.clients, s.runId, run, s.fault);
    SameMentions(run, PublishedRun(run, s.fault));
    hide RunOk, ClientOk, Inv, MentionsRun, Paused, EscalationOf;
    RunStepKeeps(w, Next(w, s), s.runId);
  }

  lemma PublishedRunOk(d: Durable, clients: map<ClientId, Client>, r: RunId, run: Run, fault: Fault)
    requires RunOk(d, clients, r, run) && run.host.Some? && run.stage.Writing?
    ensures run.stage.snapshot.runId == r
    ensures RunOk(WriteControl(d, run.stage.snapshot, fault), clients, r, PublishedRun(run, fault))
  {
  }

  lemma DeliveredConsumed(requests: map<RequestId, Entry>, r: RunId, run: Run)
    requires run.host.Some? && run.waiting.Some? && CanDeliver(run.host.value, run.waiting.value)
    requires ConsumedOk(requests, r, run.host.value, run.deliveries) && PendingOk(requests, r, run.host.value, run.deliveries)
    ensures ConsumedOk(requests, r, DeliveredRun(run).host.value, DeliveredRun(run).deliveries)
  {
    var deliveries, n, e0, h := DeliveredRun(run).deliveries, |run.deliveries|, run.waiting.value, run.host.value;
    forall e | e in h.consumed
      ensures IsDelivered(deliveries, e, h.consumed[e])
    {
      if e == e0 {
        assert deliveries[n].escalationId == e;
      } else {
        var i :| 0 <= i < n && run.deliveries[i].escalationId == e && run.deliveries[i].receipt == h.consumed[e];
        assert deliveries[i] == run.deliveries[i];
      }
    }
  }

  lemma DeliveredRunOk(d: Durable, clients: map<ClientId, Client>, r: RunId, run: Run)
    requires RunOk(d, clients, r, run) && run.host.Some? && run.waiting.Some? && CanDeliver(run.host.value, run.waiting.value)
    ensures RunOk(d, clients, r, DeliveredRun(run))
  {
    var run', n := DeliveredRun(run), |run.deliveries|;
    DeliveredConsumed(d.requests, r, run);
    assert forall i :: 0 <= i < n ==> run'.deliveries[i] == run.deliveries[i];
    assert ReceiptOk(d.requests, r, run.waiting.value, run.host.value.consumed[run.waiting.value]);
    hide ConsumedOk, QueueOk, Answered, ReceiptOk, IsDelivered;
    assert DeliveriesOk(d.requests, r, run'.deliveries);
    assert OwedOk(d.requests, r, run');
    assert OrderOk(d, r, run');
  }

  lemma DeliverKeeps(w: World, s: Step)
    requires Inv(w) && s.DeliverResume? && Enabled(w, s)
    ensures Inv(Next(w, s))
  {
    var run := w.runs[s.runId];
    DeliveredRunOk(w.durable, w.clients, s.runId, run);
    DeliveredMentions(w.durable, w.clients, s.runId, run);
    RunStepKeeps(w, Next(w, s), s.runId);
  }

  lemma DeliveredMentions(d: Durable, clients: map<ClientId, Client>, r: RunId, run: Run)
    requires RunOk(d, clients, r, run) && run.host.Some? && run.waiting.Some? && CanDeliver(run.host.value, run.waiting.value)
    ensures forall q :: MentionsRun(DeliveredRun(run), q) ==> MentionsRun(run, q)
  {
  }

  lemma ReconcileKeeps(w: World, s: Step)
    requires Inv(w) && s.ReconcileLoss? && Enabled(w, s)
    ensures Inv(Next(w, s))
  {
    var r := s.runId;
    assert RunOk(w.durable, w.clients, r, w.runs[r]);
    var w' := Next(w, s);
    assert OrderOk(w'.durable, r, w'.runs[r]);
    RunStepKeeps(w, w', r);
  }

  lemma BootstrappedRun(w: World, s: Step)
    requires s.Bootstrap? && Enabled(w, s)
    ensures var r, w' := s.runId, Next(w, s);
            && r in w'.durable.controls && r in w'.runs && w' == World(w'.durable, w.runs[r := w'.runs[r]], w.clients, w.answers)
            && w'.durable == w.durable.(controls := w.durable.controls[r := w'.durable.controls[r]])
            && RunOk(w'.durable, w'.clients, r, w'.runs[r]) && forall q :: !MentionsRun(w'.runs[r], q)
  {
  }

  lemma NewRunClient(w: World, w': World, r: RunId, c: ClientId)
    requires c in w.clients && ClientOk(w, c) && r !in w.runs && r in w'.runs && forall q :: !MentionsRun(w'.runs[r], q)
    requires w'.clients == w.clients && w'.durable.requests == w.durable.requests && w'.runs == w.runs[r := w'.runs[r]]
    ensures ClientOk(w', c)
  {
    hide MentionsRun, Registered, Open;
  }

  lemma BootstrapKeeps(w: World, s: Step)
    requires Inv(w) && s.Bootstrap? && Enabled(w, s)
    ensures Inv(Next(w, s))
  {
    var r := s.runId;
    var w' := Next(w, s);
    assert r !in w.runs;
    BootstrappedRun(w, s);
    hide Next, Enabled, RunOk, MentionsRun, ClientOk;
    forall other | other in w'.runs
      ensures RunOk(w'.durable, w'.clients, other, w'.runs[other])
    {
      if other != r { ControlsFrame(w.durable, r, w'.durable.controls[r], w.clients, other, w.runs[other]); }
    }
    forall c | c in w'.clients
      ensures ClientOk(w', c)
    {
      NewRunClient(w, w', r, c);
    }
  }

  /** The response that a publication step may write answers exactly the last delivery. */
  lemma OwedResponse(d: Durable, clients: map<ClientId, Client>, r: RunId, run: Run, isSealed: bool, fault: Fault)
    requires RunOk(d, clients, r, run) && run.host.Some? && run.stage.Responding?
    ensures var a := Respond(run.host.value, d, run.stage.result, isSealed, fault);
            a.durable == d ||
            (run.deliveries != [] &&
             var last := run.deliveries[|run.deliveries| - 1];
             last.first.Some? && ExitCode(last.first.value).Some? && run.host.value.awaiting.Some? &&
             ReceiptOk(d.requests, r, last.escalationId, last.receipt) &&
             Open(map[], run.host.value.consumed, last.receipt) &&
             (d.requests[last.receipt.requestId].Complete? ==>
                d.requests[last.receipt.requestId].record == ResponseRecord(r, last.receipt, last.first.value)) &&
             a.durable == d.(requests := d.requests[last.receipt.requestId := Complete(ResponseRecord(r, last.receipt, last.first.value))]))
  {
  }

  lemma AnsweredMentions(run: Run, d: Durable, isSealed: bool, fault: Fault)
    requires run.host.Some? && run.stage.Responding?
    ensures forall q :: MentionsRun(AnsweredRun(run, Respond(run.host.value, d, run.stage.result, isSealed, fault)), q) ==> MentionsRun(run, q)
  {
  }

  lemma AnsweredDeliveries(requests: map<RequestId, Entry>, r: RunId, deliveries: seq<Delivery>)
    requires DeliveriesOk(requests, r, deliveries) && deliveries != []
    requires deliveries[|deliveries| - 1].first.Some? && ExitCode(deliveries[|deliveries| - 1].first.value).Some?
    ensures var last := deliveries[|deliveries| - 1];
            var after := requests[last.receipt.requestId := Complete(ResponseRecord(r, last.receipt, last.first.value))];
            DeliveriesOk(after, r, deliveries) && forall i :: 0 <= i < |deliveries| ==> Answered(after, r, deliveries[i])
  {
    var last := deliveries[|deliveries| - 1];
    var after := requests[last.receipt.requestId := Complete(ResponseRecord(r, last.receipt, last.first.value))];
    assert ReceiptOk(requests, r, last.escalationId, last.receipt);
    forall i | 0 <= i < |deliveries|
      ensures ReceiptOk(after, r, deliveries[i].escalationId, deliveries[i].receipt) && Answered(after, r, deliveries[i])
    {
      assert ReceiptOk(requests, r, deliveries[i].escalationId, deliveries[i].receipt);
      if i < |deliveries| - 1 {
        assert deliveries[i].receipt.requestId != last.receipt.requestId;
        assert Answered(requests, r, deliveries[i]);
      }
    }
  }

  lemma AnsweredConsumed(requests: map<RequestId, Entry>, r: RunId, h: HostState, deliveries: seq<Delivery>)
    requires DeliveriesOk(requests, r, deliveries) && deliveries != []
    requires ConsumedOk(requests, r, h, deliveries) && PendingOk(requests, r, h, deliveries)
    requires deliveries[|deliveries| - 1].first.Some? && ExitCode(deliveries[|deliveries| - 1].first.value).Some?
    ensures var last := deliveries[|deliveries| - 1];
            var after := requests[last.receipt.requestId := Complete(ResponseRecord(r, last.receipt, last.first.value))];
            ConsumedOk(after, r, h, deliveries) && PendingOk(after, r, h, deliveries)
  {
    var last := deliveries[|deliveries| - 1];
    var after := requests[last.receipt.requestId := Complete(ResponseRecord(r, last.receipt, last.first.value))];
    assert ReceiptOk(requests, r, last.escalationId, last.receipt);
    forall e | e in h.consumed
      ensures ReceiptOk(after, r, e, h.consumed[e])
    {
      assert ReceiptOk(requests, r, e, h.consumed[e]);
    }
    if h.pending.Some? {
      assert ReceiptOk(requests, r, h.pending.value.request.escalationId, h.pending.value.receipt);
    }
  }

  lemma AnsweredQueue(requests: map<RequestId, Entry>, clients: map<ClientId, Client>, r: RunId, queue: seq<Message>, q: RequestId, record: Record)
    requires QueueOk(requests, clients, r, queue)
    requires q in requests && EntryDigest(requests[q]) == record.digest && EntryRun(requests[q]) == record.runId
    ensures QueueOk(requests[q := Complete(record)], clients, r, queue)
  {
  }

  lemma AnsweredFresh(requests: map<RequestId, Entry>, clients: map<ClientId, Client>, r: RunId, h: HostState,
                      queue: seq<Message>, receipt: Receipt, entry: Entry)
    requires QueueOk(requests, clients, r, queue) && FreshOk(requests, h, queue)
    requires Registered(requests, r, receipt.requestId, receipt.digest) && Open(map[], h.consumed, receipt)
    ensures FreshOk(requests[receipt.requestId := entry], h, queue)
  {
  }

  /** An answer that leaves the durable state alone leaves what is owed and the durable order alone. */
  lemma UnwrittenOwed(d: Durable, r: RunId, run: Run, isSealed: bool, fault: Fault)
    requires run.host.Some? && run.stage.Responding? && OwedOk(d.requests, r, run) && OrderOk(d, r, run)
    requires DeliveriesOk(d.requests, r, run.deliveries)
    requires Respond(run.host.value, d, run.stage.result, isSealed, fault).durable == d
    ensures var run' := AnsweredRun(run, Respond(run.host.value, d, run.stage.result, isSealed, fault));
            OwedOk(d.requests, r, run') && OrderOk(d, r, run')
  {
    hide ReceiptOk;
  }

  lemma AnsweredRunOk(d: Durable, clients: map<ClientId, Client>, r: RunId, run: Run, isSealed: bool, fault: Fault)
    requires RunOk(d, clients, r, run) && run.host.Some? && run.stage.Responding?
    ensures var a := Respond(run.host.value, d, run.stage.result, isSealed, fault);
            RunOk(a.durable, clients, r, AnsweredRun(run, a))
  {
    var a := Respond(run.host.value, d, run.stage.result, isSealed, fault);
    if a.durable == d {
      UnwrittenOwed(d, r, run, isSealed, fault);
      hide DeliveriesOk, QueueOk, FreshOk, ConsumedOk, PendingOk, OwedOk, OrderOk, ExitCode;
      HostPartsSame(d.requests, r, run.host.value, a.host, run.deliveries, run.queue);
    } else {
      WrittenRunOk(d, clients, r, run, isSealed, fault);
    }
  }

  /** Once every delivery is answered, what is owed and the durable order hold whatever the write reported. */
  lemma WrittenOwed(requests: map<RequestId, Entry>, d: Durable, r: RunId, run: Run, isSealed: bool, fault: Fault)
    requires run.host.Some? && run.stage.Responding? && OwedOk(requests, r, run)
    requires forall i :: 0 <= i < |run.deliveries| ==> Answered(requests, r, run.deliveries[i]) 
    ensures OwedOk(requests, r, AnsweredRun(run, Respond(run.host.value, d, run.stage.result, isSealed, fault)))
  {
  }

  lemma WrittenOrder(d: Durable, d': Durable, r: RunId, run: Run, isSealed: bool, fault: Fault)
    requires run.host.Some? && run.stage.Responding? && OrderOk(d, r, run) && d'.controls == d.controls
    requires forall i :: 0 <= i < |run.deliveries| ==> Answered(d'.requests, r, run.deliveries[i])
    ensures OrderOk(d', r, AnsweredRun(run, Respond(run.host.value, d, run.stage.result, isSealed, fault)))
  {
  }

  lemma AnsweredOwed(requests: map<RequestId, Entry>, after: map<RequestId, Entry>, r: RunId, run: Run)
    requires run.host.Some? && run.host.value.awaiting.Some? && OwedOk(requests, r, run)
    ensures OwedOk(after, r, run)
  {
  }

  lemma WrittenRunOk(d: Durable, clients: map<ClientId, Client>, r: RunId, run: Run, isSealed: bool, fault: Fault)
    requires RunOk(d, clients, r, run) && run.host.Some? && run.stage.Responding?
    requires Respond(run.host.value, d, run.stage.result, isSealed, fault).durable != d
    ensures var a := Respond(run.host.value, d, run.stage.result, isSealed, fault);
            RunOk(a.durable, clients, r, AnsweredRun(run, a))
  {
    hide DeliveriesOk, QueueOk, FreshOk, Answered, ConsumedOk, PendingOk, OwedOk, OrderOk, Open;
    var a := Respond(run.host.value, d, run.stage.result, isSealed, fault);
    var run' := AnsweredRun(run, a);
    OwedResponse(d, clients, r, run, isSealed, fault);
    var last := run.deliveries[|run.deliveries| - 1];
    AnsweredDeliveries(d.requests, r, run.deliveries);
    AnsweredConsumed(d.requests, r, run.host.value, run.deliveries);
    AnsweredQueue(d.requests, clients, r, run.queue, last.receipt.requestId, ResponseRecord(r, last.receipt, last.first.value));
    AnsweredFresh(d.requests, clients, r, run.host.value, run.queue, last.receipt, Complete(ResponseRecord(r, last.receipt, last.first.value)));
    AnsweredOwed(d.requests, a.durable.requests, r, run);
    WrittenOwed(a.durable.requests, d, r, run, isSealed, fault);
    WrittenOrder(d, a.durable, r, run, isSealed, fault);
    HostPartsSame(a.durable.requests, r, run.host.value, a.host, run.deliveries, run.queue);
  }

  /** What a host owes plays no part in its consumption, its pending resume or its queue. */
  lemma HostPartsSame(requests: map<RequestId, Entry>, r: RunId, h: HostState, h': HostState, deliveries: seq<Delivery>, queue: seq<Message>)
    requires h'.consumed == h.consumed && h'.pending == h.pending
    requires ConsumedOk(requests, r, h, deliveries) && PendingOk(requests, r, h, deliveries) && FreshOk(requests, h, queue)
    ensures ConsumedOk(requests, r, h', deliveries) && PendingOk(requests, r, h', deliveries) && FreshOk(requests, h', queue)
  {
  }

  /** The response reaches the durable record of the last delivery and of nothing else. */
  lemma ResponseWritten(w: World, r: RunId, q: RequestId, record: Record, run': Run)
    requires Inv(w) && Live(w, r) && q in w.durable.requests
    requires run'.host.Some? && run'.host.value.consumed == w.runs[r].host.value.consumed
    requires Open(map[], run'.host.value.consumed, Receipt(q, record.digest))
    requires record.digest.ResumeDigest? && record.digest == EntryDigest(w.durable.requests[q])
    requires EntryRun(w.durable.requests[q]) == r == record.runId
    requires w.durable.requests[q].Complete? ==> w.durable.requests[q].record == record
    requires RunOk(w.durable.(requests := w.durable.requests[q := Complete(record)]), w.clients, r, run')
    requires forall other :: MentionsRun(run', other) ==> MentionsRun(w.runs[r], other)
    ensures Inv(World(w.durable.(requests := w.durable.requests[q := Complete(record)]), w.runs[r := run'], w.clients, w.answers))
  {
    var w' := World(w.durable.(requests := w.durable.requests[q := Complete(record)]), w.runs[r := run'], w.clients, w.answers);
    hide RunOk, MentionsRun;
    forall other | other in w'.runs
      ensures RunOk(w'.durable, w'.clients, other, w'.runs[other])
    {
      if other != r {
        OtherRunsDoNotMention(w, r, q, other);
        RequestsFrame(w.durable, q, Complete(record), w.clients, other, w.runs[other]);
      }
    }
    forall c | c in w'.clients
      ensures ClientOk(w', c)
    {
      ResponseWrittenClient(w, w', r, q, record, c);
    }
  }

  lemma ResponseWrittenClient(w: World, w': World, r: RunId, q: RequestId, record: Record, c: ClientId)
    requires c in w.clients && ClientOk(w, c) && Live(w, r) && Live(w', r) && q in w.durable.requests
    requires w' == World(w.durable.(requests := w.durable.requests[q := Complete(record)]), w.runs[r := w'.runs[r]], w.clients, w.answers)
    requires record.digest == EntryDigest(w.durable.requests[q]) && EntryRun(w.durable.requests[q]) == r == record.runId
    requires w'.runs[r].host.value.consumed == w.runs[r].host.value.consumed
    requires Open(map[], w'.runs[r].host.value.consumed, Receipt(q, record.digest))
    requires forall other :: MentionsRun(w'.runs[r], other) ==> MentionsRun(w.runs[r], other)
    ensures ClientOk(w', c)
  {
  }

  lemma AnswerResumeKeeps(w: World, s: Step)
    requires Inv(w) && s.AnswerResume? && Enabled(w, s)
    ensures Inv(Next(w, s))
  {
    var r := s.runId;
    var run := w.runs[r];
    var a := Respond(run.host.value, w.durable, run.stage.result, s.isSealed, s.fault);
    var run' := AnsweredRun(run, a);
    hide RunOk, ClientOk, MentionsRun;
    assert Next(w, s) == World(a.durable, w.runs[r := run'], w.clients, w.answers);
    AnsweredRunOk(w.durable, w.clients, r, run, s.isSealed, s.fault);
    AnsweredMentions(run, w.durable, s.isSealed, s.fault);
    OwedResponse(w.durable, w.clients, r, run, s.isSealed, s.fault);
    if a.durable == w.durable {
      RunStepKeeps(w, World(a.durable, w.runs[r := run'], w.clients, w.answers), r);
    } else {
      var last := run.deliveries[|run.deliveries| - 1];
      ResponseWritten(w, r, last.receipt.requestId, ResponseRecord(r, last.receipt, last.first.value), run');
    }
  }

  ghost predicate MaySend(w: World, c: ClientId) {
    At(w, c, Ready) && w.clients[c].command.Resume? && Live(w, w.clients[c].command.runId)
  }

  lemma SentRuns(w: World, c: ClientId, r: RunId)
    requires Inv(w) && MaySend(w, c) && r in w.runs
    ensures RunOk(Sent(w, c).durable, Sent(w, c).clients, r, Sent(w, c).runs[r])
  {
    if r == w.clients[c].command.runId {
      SentRunOk(w, c);
    } else {
      assert RunOk(w.durable, w.clients, r, w.runs[r]);
      hide RunOk, Inv;
      ClientsFrame(w.durable, w.clients, Sent(w, c).clients, r, w.runs[r]);
    }
  }

  lemma SendKeeps(w: World, c: ClientId)
    requires Inv(w) && MaySend(w, c)
    ensures Inv(Sent(w, c))
  {
    hide RunOk, ClientOk;
    var w' := Sent(w, c);
    forall r | r in w'.runs
      ensures RunOk(w'.durable, w'.clients, r, w'.runs[r])
    {
      SentRuns(w, c, r);
    }
    forall other | other in w'.clients
      ensures ClientOk(w', other)
    {
      SentClient(w, c, other);
    }
  }

  lemma SentMentions(w: World, c: ClientId)
    requires MaySend(w, c)
    ensures var r := w.clients[c].command.runId;
            forall q :: MentionsRun(Sent(w, c).runs[r], q) ==> MentionsRun(w.runs[r], q) || q == w.clients[c].requestId
  {
  }

  lemma SentClient(w: World, c: ClientId, other: ClientId)
    requires LocksOk(w.clients) && MaySend(w, c) && other in w.clients && ClientOk(w, other) && ClientOk(w, c)
    ensures ClientOk(Sent(w, c), other)
  {
    SentMentions(w, c);
    hide MentionsRun, Registered, Open;
  }

  /** The lock holder's frame joins the queue behind every older frame of its request, all of whose
      senders are gone. */
  lemma SentQueueOk(w: World, c: ClientId)
    requires MaySend(w, c) && ClientOk(w, c) && LocksOk(w.clients)
    requires QueueOk(w.durable.requests, w.clients, w.clients[c].command.runId, w.runs[w.clients[c].command.runId].queue)
    ensures var r := w.clients[c].command.runId;
            QueueOk(w.durable.requests, Sent(w, c).clients, r, Sent(w, c).runs[r].queue)
  {
    var queue := w.runs[w.clients[c].command.runId].queue;
    assert forall i :: 0 <= i < |queue| ==> queue[i].sender != c;
    assert forall i :: 0 <= i < |queue| && queue[i].requestId == w.clients[c].requestId ==> w.clients[queue[i].sender].phase == Done;
  }

  lemma SentFresh(w: World, c: ClientId)
    requires MaySend(w, c) && ClientOk(w, c)
    requires FreshOk(w.durable.requests, w.runs[w.clients[c].command.runId].host.value, w.runs[w.clients[c].command.runId].queue)
    ensures var r := w.clients[c].command.runId;
            FreshOk(w.durable.requests, w.runs[r].host.value, Sent(w, c).runs[r].queue)
  {
  }

  lemma SentRunOk(w: World, c: ClientId)
    requires Inv(w) && MaySend(w, c)
    ensures var w' := Sent(w, c);
            RunOk(w'.durable, w'.clients, w.clients[c].command.runId, w'.runs[w.clients[c].command.runId])
  {
    hide QueueOk, DeliveriesOk, FreshOk, ConsumedOk, PendingOk, Answered, ClientOk, MentionsRun;
    var r := w.clients[c].command.runId;
    assert RunOk(w.durable, w.clients, r, w.runs[r]);
    SentQueueOk(w, c);
    SentFresh(w, c);
  }

  lemma ServedConsumed(requests: map<RequestId, Entry>, r: RunId, h: HostState, d: Durable, receipt: Receipt, request: Disposition,
                       fault: Fault, deliveries: seq<Delivery>)
    requires ConsumedOk(requests, r, h, deliveries) && PendingOk(requests, r, h, deliveries)
    requires ReceiptOk(requests, r, request.escalationId, receipt) && receipt.digest == ResumeDigest(r, request)
    requires Open(requests, h.consumed, receipt)
    ensures var a := Admit(h, d, receipt, request, fault);
            ConsumedOk(requests, r, a.host, deliveries) && PendingOk(requests, r, a.host, deliveries)
  {
    hide PausedAt;
  }

  lemma ServedFresh(requests: map<RequestId, Entry>, h: HostState, d: Durable, receipt: Receipt, request: Disposition, fault: Fault, queue: seq<Message>)
    requires FreshOk(requests, h, queue)
    ensures FreshOk(requests, Admit(h, d, receipt, request, fault).host, queue)
  {
  }

  lemma ServedOrder(d: Durable, r: RunId, run: Run, receipt: Receipt, request: Disposition, fault: Fault, queue: seq<Message>)
    requires run.host.Some? && run.stage.Quiet? && run.host.value.run.runId == r
    requires OrderOk(d, r, run) && OwedOk(d.requests, r, run) && DeliveriesOk(d.requests, r, run.deliveries)
    ensures var a := Admit(run.host.value, d, receipt, request, fault);
            var run' := run.(host := Some(a.host), queue := queue);
            OrderOk(a.durable, r, run') && OwedOk(a.durable.requests, r, run') && a.durable.requests == d.requests
  {
    hide Answered, PausedAt;
  }

  lemma TailFresh(requests: map<RequestId, Entry>, h: HostState, queue: seq<Message>)
    requires FreshOk(requests, h, queue) && queue != []
    ensures FreshOk(requests, h, queue[1..])
  {
  }

  /** Serving a frame keeps the run's part: a new admission is registered, pending and undelivered. */
  lemma ServedRunOk(d: Durable, clients: map<ClientId, Client>, r: RunId, run: Run, fault: Fault)
    requires RunOk(d, clients, r, run) && run.host.Some? && run.stage.Quiet? && run.queue != []
    ensures var m := run.queue[0];
            var a := Admit(run.host.value, d, Receipt(m.requestId, m.digest), m.disposition, fault);
            RunOk(a.durable, clients, r, run.(host := Some(a.host), queue := run.queue[1..]))
  {
    var m := run.queue[0];
    var receipt := Receipt(m.requestId, m.digest);
    assert ReceiptOk(d.requests, r, m.disposition.escalationId, receipt) && m.digest == ResumeDigest(r, m.disposition) by {
      assert Registered(d.requests, r, m.requestId, m.digest);
    }
    assert Open(d.requests, run.host.value.consumed, receipt);
    hide DeliveriesOk, QueueOk, FreshOk, ConsumedOk, PendingOk, OwedOk, OrderOk, Open, ReceiptOk;
    QueueTailOk(d.requests, clients, r, run.queue);
    TailFresh(d.requests, run.host.value, run.queue);
    ServedConsumed(d.requests, r, run.host.value, d, receipt, m.disposition, fault, run.deliveries);
    ServedFresh(d.requests, run.host.value, d, receipt, m.disposition, fault, run.queue[1..]);
    ServedOrder(d, r, run, receipt, m.disposition, fault, run.queue[1..]);
  }

  /** What serving does to the run, before the reply is delivered. */
  function Served(w: World, r: RunId, fault: Fault): World
    requires Live(w, r) && w.runs[r].queue != []
  {
    var run := w.runs[r];
    var m := run.queue[0];
    var a := Admit(run.host.value, w.durable, Receipt(m.requestId, m.digest), m.disposition, fault);
    SetRun(w.(durable := a.durable), r, run.(host := Some(a.host), queue := run.queue[1..]))
  }

  lemma ServedMentions(w: World, r: RunId, fault: Fault)
    requires Live(w, r) && w.runs[r].queue != []
    ensures forall q :: MentionsRun(Served(w, r, fault).runs[r], q) ==> MentionsRun(w.runs[r], q)
  {
  }

  lemma ServedKeeps(w: World, r: RunId, fault: Fault)
    requires Inv(w) && Live(w, r) && w.runs[r].stage.Quiet? && w.runs[r].queue != []
    ensures Inv(Served(w, r, fault))
  {
    hide MentionsRun, ClientOk, QueueOk, DeliveriesOk, FreshOk, ConsumedOk, PendingOk, OwedOk, OrderOk, PausedAt;
    assert RunOk(w.durable, w.clients, r, w.runs[r]) && w.runs[r].host.value.run.runId == r;
    hide RunOk, Inv;
    ServedRunOk(w.durable, w.clients, r, w.runs[r], fault);
    ServedMentions(w, r, fault);
    RunStepKeeps(w, Served(w, r, fault), r);
  }

  /** The reply to the only frame of its request: nothing of that request remains queued, and a stale
      reply means the host holds no receipt of it. */
  lemma StaleIsUntouched(w: World, r: RunId, fault: Fault)
    requires Inv(w) && Live(w, r) && w.runs[r].stage.Quiet? && w.runs[r].queue != []
    requires At(w, w.runs[r].queue[0].sender, Waiting)
    requires var m := w.runs[r].queue[0];
             Admit(w.runs[r].host.value, w.durable, Receipt(m.requestId, m.digest), m.disposition, fault).outcome == Stale
    ensures Untouched(Served(w, r, fault).runs, w.runs[r].queue[0].requestId)
  {
    var m := w.runs[r].queue[0];
    var w' := Served(w, r, fault);
    StaleLeavesRun(w.durable, w.clients, r, w.runs[r], fault);
    assert EntryRun(w.durable.requests[m.requestId]) == r && m.requestId in w.durable.requests by {
      assert RunOk(w.durable, w.clients, r, w.runs[r]);
      assert Registered(w.durable.requests, r, m.requestId, m.digest);
    }
    hide MentionsRun, RunOk, ClientOk;
    forall other | other in w'.runs
      ensures !MentionsRun(w'.runs[other], m.requestId)
    {
      if other != r { OtherRunsDoNotMention(w, r, m.requestId, other); }
    }
  }

  lemma StaleLeavesRun(d: Durable, clients: map<ClientId, Client>, r: RunId, run: Run, fault: Fault)
    requires RunOk(d, clients, r, run) && run.host.Some? && run.queue != []
    requires run.queue[0].sender in clients && clients[run.queue[0].sender].phase == Waiting
    requires var m := run.queue[0];
             Admit(run.host.value, d, Receipt(m.requestId, m.digest), m.disposition, fault).outcome == Stale
    ensures var m := run.queue[0];
            var a := Admit(run.host.value, d, Receipt(m.requestId, m.digest), m.disposition, fault);
            !MentionsRun(run.(host := Some(a.host), queue := run.queue[1..]), m.requestId)
  {
  }

  lemma ReplyKeeps(w: World, c: ClientId, phase: Phase)
    requires Inv(w) && At(w, c, Waiting)
    requires phase == Awaiting || phase == Done || (phase == Rejected && Untouched(w.runs, w.clients[c].requestId))
    requires forall r :: r in w.runs ==> forall i :: 0 <= i < |w.runs[r].queue| ==> w.runs[r].queue[i].sender != c
    ensures Inv(Move(w, c, phase))
  {
    var w' := Move(w, c, phase);
    forall r | r in w'.runs
      ensures RunOk(w'.durable, w'.clients, r, w'.runs[r])
    {
      RepliedQueue(w.durable.requests, w.clients, w'.clients, c, r, w.runs[r]);
    }
    forall other | other in w'.clients
      ensures ClientOk(w', other)
    {
      assert ClientOk(w, other);
    }
  }

  lemma RepliedQueue(requests: map<RequestId, Entry>, before: map<ClientId, Client>, after: map<ClientId, Client>, c: ClientId, r: RunId, run: Run)
    requires QueueOk(requests, before, r, run.queue) && c in before && c in after && after == before[c := after[c]]
    requires forall i :: 0 <= i < |run.queue| ==> run.queue[i].sender != c
    ensures QueueOk(requests, after, r, run.queue)
  {
  }

  lemma ServeKeeps(w: World, s: Step)
    requires Inv(w) && s.Serve? && Enabled(w, s)
    ensures Inv(Next(w, s))
  {
    var r := s.runId;
    var m := w.runs[r].queue[0];
    ServedKeeps(w, r, s.fault);
    if At(w, m.sender, Waiting) {
      var a := Admit(w.runs[r].host.value, w.durable, Receipt(m.requestId, m.digest), m.disposition, s.fault);
      assert w.clients[m.sender].requestId == m.requestId by { assert RunOk(w.durable, w.clients, r, w.runs[r]); }
      SenderIsGone(w, r, s.fault);
      if a.outcome == Stale { StaleIsUntouched(w, r, s.fault); }
      hide Inv, Untouched;
      ReplyKeeps(Served(w, r, s.fault), m.sender, Next(w, s).clients[m.sender].phase);
    }
  }

  lemma SenderIsGone(w: World, r: RunId, fault: Fault)
    requires Inv(w) && Live(w, r) && w.runs[r].queue != [] && At(w, w.runs[r].queue[0].sender, Waiting)
    ensures var w' := Served(w, r, fault);
            forall other :: other in w'.runs ==> forall i :: 0 <= i < |w'.runs[other].queue| ==>
              w'.runs[other].queue[i].sender != w.runs[r].queue[0].sender
  {
    var w' := Served(w, r, fault);
    var m := w.runs[r].queue[0];
    assert RunOk(w.durable, w.clients, r, w.runs[r]);
    forall other, i | other in w'.runs && 0 <= i < |w'.runs[other].queue|
      ensures w'.runs[other].queue[i].sender != m.sender
    {
      assert RunOk(w.durable, w.clients, other, w.runs[other]);
      var n := if other == r then w.runs[r].queue[i + 1] else w.runs[other].queue[i];
      assert Registered(w.durable.requests, other, n.requestId, n.digest);
      assert Registered(w.durable.requests, r, m.requestId, m.digest);
    }
  }

  lemma SendStepKeeps(w: World, c: ClientId)
    requires Inv(w) && Enabled(w, Send(c))
    ensures Inv(Next(w, Send(c)))
  {
    hide Inv;
    SendKeeps(w, c);
  }

  lemma NextKeepsInv(w: World, s: Step)
    requires Inv(w) && Enabled(w, s)
    ensures Inv(Next(w, s))
  {
    hide Inv, Next;
    match s
    case Arrive(_, _, _) => ArriveKeeps(w, s);
    case Leave(_) => MoveStepKeeps(w, s);
    case AnswerPrior(_) => MoveStepKeeps(w, s);
    case FindIntent(_) => MoveStepKeeps(w, s);
    case RecordIntent(_, _) => PutKeeps(w, s);
    case RejectTerminal(_, _) => PutKeeps(w, s);
    case Send(c) => SendStepKeeps(w, c);
    case PersistStale(_, _) => PutKeeps(w, s);
    case AnswerComplete(_) => MoveStepKeeps(w, s);
    case StartAbort(_) => MoveStepKeeps(w, s);
    case FinishAbort(_, _) => PutKeeps(w, s);
    case JobRequest(_, _) => JobKeeps(w, s);
    case Bootstrap(_, _) => BootstrapKeeps(w, s);
    case Serve(_, _) => ServeKeeps(w, s);
    case Drop(_) => DropKeeps(w, s);
    case Checkpoint(_, _, _, _) => CheckpointKeeps(w, s);
    case ReadDeadline(_, _, _) => ReadDeadlineKeeps(w, s);
    case AnswerResume(_, _, _) => AnswerResumeKeeps(w, s);
    case PublishControl(_, _) => PublishControlKeeps(w, s);
    case DeliverResume(_) => DeliverKeeps(w, s);
    case StopWaiting(_) => StopWaitingKeeps(w, s);
    case Crash(_) => CrashKeeps(w, s);
    case ReconcileLoss(_, _) => ReconcileKeeps(w, s);
  }

  // ----- what every run guarantees

  const Start := World(Durable(map[], map[]), map[], map[], {})

  predicate IsRun(w: World, steps: seq<Step>)
    decreases |steps|
  {
    steps == [] || (Enabled(w, steps[0]) && IsRun(Next(w, steps[0]), steps[1..]))
  }

  function After(w: World, steps: seq<Step>): World
    requires IsRun(w, steps)
    decreases |steps|
  {
    if steps == [] then w else After(Next(w, steps[0]), steps[1..])
  }

  lemma {:induction false} RunKeepsInv(w: World, steps: seq<Step>)
    requires Inv(w) && IsRun(w, steps)
    ensures Inv(After(w, steps))
    decreases |steps|
  {
    if steps != [] {
      NextKeepsInv(w, steps[0]);
      RunKeepsInv(Next(w, steps[0]), steps[1..]);
    }
  }

  ghost predicate Reachable(w: World) {
    exists steps :: IsRun(Start, steps) && After(Start, steps) == w
  }

  lemma ReachableInv(w: World)
    requires Reachable(w)
    ensures Inv(w)
  {
    var steps :| IsRun(Start, steps) && After(Start, steps) == w;
    RunKeepsInv(Start, steps);
  }

  predicate ControlRequest(e: Option<Entry>) {
    e.Some? && !EntryDigest(e.value).JobDigest?
  }

  lemma OnlyWritersWrite(w: World, s: Step)
    requires Enabled(w, s) && !PutStep(s) && !s.JobRequest? && !s.AnswerResume?
    ensures Next(w, s).durable.requests == w.durable.requests
  {
    hide PausedAt, Paused, AfterDelivery, Advance, Terminal, EscalationOf;
  }

  lemma PutAdvances(w: World, s: Step, q: RequestId)
    requires Enabled(w, s) && PutStep(s) && ClientOk(w, s.client) && ControlRequest(Lookup(w.durable, q))
    ensures Advances(Lookup(w.durable, q), Lookup(Next(w, s).durable, q))
  {
    hide Untouched, Open, Terminal, ExitCode;
  }

  lemma AnswerAdvances(w: World, s: Step, q: RequestId)
    requires Enabled(w, s) && s.AnswerResume? && RunOk(w.durable, w.clients, s.runId, w.runs[s.runId])
    ensures Advances(Lookup(w.durable, q), Lookup(Next(w, s).durable, q))
  {
    var run := w.runs[s.runId];
    OwedResponse(w.durable, w.clients, s.runId, run, s.isSealed, s.fault);
    hide RunOk, Open, ExitCode;
    assert Next(w, s).durable == Respond(run.host.value, w.durable, run.stage.result, s.isSealed, s.fault).durable;
    hide Next, Respond;
  }

  /** One step moves a resume or abort request only forward. */
  lemma StepAdvances(w: World, s: Step, q: RequestId)
    requires Inv(w) && Enabled(w, s) && ControlRequest(Lookup(w.durable, q))
    ensures Advances(Lookup(w.durable, q), Lookup(Next(w, s).durable, q))
  {
    hide Next, RunOk, ClientOk;
    if PutStep(s) {
      PutAdvances(w, s, q);
    } else if s.AnswerResume? {
      AnswerAdvances(w, s, q);
    } else if s.JobRequest? {
      JobAdvances(w, s, q);
    } else {
      OnlyWritersWrite(w, s);
    }
  }

  lemma JobAdvances(w: World, s: Step, q: RequestId)
    requires Enabled(w, s) && s.JobRequest? && ControlRequest(Lookup(w.durable, q))
    ensures Lookup(Next(w, s).durable, q) == Lookup(w.durable, q)
  {
  }

  /** Over every interleaving, a completed resume or abort record is immutable, and an intent gives
      way only to a record of the same digest. */
  lemma {:induction false} RecordsAreWriteOnce(w: World, steps: seq<Step>, q: RequestId)
    requires Inv(w) && IsRun(w, steps) && ControlRequest(Lookup(w.durable, q))
    ensures Advances(Lookup(w.durable, q), Lookup(After(w, steps).durable, q))
    decreases |steps|
  {
    if steps != [] {
      StepAdvances(w, steps[0], q);
      NextKeepsInv(w, steps[0]);
      hide Next, Inv;
      RecordsAreWriteOnce(Next(w, steps[0]), steps[1..], q);
    }
  }

  /** Every answer any client ever gives for a request id is the same durable record. */
  lemma OneAnswerPerRequest(w: World, q: RequestId, first: Record, second: Record)
    requires Reachable(w) && (q, first) in w.answers && (q, second) in w.answers
    ensures first == second && Lookup(w.durable, q) == Some(Complete(first))
  {
    ReachableInv(w);
  }

  /** Each escalation is delivered to the run at most once, and a completed delivery's record is the
      sealed first checkpoint published after it. */
  lemma DeliveredOnceAnsweredByFirstCheckpoint(w: World, r: RunId, i: nat)
    requires Reachable(w) && r in w.runs && i < |w.runs[r].deliveries|
    ensures var d := w.runs[r].deliveries[i];
            && (forall j :: 0 <= j < |w.runs[r].deliveries| && j != i ==>
                  w.runs[r].deliveries[j].escalationId != d.escalationId && w.runs[r].deliveries[j].receipt.requestId != d.receipt.requestId)
            && (forall record :: Lookup(w.durable, d.receipt.requestId) == Some(Complete(record)) ==>
                  d.first.Some? && ExitCode(d.first.value).Some? && record == ResponseRecord(r, d.receipt, d.first.value))
  {
    ReachableInv(w);
    var run := w.runs[r];
    assert RunOk(w.durable, w.clients, r, run);
    forall j | 0 <= j < |run.deliveries| && j != i
      ensures run.deliveries[j].escalationId != run.deliveries[i].escalationId
      ensures run.deliveries[j].receipt.requestId != run.deliveries[i].receipt.requestId
    {
      assert ReceiptOk(w.durable.requests, r, run.deliveries[j].escalationId, run.deliveries[j].receipt);
      assert ReceiptOk(w.durable.requests, r, run.deliveries[i].escalationId, run.deliveries[i].receipt);
    }
  }

  /** A step that consumes a new escalation serves a frame for it to a run paused at exactly it. */
  lemma ConsumptionNeedsThePause(w: World, s: Step, r: RunId, e: string)
    requires Enabled(w, s) && Live(w, r) && Live(Next(w, s), r)
    ensures Extends(w.runs[r].host.value.consumed, Next(w, s).runs[r].host.value.consumed)
    ensures e in Next(w, s).runs[r].host.value.consumed && e !in w.runs[r].host.value.consumed ==>
              && s.Serve? && s.runId == r && PausedAt(w.runs[r].host.value, e) && w.runs[r].host.value.pending.None?
              && w.runs[r].queue[0].disposition.escalationId == e
  {
    hide PausedAt, Paused, ExitCode, Terminal, EscalationOf;
    if !s.Serve? || s.runId != r {
      OnlyServingConsumes(w, s, r);
    }
  }

  lemma OnlyServingConsumes(w: World, s: Step, r: RunId)
    requires Enabled(w, s) && Live(w, r) && Live(Next(w, s), r) && !(s.Serve? && s.runId == r)
    ensures Next(w, s).runs[r].host.value.consumed == w.runs[r].host.value.consumed
  {
    hide PausedAt, Paused, ExitCode, Terminal, EscalationOf, AfterDelivery, Admit;
  }

  lemma StepKeepsDead(w: World, s: Step, r: RunId)
    requires Enabled(w, s) && r in w.runs
    ensures r in Next(w, s).runs && (w.runs[r].host.None? ==> Next(w, s).runs[r].host.None?)
  {
    hide PausedAt, Paused, ExitCode, Terminal, EscalationOf, AfterDelivery, Admit, Respond;
  }

  lemma {:induction false} DeadStaysDead(w: World, steps: seq<Step>, r: RunId)
    requires IsRun(w, steps) && r in w.runs && w.runs[r].host.None?
    ensures r in After(w, steps).runs && After(w, steps).runs[r].host.None?
    decreases |steps|
  {
    hide Next, Enabled;
    if steps != [] {
      StepKeepsDead(w, steps[0], r);
      DeadStaysDead(Next(w, steps[0]), steps[1..], r);
    }
  }

  /** The request is open, or holds the response to its own delivery. */
  ghost predicate OpenOrAnswered(w: World, r: RunId, receipt: Receipt) {
    && r in w.runs && Registered(w.durable.requests, r, receipt.requestId, receipt.digest)
    && (w.durable.requests[receipt.requestId].Intent? ||
        exists i :: 0 <= i < |w.runs[r].deliveries| && w.runs[r].deliveries[i].receipt == receipt &&
                    Answered(w.durable.requests, r, w.runs[r].deliveries[i]))
  }

  /** What keeps a consumed receipt from a stale answer: its host, or after the host's death that no
      client holds a rejection of it. */
  ghost predicate Kept(w: World, r: RunId, e: string, receipt: Receipt) {
    && OpenOrAnswered(w, r, receipt) && receipt.digest.ResumeDigest?
    && (w.runs[r].host.Some? ==> e in w.runs[r].host.value.consumed && w.runs[r].host.value.consumed[e] == receipt)
    && (w.runs[r].host.None? ==> NoneRejected(w.clients, receipt.requestId))
  }

  ghost predicate NoneRejected(clients: map<ClientId, Client>, q: RequestId) {
    forall c :: c in clients && clients[c].requestId == q ==> clients[c].phase != Rejected
  }

  lemma ConsumedIsOpenOrAnswered(w: World, r: RunId, e: string)
    requires Inv(w) && Live(w, r) && e in w.runs[r].host.value.consumed
    ensures OpenOrAnswered(w, r, w.runs[r].host.value.consumed[e])
    ensures w.runs[r].host.value.consumed[e].digest.ResumeDigest?
    ensures NoneRejected(w.clients, w.runs[r].host.value.consumed[e].requestId)
  {
    assert RunOk(w.durable, w.clients, r, w.runs[r]);
    assert ReceiptOk(w.durable.requests, r, e, w.runs[r].host.value.consumed[e]);
    hide QueueOk, DeliveriesOk, OwedOk, FreshOk, OrderOk, LocksOk, AnswersOk;
    forall c | c in w.clients && w.clients[c].requestId == w.runs[r].host.value.consumed[e].requestId
      ensures w.clients[c].phase != Rejected
    {
      assert ClientOk(w, c);
      assert MentionsRun(w.runs[r], w.clients[c].requestId);
    }
  }

  /** Nobody writes the request of a run that has no host unless a client holds its rejection. */
  lemma DeadRequestsKeep(w: World, s: Step, r: RunId, q: RequestId)
    requires Inv(w) && Enabled(w, s) && r in w.runs && w.runs[r].host.None?
    requires ControlRequest(Lookup(w.durable, q)) && EntryRun(w.durable.requests[q]) == r && NoneRejected(w.clients, q)
    ensures Lookup(Next(w, s).durable, q) == Lookup(w.durable, q)
  {
    hide Next, RunOk;
    if PutStep(s) {
      PutElsewhere(w, s, q);
    } else if s.AnswerResume? {
      AnswerElsewhere(w, s, r, q);
    } else if s.JobRequest? {
      JobAdvances(w, s, q);
    } else {
      OnlyWritersWrite(w, s);
    }
  }

  lemma PutElsewhere(w: World, s: Step, q: RequestId)
    requires Enabled(w, s) && PutStep(s) && q in w.durable.requests && NoneRejected(w.clients, q)
    requires ClientOk(w, s.client)
    ensures Lookup(Next(w, s).durable, q) == Lookup(w.durable, q)
  {
    hide Untouched, Open, Terminal, ExitCode;
  }

  lemma AnswerElsewhere(w: World, s: Step, r: RunId, q: RequestId)
    requires Inv(w) && Enabled(w, s) && s.AnswerResume? && s.runId != r
    requires q in w.durable.requests && EntryRun(w.durable.requests[q]) == r
    ensures Lookup(Next(w, s).durable, q) == Lookup(w.durable, q)
  {
    var run := w.runs[s.runId];
    assert RunOk(w.durable, w.clients, s.runId, run);
    OwedResponse(w.durable, w.clients, s.runId, run, s.isSealed, s.fault);
    hide RunOk, Open, ExitCode;
    assert Next(w, s).durable == Respond(run.host.value, w.durable, run.stage.result, s.isSealed, s.fault).durable;
    hide Next, Respond;
  }

  lemma OnlyServingRejects(w: World, s: Step, c: ClientId)
    requires Enabled(w, s) && !s.Serve? && At(Next(w, s), c, Rejected)
    ensures At(w, c, Rejected) && Next(w, s).clients[c].requestId == w.clients[c].requestId
  {
    hide Terminal, Paused, PausedAt, EscalationOf, AfterDelivery, Respond, Advance, Admit;
  }

  lemma ServingRejects(w: World, s: Step, c: ClientId)
    requires Enabled(w, s) && s.Serve? && At(Next(w, s), c, Rejected)
    ensures c in w.clients && Next(w, s).clients[c].requestId == w.clients[c].requestId
    ensures At(w, c, Rejected) || c == w.runs[s.runId].queue[0].sender
  {
    hide Admit;
  }

  /** Only a live host rejects, and only requests of its own run. */
  lemma DeadRunsRejectNobody(w: World, s: Step, r: RunId, q: RequestId)
    requires Inv(w) && Enabled(w, s) && r in w.runs && w.runs[r].host.None?
    requires q in w.durable.requests && EntryRun(w.durable.requests[q]) == r && NoneRejected(w.clients, q)
    ensures NoneRejected(Next(w, s).clients, q)
  {
    if s.Serve? { HeadIsRegistered(w, s.runId); }
    var after := Next(w, s).clients;
    hide Next, Inv;
    forall c | c in after && after[c].requestId == q && after[c].phase == Rejected
      ensures false
    {
      if s.Serve? { ServingRejects(w, s, c); } else { OnlyServingRejects(w, s, c); }
    }
  }

  lemma HeadIsRegistered(w: World, r: RunId)
    requires Inv(w) && r in w.runs && w.runs[r].queue != []
    ensures var m := w.runs[r].queue[0];
            && m.sender in w.clients && w.clients[m.sender].requestId == m.requestId
            && m.requestId in w.durable.requests && EntryRun(w.durable.requests[m.requestId]) == r
  {
    hide DeliveriesOk, HostOk, OrderOk, ClientOk;
    assert RunOk(w.durable, w.clients, r, w.runs[r]);
    assert Registered(w.durable.requests, r, w.runs[r].queue[0].requestId, w.runs[r].queue[0].digest);
  }

  lemma DeadDeliveriesKeep(w: World, s: Step, r: RunId)
    requires Enabled(w, s) && r in w.runs && w.runs[r].host.None?
    ensures r in Next(w, s).runs && Next(w, s).runs[r].host.None? && Next(w, s).runs[r].deliveries == w.runs[r].deliveries
  {
    hide PausedAt, Paused, ExitCode, Terminal, EscalationOf, AfterDelivery, Admit, Respond;
  }

  lemma CrashKeepsRejections(w: World, s: Step, r: RunId)
    requires Enabled(w, s) && Live(w, r) && r in Next(w, s).runs && Next(w, s).runs[r].host.None?
    ensures s == Crash(r) && Next(w, s).clients == w.clients && Next(w, s).durable == w.durable
    ensures Next(w, s).runs[r].deliveries == w.runs[r].deliveries
  {
    hide PausedAt, Paused, ExitCode, Terminal, EscalationOf, AfterDelivery, Admit, Respond;
  }

  lemma StepKeepsReceipt(w: World, s: Step, r: RunId, e: string, receipt: Receipt)
    requires Inv(w) && Enabled(w, s) && Kept(w, r, e, receipt)
    ensures Kept(Next(w, s), r, e, receipt)
  {
    hide Next, Enabled, Inv;
    NextKeepsInv(w, s);
    StepKeepsDead(w, s, r);
    if w.runs[r].host.None? {
      DeadRequestsKeep(w, s, r, receipt.requestId);
      DeadRunsRejectNobody(w, s, r, receipt.requestId);
      DeadDeliveriesKeep(w, s, r);
    } else if Next(w, s).runs[r].host.Some? {
      ConsumptionNeedsThePause(w, s, r, e);
      ConsumedIsOpenOrAnswered(Next(w, s), r, e);
    } else {
      ConsumedIsOpenOrAnswered(w, r, e);
      CrashKeepsRejections(w, s, r);
    }
  }

  lemma {:induction false} RunKeepsReceipt(w: World, steps: seq<Step>, r: RunId, e: string, receipt: Receipt)
    requires Inv(w) && IsRun(w, steps) && Kept(w, r, e, receipt)
    ensures Kept(After(w, steps), r, e, receipt)
    decreases |steps|
  {
    hide Next, Enabled, Inv, Kept;
    if steps != [] {
      StepKeepsReceipt(w, steps[0], r, e, receipt);
      NextKeepsInv(w, steps[0]);
      RunKeepsReceipt(Next(w, steps[0]), steps[1..], r, e, receipt);
    }
  }

  /** A receipt the host consumed is never answered as stale, in any continuation and after the death
      of the host too: its request is open or holds the response to its own delivery, which is not a
      stale record whatever the message. */
  lemma AcceptedIsNeverStale(w: World, steps: seq<Step>, r: RunId, e: string)
    requires Reachable(w) && Live(w, r) && e in w.runs[r].host.value.consumed && IsRun(w, steps)
    ensures var receipt := w.runs[r].host.value.consumed[e];
            && OpenOrAnswered(After(w, steps), r, receipt)
            && forall c, message ::
                 Lookup(After(w, steps).durable, receipt.requestId) != Some(Complete(StaleRecord(receipt.requestId, c, message)))
  {
    var receipt := w.runs[r].host.value.consumed[e];
    ReachableInv(w);
    ConsumedIsOpenOrAnswered(w, r, e);
    RunKeepsReceipt(w, steps, r, e, receipt);
    AnswerIsNotStale(After(w, steps), r, receipt);
  }

  lemma AnswerIsNotStale(w: World, r: RunId, receipt: Receipt)
    requires OpenOrAnswered(w, r, receipt)
    ensures forall c, message ::
              Lookup(w.durable, receipt.requestId) != Some(Complete(StaleRecord(receipt.requestId, c, message)))
  {
  }

  /** For as long as the host lives, the winning receipt of an escalation is accepted on every resend
      and every other receipt is stale, without any effect. */
  lemma {:induction false} WinnerForever(w: World, steps: seq<Step>, r: RunId, e: string, receipt: Receipt, request: Disposition, fault: Fault)
    requires IsRun(w, steps) && Live(w, r) && Live(After(w, steps), r)
    requires e in w.runs[r].host.value.consumed && request.escalationId == e
    ensures var w' := After(w, steps);
            var h := w'.runs[r].host.value;
            Admit(h, w'.durable, receipt, request, fault) ==
              Admitted(h, w'.durable, if receipt == w.runs[r].host.value.consumed[e] then Accepted else Stale)
    decreases |steps|
  {
    hide Next, Enabled;
    if steps != [] {
      StepKeepsDead(w, steps[0], r);
      if Live(Next(w, steps[0]), r) {
        ConsumptionNeedsThePause(w, steps[0], r, e);
        WinnerForever(Next(w, steps[0]), steps[1..], r, e, receipt, request, fault);
      } else {
        DeadStaysDead(Next(w, steps[0]), steps[1..], r);
      }
    }
  }

  /** At every crash point of a run none of whose responses failed to publish, and until a reconciler
      writes in its place, a durable sequence past a delivery means that delivery's response is
      already recorded. `DurableOrder` has the exact condition. */
  lemma CrashOrder(w: World, r: RunId, i: nat)
    requires Reachable(w) && r in w.runs && i < |w.runs[r].deliveries|
    requires !w.runs[r].responseFailed && !w.runs[r].reconciled
    requires r in w.durable.controls && w.durable.controls[r].sequence > w.runs[r].deliveries[i].sequence
    ensures Answered(w.durable.requests, r, w.runs[r].deliveries[i])
  {
    ReachableInv(w);
    assert RunOk(w.durable, w.clients, r, w.runs[r]);
  }

  lemma OnlyTheseWriteControls(w: World, s: Step)
    requires Enabled(w, s) && !s.Bootstrap? && !s.Serve? && !s.PublishControl? && !s.ReconcileLoss?
    ensures Next(w, s).durable.controls == w.durable.controls
  {
    hide PausedAt, Paused, ExitCode, Terminal, EscalationOf, AfterDelivery;
  }

  /** The control a step may leave for a run: the one before it, or a snapshot of its live host, or
      a reconciled successor. */
  lemma ControlAfter(w: World, s: Step, r: RunId)
    requires Enabled(w, s) && r in w.runs && r in w.durable.controls
    requires (s.Serve? || s.PublishControl?) && s.runId in w.runs ==> RunOk(w.durable, w.clients, s.runId, w.runs[s.runId])
    ensures var d := Next(w, s).durable;
            && r in d.controls
            && (d.controls[r] == w.durable.controls[r] ||
                (Live(w, r) && d.controls[r].sequence == w.runs[r].host.value.run.sequence) ||
                d.controls[r].sequence == SaturatingAdd(w.durable.controls[r].sequence, 1))
  {
    hide PausedAt, Paused, ExitCode, Terminal, EscalationOf, AfterDelivery, QueueOk, DeliveriesOk, ConsumedOk, PendingOk, OwedOk, FreshOk;
    if s.Serve? {
      ServedControl(w, s, r);
    } else if s.Bootstrap? || s.PublishControl? || s.ReconcileLoss? {
      hide Admit, Respond, Advance;
    } else {
      OnlyTheseWriteControls(w, s);
    }
  }

  lemma ServedControl(w: World, s: Step, r: RunId)
    requires Enabled(w, s) && s.Serve? && r in w.durable.controls && w.runs[s.runId].host.value.run.runId == s.runId
    ensures var d := Next(w, s).durable;
            && r in d.controls
            && (d.controls[r] == w.durable.controls[r] ||
                (r == s.runId && d.controls[r].sequence == w.runs[r].host.value.run.sequence))
  {
    hide PausedAt;
  }

  /** The durable sequence of a run never goes back. */
  lemma SequencesNeverDecrease(w: World, s: Step, r: RunId)
    requires Inv(w) && Enabled(w, s) && r in w.runs
    ensures r in w.durable.controls && r in Next(w, s).durable.controls
    ensures Next(w, s).durable.controls[r].sequence >= w.durable.controls[r].sequence
  {
    hide Next, QueueOk, DeliveriesOk, ClientOk, HostOk;
    assert RunOk(w.durable, w.clients, r, w.runs[r]);
    if (s.Serve? || s.PublishControl?) && s.runId in w.runs {
      assert RunOk(w.durable, w.clients, s.runId, w.runs[s.runId]);
    }
    ControlAfter(w, s, r);
  }
}
