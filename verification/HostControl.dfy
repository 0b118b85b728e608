/** The run host's in-memory control: checkpoint publication, resume admission and delivery. */
module HostControl {
  import opened Json
  import opened Numbers
  import opened Results
  import opened Store

  datatype Receipt = Receipt(requestId: RequestId, digest: Digest)

  datatype PendingResume = PendingResume(request: Disposition, receipt: Receipt)

  datatype Publication = Publication(receipt: Receipt, response: Option<Value>)

  datatype HostState = HostState(
    run: RunControl,
    pending: Option<PendingResume>,
    awaiting: Option<Publication>,
    consumed: map<string, Receipt>)

  datatype Admission = Accepted | Stale | Unavailable

  datatype Termination = WatchdogLost | Aborted | LifetimeElapsed | PauseDeadlineElapsed

  datatype PollEvent = Terminated(reason: Termination) | Delivered(request: Disposition) | StillPaused

  predicate PausedAt(h: HostState, escalationId: string) {
    Paused(h.run.result) && EscalationOf(h.run.result) == Some(escalationId)
  }

  // ----- what each operation does to the host and to durable state

  /** The memory half of a checkpoint: the next sequence, the new result and its pause deadline. */
  function Advance(h: HostState, result: Value, now: nat, pauseTimeout: nat): HostState {
    var deadline :=
      if !Paused(result) then None
      else if h.run.pauseDeadline.Some? then h.run.pauseDeadline
      else Some(Min(SaturatingAdd(now, pauseTimeout), h.run.lifetimeDeadline));
    h.(run := h.run.(sequence := SaturatingAdd(h.run.sequence, 1), result := result, pauseDeadline := deadline))
  }

  /** A paused run's deadline as the flow driver reads it before it publishes the pause: an existing one
      stays, and a missing one is set from now on. */
  function KeepDeadline(h: HostState, now: nat, pauseTimeout: nat): HostState {
    if h.run.pauseDeadline.Some? then h
    else h.(run := h.run.(pauseDeadline := Some(Min(SaturatingAdd(now, pauseTimeout), h.run.lifetimeDeadline))))
  }

  /** The response owed to the delivered resume is fixed by the first checkpoint that finds it. */
  function Freeze(h: HostState, result: Value): HostState {
    if h.awaiting.Some? && h.awaiting.value.response.None?
    then h.(awaiting := Some(h.awaiting.value.(response := Some(result))))
    else h
  }

  function ResponseRecord(runId: RunId, receipt: Receipt, response: Value): Record
    requires ExitCode(response).Some?
  {
    SealedRecord(receipt.requestId, runId, receipt.digest, ExitCode(response).value, response)
  }

  datatype Responded = Responded(host: HostState, durable: Durable, ok: bool)

  /** Publishes the response the host owes, if any; on failure the frozen response stays owed. */
  function Respond(h: HostState, d: Durable, result: Value, sealed: bool, fault: Fault): (r: Responded)
    ensures r.ok ==> r.host.awaiting.None?
    ensures !r.ok ==> r.host.awaiting.Some? && r.host.awaiting.value.response.Some?
    ensures r.host == h.(awaiting := r.host.awaiting) && r.durable.controls == d.controls
  {
    if h.awaiting.None? then Responded(h, d, true)
    else
      var frozen := Freeze(h, result);
      var response := frozen.awaiting.value.response.value;
      if ExitCode(response).None? || !sealed then Responded(frozen, d, false)
      else
        var receipt := h.awaiting.value.receipt;
        var written := WriteRequest(d, receipt.requestId, Complete(ResponseRecord(h.run.runId, receipt, response)), fault);
        Responded(if fault.NoFault? then frozen.(awaiting := None) else frozen, written, fault.NoFault?)
  }

  datatype Admitted = Admitted(host: HostState, durable: Durable, outcome: Admission)

  /** A receipt seen before is answered as before; otherwise only the run paused at exactly this
      escalation, with nothing pending, admits it. */
  function Admit(h: HostState, d: Durable, receipt: Receipt, request: Disposition, fault: Fault): (r: Admitted)
    ensures r.outcome == Accepted && request.escalationId !in h.consumed ==> PausedAt(h, request.escalationId) && h.pending.None?
    ensures r.outcome == Accepted ==> r.host.consumed == h.consumed[request.escalationId := receipt]
    ensures r.outcome != Accepted ==> r.host.consumed == h.consumed
    ensures request.escalationId in h.consumed ==> r.host == h && r.durable == d
    ensures request.escalationId in h.consumed ==> r.outcome == if h.consumed[request.escalationId] == receipt then Accepted else Stale
  {
    var e := request.escalationId;
    if e in h.consumed then Admitted(h, d, if h.consumed[e] == receipt then Accepted else Stale)
    else if h.pending.Some? || !PausedAt(h, e) then Admitted(h, d, Stale)
    else
      var suspended := h.(run := h.run.(pauseDeadline := None));
      var written := WriteControl(d, suspended.run, fault);
      if !fault.NoFault? then Admitted(suspended, written, Unavailable)
      else
        Admitted(suspended.(consumed := h.consumed[e := receipt], pending := Some(PendingResume(request, receipt))),
                 written, Accepted)
  }

  predicate CanDeliver(h: HostState, escalationId: string) {
    h.pending.Some? && h.pending.value.request.escalationId == escalationId
  }

  function Deliver(h: HostState): HostState
    requires h.pending.Some?
  {
    h.(pending := None, awaiting := Some(Publication(h.pending.value.receipt, None)))
  }

  // ----- one delivery's whole life

  /** One later checkpoint attempt: its result and the failures it meets. */
  datatype Attempt = Attempt(result: Value, now: nat, sealed: bool, fault: Fault)

  function Checkpoints(h: HostState, d: Durable, pauseTimeout: nat, attempts: seq<Attempt>): (HostState, Durable)
    decreases |attempts|
  {
    if attempts == [] then (h, d)
    else
      var a := attempts[0];
      var r := Respond(Advance(h, a.result, a.now, pauseTimeout), d, a.result, a.sealed, a.fault);
      Checkpoints(r.host, r.durable, pauseTimeout, attempts[1..])
  }

  /** However many attempts fail and whatever they carry, the only record ever written for a
      delivered resume is the one of the first checkpoint after its delivery, and once written it is
      never replaced. */
  lemma {:induction false} FirstCheckpointAnswersTheResume(
    h: HostState, d: Durable, pauseTimeout: nat, attempts: seq<Attempt>, receipt: Receipt, response: Value)
    requires attempts != [] && response == attempts[0].result
    requires h.awaiting == Some(Publication(receipt, None))
    ensures var (h', d') := Checkpoints(h, d, pauseTimeout, attempts);
            && (Lookup(d', receipt.requestId) == Lookup(d, receipt.requestId) ||
                (ExitCode(response).Some? &&
                 Lookup(d', receipt.requestId) == Some(Complete(ResponseRecord(h.run.runId, receipt, response)))))
            && (h'.awaiting.None? <==>
                ExitCode(response).Some? && exists i :: 0 <= i < |attempts| && attempts[i].sealed && attempts[i].fault.NoFault?)
            && (h'.awaiting.None? ==>
                Lookup(d', receipt.requestId) == Some(Complete(ResponseRecord(h.run.runId, receipt, response))))
  {
    var a := attempts[0];
    var r := Respond(Advance(h, a.result, a.now, pauseTimeout), d, a.result, a.sealed, a.fault);
    OwedResponseStays(r.host, r.durable, pauseTimeout, attempts[1..], receipt, response);
    assert forall i :: 1 <= i < |attempts| ==> attempts[i] == attempts[1..][i - 1];
  }

  lemma {:induction false} OwedResponseStays(
    h: HostState, d: Durable, pauseTimeout: nat, attempts: seq<Attempt>, receipt: Receipt, response: Value)
    requires h.awaiting == Some(Publication(receipt, Some(response))) || h.awaiting.None?
    ensures var (h', d') := Checkpoints(h, d, pauseTimeout, attempts);
            var done := ExitCode(response).Some? && exists i :: 0 <= i < |attempts| && attempts[i].sealed && attempts[i].fault.NoFault?;
            && (h.awaiting.None? ==> h'.awaiting.None? && d' == d)
            && (h.awaiting.Some? ==> (h'.awaiting.None? <==> done))
            && (Lookup(d', receipt.requestId) == Lookup(d, receipt.requestId) ||
                (ExitCode(response).Some? &&
                 Lookup(d', receipt.requestId) == Some(Complete(ResponseRecord(h.run.runId, receipt, response)))))
            && (h.awaiting.Some? && h'.awaiting.None? ==>
                Lookup(d', receipt.requestId) == Some(Complete(ResponseRecord(h.run.runId, receipt, response))))
    decreases |attempts|
  {
    if attempts != [] {
      var a := attempts[0];
      var r := Respond(Advance(h, a.result, a.now, pauseTimeout), d, a.result, a.sealed, a.fault);
      OwedResponseStays(r.host, r.durable, pauseTimeout, attempts[1..], receipt, response);
      assert forall i :: 1 <= i < |attempts| ==> attempts[i] == attempts[1..][i - 1];
    }
  }

  /** The checkpoints touch no request but the one whose response is owed. */
  lemma {:induction false} OtherRequestsUntouched(h: HostState, d: Durable, pauseTimeout: nat, attempts: seq<Attempt>, q: RequestId)
    requires h.awaiting.Some? ==> h.awaiting.value.receipt.requestId != q
    ensures Lookup(Checkpoints(h, d, pauseTimeout, attempts).1, q) == Lookup(d, q)
    decreases |attempts|
  {
    if attempts != [] {
      var a := attempts[0];
      var r := Respond(Advance(h, a.result, a.now, pauseTimeout), d, a.result, a.sealed, a.fault);
      OtherRequestsUntouched(r.host, r.durable, pauseTimeout, attempts[1..], q);
    }
  }

  /** A delivery made while an earlier response is still owed replaces that debt: no checkpoint, now
      or later, answers the earlier request. */
  lemma DeliveryWhileOwingLosesTheResponse(h: HostState, d: Durable, pauseTimeout: nat, attempts: seq<Attempt>)
    requires h.awaiting.Some? && h.pending.Some? && h.pending.value.receipt.requestId != h.awaiting.value.receipt.requestId
    ensures var q := h.awaiting.value.receipt.requestId;
            Lookup(Checkpoints(Deliver(h), d, pauseTimeout, attempts).1, q) == Lookup(d, q)
  {
    OtherRequestsUntouched(Deliver(h), d, pauseTimeout, attempts, h.awaiting.value.receipt.requestId);
  }

  // ----- the object the host shares between its threads

  class Control {
    var run: RunControl
    var pending: Option<PendingResume>
    var awaitingCheckpoint: Option<Publication>
    var consumed: map<string, Receipt>
    var abort: bool
    var watchdogLost: bool
    const pauseTimeout: nat
    const state: Directory

    constructor (state: Directory, run: RunControl, pauseTimeout: nat)
      ensures this.state == state && this.pauseTimeout == pauseTimeout
      ensures Memory() == HostState(run, None, None, map[]) && !abort && !watchdogLost
    {
      this.state, this.run, this.pauseTimeout := state, run, pauseTimeout;
      pending, awaitingCheckpoint, consumed, abort, watchdogLost := None, None, map[], false, false;
    }

    function Memory(): HostState
      reads this
    {
      HostState(run, pending, awaitingCheckpoint, consumed)
    }

    /** Advances memory, answers the resume owed a response, and only then writes the control. */
    method PublishCheckpoint(result: Value, now: nat, sealed: bool, finalizeFault: Fault, controlFault: Fault)
      returns (ok: bool)
      modifies this`run, this`awaitingCheckpoint, state
      ensures var advanced := Advance(old(Memory()), result, now, pauseTimeout);
              var r := Respond(advanced, old(state.Contents()), result, sealed, finalizeFault);
              && Memory() == r.host
              && ok == (r.ok && controlFault.NoFault?)
              && state.Contents() == if r.ok then WriteControl(r.durable, advanced.run, controlFault) else r.durable
    {
      run := run.(sequence := SaturatingAdd(run.sequence, 1));
      run := run.(result := result);
      UpdatePauseDeadline(result, now);
      var snapshot := run;
      ok := PublishResumeResponse(result, sealed, finalizeFault);
      if ok {
        ok := state.WriteRunControl(snapshot, controlFault);
      }
    }

    /** Reads the pause deadline and sets a missing one; from then on every reading agrees. */
    method PauseDeadline(now: nat) returns (deadline: nat)
      modifies this`run
      ensures Memory() == KeepDeadline(old(Memory()), now, pauseTimeout) && run.pauseDeadline == Some(deadline)
      ensures old(run).pauseDeadline.Some? ==> run == old(run)
      ensures old(run).pauseDeadline.None? ==> deadline <= run.lifetimeDeadline
      ensures forall later :: KeepDeadline(Memory(), later, pauseTimeout) == Memory()
    {
      if run.pauseDeadline.Some? {
        return run.pauseDeadline.value;
      }
      deadline := Min(SaturatingAdd(now, pauseTimeout), run.lifetimeDeadline);
      run := run.(pauseDeadline := Some(deadline));
    }

    method UpdatePauseDeadline(result: Value, now: nat)
      modifies this`run
      ensures run == old(run).(pauseDeadline :=
                if !Paused(result) then None
                else if old(run).pauseDeadline.Some? then old(run).pauseDeadline
                else Some(Min(SaturatingAdd(now, pauseTimeout), old(run).lifetimeDeadline)))
    {
      if !Paused(result) {
        run := run.(pauseDeadline := None);
      } else if run.pauseDeadline.None? {
        run := run.(pauseDeadline := Some(Min(SaturatingAdd(now, pauseTimeout), run.lifetimeDeadline)));
      }
    }

    method PublishResumeResponse(result: Value, sealed: bool, fault: Fault) returns (ok: bool)
      modifies this`awaitingCheckpoint, state
      ensures var r := Respond(old(Memory()), old(state.Contents()), result, sealed, fault);
              Memory() == r.host && state.Contents() == r.durable && ok == r.ok
    {
      if awaitingCheckpoint.None? {
        return true;
      }
      var publication := awaitingCheckpoint.value;
      var frozen := if publication.response.Some? then publication.response.value else result;
      awaitingCheckpoint := Some(publication.(response := Some(frozen)));
      var code := ExitCode(frozen);
      if code.None? || !sealed {
        return false;
      }
      var record := SealedRecord(publication.receipt.requestId, run.runId, publication.receipt.digest, code.value, frozen);
      ok := state.FinalizeControlRequest(publication.receipt.requestId, record, fault);
      if ok {
        awaitingCheckpoint := None;
      }
    }

    method AdmitDisposition(receipt: Receipt, request: Disposition, fault: Fault) returns (outcome: Admission)
      modifies this`run, this`consumed, this`pending, state
      ensures var r := Admit(old(Memory()), old(state.Contents()), receipt, request, fault);
              Memory() == r.host && state.Contents() == r.durable && outcome == r.outcome
    {
      if request.escalationId in consumed {
        return if consumed[request.escalationId] == receipt then Accepted else Stale;
      }
      if pending.Some? {
        return Stale;
      }
      var suspended := SuspendPauseDeadline(request.escalationId);
      if !suspended {
        return Stale;
      }
      var written := state.WriteRunControl(run, fault);
      if !written {
        return Unavailable;
      }
      consumed := consumed[request.escalationId := receipt];
      pending := Some(PendingResume(request, receipt));
      return Accepted;
    }

    method SuspendPauseDeadline(escalationId: string) returns (ok: bool)
      modifies this`run
      ensures ok == PausedAt(old(Memory()), escalationId)
      ensures run == if ok then old(run).(pauseDeadline := None) else old(run)
    {
      ok := Paused(run.result) && EscalationOf(run.result) == Some(escalationId);
      if ok {
        run := run.(pauseDeadline := None);
      }
    }

    function DeadlineTermination(now: nat): Option<Termination>
      reads this
    {
      if now >= run.lifetimeDeadline then Some(LifetimeElapsed)
      else if run.pauseDeadline.Some? && now >= run.pauseDeadline.value then Some(PauseDeadlineElapsed)
      else None
    }

    /** Loss of the watchdog outranks an abort, which outranks both deadlines. */
    function PausedTermination(now: nat): (r: Option<Termination>)
      reads this
      ensures r.None? <==> !watchdogLost && !abort && now < run.lifetimeDeadline &&
                           (run.pauseDeadline.Some? ==> now < run.pauseDeadline.value)
    {
      if watchdogLost then Some(WatchdogLost)
      else if abort then Some(Aborted)
      else DeadlineTermination(now)
    }

    /** One turn of the loop that waits while paused. */
    method PollPaused(escalationId: string, now: nat) returns (event: PollEvent)
      modifies this`pending, this`awaitingCheckpoint
      ensures PausedTermination(now).Some? ==> event == Terminated(PausedTermination(now).value) && Memory() == old(Memory())
      ensures PausedTermination(now).None? && CanDeliver(old(Memory()), escalationId) ==>
                event == Delivered(old(pending).value.request) && Memory() == Deliver(old(Memory()))
      ensures PausedTermination(now).None? && !CanDeliver(old(Memory()), escalationId) ==>
                event == StillPaused && Memory() == old(Memory())
    {
      var termination := PausedTermination(now);
      if termination.Some? {
        return Terminated(termination.value);
      }
      if pending.Some? && pending.value.request.escalationId == escalationId {
        var taken := pending.value;
        pending := None;
        awaitingCheckpoint := Some(Publication(taken.receipt, None));
        return Delivered(taken.request);
      }
      return StillPaused;
    }
  }
}
