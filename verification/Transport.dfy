/** The command channel of the browser connection: callers queue commands for one worker, which
    writes them to the socket and waits for each reply while callers may be cancelled or time out. */
module Transport {
  import opened Json
  import opened Numbers
  import J = Journal

  type CallId = nat
  type FlagId = nat

  datatype Outcome = Confirmed(response: Value) | Rejected(response: Value) | NotSent | Unknown

  /** One read of the socket: a JSON value with its encoded length, nothing yet, or an error. */
  datatype Read = Received(value: Value, encoded: Option<nat>) | Nothing | Failed

  datatype Incoming = Done(outcome: Outcome) | Event(message: J.Message) | Ignore

  function ReplyId(v: Value): Option<nat> {
    match Get(v, "id")
    case Some(Num(n)) => if 0 <= n <= U64_MAX then Some(n) else None
    case _ => None
  }

  function OutcomeFromResponse(v: Value): Outcome {
    if Get(v, "error").Some? then Rejected(v) else Confirmed(v)
  }

  function AsMessage(read: Read): J.Message
    requires read.Received?
  {
    J.Message(Text(Get(read.value, "method")),
              if Get(read.value, "params").Some? then Get(read.value, "params").value else Null,
              read.encoded)
  }

  function IncomingForCommand(read: Read, id: nat): Incoming {
    match read
    case Received(v, _) =>
      if ReplyId(v) == Some(id) then Done(OutcomeFromResponse(v))
      else if Get(v, "method").Some? then Event(AsMessage(read))
      else Ignore
    case Nothing => Ignore
    case Failed => Done(Unknown)
  }

  // ----- the worker's own code

  /** One turn of the reply loop: whether the command is cancelled or past its deadline by then, and
      what the socket gives otherwise. */
  datatype Turn = Turn(expired: bool, read: Read)

  predicate Ends(turn: Turn, id: nat) {
    turn.expired || IncomingForCommand(turn.read, id).Done?
  }

  function Ending(turn: Turn, id: nat): Outcome
    requires Ends(turn, id)
  {
    if turn.expired then Unknown else IncomingForCommand(turn.read, id).outcome
  }

  /** The events among what was read while waiting for the reply to `id`, in order. */
  function EventsIn(turns: seq<Turn>, id: nat): seq<J.Message> {
    if turns == [] then []
    else
      var last := turns[|turns| - 1];
      var earlier := EventsIn(turns[..|turns| - 1], id);
      if !last.expired && IncomingForCommand(last.read, id).Event? then earlier + [IncomingForCommand(last.read, id).message]
      else earlier
  }

  lemma EventsMore(turns: seq<Turn>, i: nat, id: nat)
    requires i < |turns|
    ensures EventsIn(turns[..i + 1], id) ==
            EventsIn(turns[..i], id)
            + if !turns[i].expired && IncomingForCommand(turns[i].read, id).Event? then [IncomingForCommand(turns[i].read, id).message] else []
  {
    assert turns[..i + 1][..i] == turns[..i];
  }

  class Worker {
    var nextId: nat
    const journal: J.Journal
    /** The ids of every command whose bytes may have reached the socket. */
    ghost var attempted: seq<nat>

    constructor (journal: J.Journal)
      ensures nextId == 1 && this.journal == journal && attempted == []
    {
      nextId := 1;
      this.journal := journal;
      attempted := [];
    }

    /** Nothing is written exactly when the outcome is NotSent; any other outcome belongs to the one
        id taken for this command, and every event that arrived before its end is in the journal. */
    method Execute(expired: bool, sendOk: bool, turns: seq<Turn>) returns (outcome: Outcome, ghost ended: nat)
      requires nextId <= U64_MAX && journal.Valid()
      requires exists k :: 0 <= k < |turns| && turns[k].expired
      modifies this, journal
      ensures journal.Valid()
      ensures outcome.NotSent? <==> expired
      ensures attempted == if expired then old(attempted) else old(attempted) + [old(nextId)]
      ensures nextId == if expired then old(nextId) else SaturatingAdd(old(nextId), 1)
      ensures expired || !sendOk ==> journal.log == old(journal.log)
      ensures !expired && !sendOk ==> outcome.Unknown?
      ensures !expired && sendOk ==>
                && ended < |turns| && Ends(turns[ended], old(nextId)) && outcome == Ending(turns[ended], old(nextId))
                && (forall k :: 0 <= k < ended ==> !Ends(turns[k], old(nextId)))
                && journal.log == old(journal.log) + EventsIn(turns[..ended], old(nextId))
    {
      ended := 0;
      if expired {
        return NotSent, 0;
      }
      var id := nextId;
      nextId := SaturatingAdd(nextId, 1);
      attempted := attempted + [id];
      if !sendOk {
        return Unknown, 0;
      }
      outcome, ended := AwaitCommandResponse(id, turns);
    }

    method AwaitCommandResponse(id: nat, turns: seq<Turn>) returns (outcome: Outcome, ghost ended: nat)
      requires journal.Valid()
      requires exists k :: 0 <= k < |turns| && turns[k].expired
      modifies journal
      ensures journal.Valid()
      ensures ended < |turns| && Ends(turns[ended], id) && outcome == Ending(turns[ended], id)
      ensures forall k :: 0 <= k < ended ==> !Ends(turns[k], id)
      ensures journal.log == old(journal.log) + EventsIn(turns[..ended], id)
    {
      hide journal.Valid, J.IsWindowStart, J.Fits, IncomingForCommand;
      ghost var deadline :| 0 <= deadline < |turns| && turns[deadline].expired;
      var i := 0;
      while true
        invariant 0 <= i <= deadline
        invariant journal.Valid()
        invariant forall k :: 0 <= k < i ==> !Ends(turns[k], id)
        invariant journal.log == old(journal.log) + EventsIn(turns[..i], id)
        decreases |turns| - i
      {
        EventsMore(turns, i, id);
        if turns[i].expired {
          return Unknown, i;
        }
        match IncomingForCommand(turns[i].read, id) {
          case Done(o) => return o, i;
          case Event(message) => journal.Record(message);
          case Ignore =>
        }
        i := i + 1;
      }
    }
  }

  // ----- callers and worker together

  /** How far a call has come. `Refused` was never queued; `Working` is the command in hand. */
  datatype Progress = Refused | Checked | Queued | Working | Finished(reply: Outcome)

  datatype Call = Call(deadline: nat, flag: FlagId, progress: Progress, outcome: Option<Outcome>)

  datatype Frame = Frame(call: CallId, id: nat)

  datatype Hand = Idle | Sending(frame: Frame) | Awaiting(frame: Frame)

  /** `socket` is everything whose write was attempted; time and cancellation only move forward. */
  datatype State = State(
    now: nat,
    cancelled: set<FlagId>,
    calls: map<CallId, Call>,
    queue: seq<CallId>,
    hand: Hand,
    nextId: nat,
    socket: seq<Frame>,
    disconnected: bool,
    stopped: bool)

  datatype Step =
    | Wait(to: nat)
    | Cancel(flag: FlagId)
    | Submit(call: CallId, deadline: nat, flag: FlagId)
    | Enqueue(call: CallId)
    | Receive(call: CallId)
    | GiveUp(call: CallId)
    | Begin
    | Write(ok: bool)
    | Poll(read: Read)
    | Disconnect
    | Stop

  predicate Expired(s: State, call: Call) {
    call.flag in s.cancelled || s.now >= call.deadline
  }

  predicate Enabled(s: State, step: Step) {
    match step
    case Wait(to) => s.now <= to
    case Cancel(_) => true
    case Submit(c, _, _) => c !in s.calls
    case Enqueue(c) => c in s.calls && s.calls[c].progress.Checked?
    case Receive(c) => c in s.calls && s.calls[c].outcome.None? && s.calls[c].progress.Finished?
    case GiveUp(c) =>
      c in s.calls && s.calls[c].outcome.None? && !s.calls[c].progress.Checked? && Expired(s, s.calls[c])
    case Begin => !s.stopped && s.hand.Idle? && s.queue != [] && s.queue[0] in s.calls
    case Write(_) => s.hand.Sending? && s.hand.frame.call in s.calls
    case Poll(_) => s.hand.Awaiting? && s.hand.frame.call in s.calls
    case Disconnect => !s.stopped && s.hand.Idle?
    case Stop => s.hand.Idle?
  }

  /** How the reply loop's turn ends the command in hand, if it does. */
  function Polled(s: State, read: Read): Option<Outcome>
    requires s.hand.Awaiting? && s.hand.frame.call in s.calls
  {
    var turn := Turn(Expired(s, s.calls[s.hand.frame.call]), read);
    if Ends(turn, s.hand.frame.id) then Some(Ending(turn, s.hand.frame.id)) else None
  }

  function Progressed(s: State, c: CallId, progress: Progress): map<CallId, Call>
    requires c in s.calls
  {
    s.calls[c := s.calls[c].(progress := progress)]
  }

  function Returned(s: State, c: CallId, outcome: Outcome): map<CallId, Call>
    requires c in s.calls
  {
    s.calls[c := s.calls[c].(outcome := Some(outcome))]
  }

  function CallsAfter(s: State, step: Step): map<CallId, Call>
    requires Enabled(s, step)
  {
    match step
    case Submit(c, deadline, flag) =>
      var call := Call(deadline, flag, Checked, None);
      s.calls[c := if s.disconnected || Expired(s, call) then call.(progress := Refused, outcome := Some(NotSent)) else call]
    case Enqueue(c) =>
      if s.stopped then s.calls[c := s.calls[c].(progress := Refused, outcome := Some(NotSent))] else Progressed(s, c, Queued)
    case Receive(c) => Returned(s, c, s.calls[c].progress.reply)
    case GiveUp(c) => Returned(s, c, Unknown)
    case Begin => Progressed(s, s.queue[0], if Expired(s, s.calls[s.queue[0]]) then Finished(NotSent) else Working)
    case Write(ok) => if ok then s.calls else Progressed(s, s.hand.frame.call, Finished(Unknown))
    case Poll(read) =>
      if Polled(s, read).Some? then Progressed(s, s.hand.frame.call, Finished(Polled(s, read).value)) else s.calls
    case _ => s.calls
  }

  function HandAfter(s: State, step: Step): Hand
    requires Enabled(s, step)
  {
    match step
    case Begin => if Expired(s, s.calls[s.queue[0]]) then Idle else Sending(Frame(s.queue[0], s.nextId))
    case Write(ok) => if ok then Awaiting(s.hand.frame) else Idle
    case Poll(read) => if Polled(s, read).Some? then Idle else s.hand
    case _ => s.hand
  }

  function QueueAfter(s: State, step: Step): seq<CallId>
    requires Enabled(s, step)
  {
    if step.Begin? then s.queue[1..] else if step.Enqueue? && !s.stopped then s.queue + [step.call] else s.queue
  }

  function SocketAfter(s: State, step: Step): seq<Frame>
    requires Enabled(s, step)
  {
    if step.Write? then s.socket + [s.hand.frame] else s.socket
  }

  function NextIdAfter(s: State, step: Step): nat
    requires Enabled(s, step)
  {
    if step.Begin? && !Expired(s, s.calls[s.queue[0]]) then SaturatingAdd(s.nextId, 1) else s.nextId
  }

  function Next(s: State, step: Step): State
    requires Enabled(s, step)
  {
    State(if step.Wait? then step.to else s.now,
          if step.Cancel? then s.cancelled + {step.flag} else s.cancelled,
          CallsAfter(s, step), QueueAfter(s, step), HandAfter(s, step), NextIdAfter(s, step), SocketAfter(s, step),
          s.disconnected || step.Disconnect?, s.stopped || step.Disconnect? || step.Stop?)
  }

  const INITIAL := State(0, {}, map[], [], Idle, 1, [], false, false)

  ghost predicate IsRun(s: State, steps: seq<Step>)
    decreases |steps|
  {
    steps != [] ==> Enabled(s, steps[0]) && IsRun(Next(s, steps[0]), steps[1..])
  }

  ghost function After(s: State, steps: seq<Step>): State
    requires IsRun(s, steps)
    decreases |steps|
  {
    if steps == [] then s else After(Next(s, steps[0]), steps[1..])
  }

  // ----- invariant

  predicate Written(socket: seq<Frame>, c: CallId) {
    exists i :: 0 <= i < |socket| && socket[i].call == c
  }

  /** What a call's progress says about the socket, and what its caller's outcome says about its
      progress. A caller that stopped waiting for a queued call left it expired. */
  ghost predicate CallOk(s: State, c: CallId, call: Call) {
    && (call.progress.Refused? || call.progress.Checked? || call.progress.Queued? ==> !Written(s.socket, c))
    && (call.progress == Finished(NotSent) ==> !Written(s.socket, c))
    && (call.progress.Finished? && (call.progress.reply.Confirmed? || call.progress.reply.Rejected?) ==>
          OwnReply(s.socket, c, call.progress.reply))
    && (call.outcome.Some? && call.progress.Queued? ==> Expired(s, call))
    && (call.outcome.Some? ==> !call.progress.Checked?)
    && (call.outcome.Some? && !call.outcome.value.Unknown? && !call.progress.Refused? ==> call.progress == Finished(call.outcome.value))
    && (call.progress.Refused? ==> call.outcome == Some(NotSent))
  }

  /** The reply is a response with the id under which this very call was written. */
  ghost predicate OwnReply(socket: seq<Frame>, c: CallId, reply: Outcome)
    requires reply.Confirmed? || reply.Rejected?
  {
    && (exists i :: 0 <= i < |socket| && socket[i].call == c && ReplyId(reply.response) == Some(socket[i].id))
    && (reply.Rejected? <==> Get(reply.response, "error").Some?)
  }

  ghost predicate CallsOk(s: State) {
    forall c :: c in s.calls ==> CallOk(s, c, s.calls[c])
  }

  ghost predicate QueueOk(s: State) {
    && (forall i :: 0 <= i < |s.queue| ==> s.queue[i] in s.calls && s.calls[s.queue[i]].progress.Queued?)
    && (forall i, j :: 0 <= i < j < |s.queue| ==> s.queue[i] != s.queue[j])
  }

  /** An id is the same as a later one only once the counter has saturated. */
  predicate Below(id: nat, later: nat) {
    id < later || id == later == U64_MAX
  }

  ghost predicate HandOk(s: State) {
    && (s.hand != Idle ==> s.hand.frame.call in s.calls && s.calls[s.hand.frame.call].progress.Working? && Below(s.hand.frame.id, s.nextId))
    && (s.hand.Sending? ==>
          !Written(s.socket, s.hand.frame.call) && forall i :: 0 <= i < |s.socket| ==> Below(s.socket[i].id, s.hand.frame.id))
    && (s.hand.Awaiting? ==> Written(s.socket, s.hand.frame.call) && exists i :: 0 <= i < |s.socket| && s.socket[i] == s.hand.frame)
  }

  ghost predicate SocketOk(s: State) {
    && s.nextId <= U64_MAX
    && (forall i :: 0 <= i < |s.socket| ==> s.socket[i].call in s.calls && Below(s.socket[i].id, s.nextId))
    && (forall i, j :: 0 <= i < j < |s.socket| ==> s.socket[i].call != s.socket[j].call && Below(s.socket[i].id, s.socket[j].id))
  }

  ghost predicate Inv(s: State) {
    CallsOk(s) && QueueOk(s) && HandOk(s) && SocketOk(s)
  }

  lemma WrittenAfter(s: State, step: Step, c: CallId)
    requires Enabled(s, step)
    ensures Written(SocketAfter(s, step), c) <==> Written(s.socket, c) || (step.Write? && s.hand.frame.call == c)
  {
    hide CallsAfter, HandAfter;
    if Written(s.socket, c) {
      var i :| 0 <= i < |s.socket| && s.socket[i].call == c;
      assert SocketAfter(s, step)[i].call == c;
    }
    if step.Write? { assert SocketAfter(s, step)[|s.socket|] == s.hand.frame; }
  }

  lemma OwnReplyKept(s: State, step: Step, c: CallId, reply: Outcome)
    requires Enabled(s, step) && (reply.Confirmed? || reply.Rejected?) && OwnReply(s.socket, c, reply)
    ensures OwnReply(SocketAfter(s, step), c, reply)
  {
    var i :| 0 <= i < |s.socket| && s.socket[i].call == c && ReplyId(reply.response) == Some(s.socket[i].id);
    assert SocketAfter(s, step)[i].call == c;
  }

  /** A command that the reply loop ends with a response ends with one that carries its id. */
  lemma PolledReplyIsOwn(s: State, read: Read)
    requires Inv(s) && s.hand.Awaiting? && Polled(s, read).Some?
    requires Polled(s, read).value.Confirmed? || Polled(s, read).value.Rejected?
    ensures OwnReply(s.socket, s.hand.frame.call, Polled(s, read).value)
  {
  }

  lemma CallKept(s: State, step: Step, c: CallId)
    requires Inv(s) && Enabled(s, step) && c in CallsAfter(s, step)
    ensures CallOk(Next(s, step), c, CallsAfter(s, step)[c])
  {
    WrittenAfter(s, step, c);
    if c in s.calls {
      assert CallOk(s, c, s.calls[c]);
      var progress := s.calls[c].progress;
      if progress.Finished? && (progress.reply.Confirmed? || progress.reply.Rejected?) { OwnReplyKept(s, step, c, progress.reply); }
    }
    if step.Poll? && Polled(s, step.read).Some? && (Polled(s, step.read).value.Confirmed? || Polled(s, step.read).value.Rejected?) {
      PolledReplyIsOwn(s, step.read);
    }
    assert c !in s.calls ==> !Written(s.socket, c);
    assert HandOk(s) && QueueOk(s);
    hide Inv, CallsOk, SocketOk, HandAfter, Written, OwnReply, IncomingForCommand, OutcomeFromResponse;
  }

  lemma QueueKept(s: State, step: Step)
    requires Inv(s) && Enabled(s, step)
    ensures QueueOk(Next(s, step))
  {
    assert QueueOk(s) && HandOk(s);
    hide Inv, CallsOk, SocketOk, HandAfter, Written, OwnReply, Polled, Expired;
  }

  lemma HandKept(s: State, step: Step)
    requires Inv(s) && Enabled(s, step)
    ensures HandOk(Next(s, step))
  {
    if step.Begin? { assert CallOk(s, s.queue[0], s.calls[s.queue[0]]); }
    if step.Write? { assert SocketAfter(s, step)[|s.socket|] == s.hand.frame; }
    if s.hand != Idle { WrittenAfter(s, step, s.hand.frame.call); }
    hide CallsOk, Written, OwnReply, Polled, Expired, IncomingForCommand;
  }

  lemma SocketKept(s: State, step: Step)
    requires Inv(s) && Enabled(s, step)
    ensures SocketOk(Next(s, step))
  {
    assert HandOk(s) && SocketOk(s);
    hide Inv, CallsOk, HandAfter, OwnReply, Polled, Expired;
  }

  lemma NextKeepsInv(s: State, step: Step)
    requires Inv(s) && Enabled(s, step)
    ensures Inv(Next(s, step))
  {
    QueueKept(s, step);
    HandKept(s, step);
    SocketKept(s, step);
    hide CallOk, QueueOk, HandOk, SocketOk;
    forall c | c in CallsAfter(s, step)
      ensures CallOk(Next(s, step), c, CallsAfter(s, step)[c])
    {
      CallKept(s, step, c);
    }
    assert CallsOk(Next(s, step));
  }

  lemma {:induction false} InvAlways(s: State, steps: seq<Step>)
    requires Inv(s) && IsRun(s, steps)
    ensures Inv(After(s, steps))
    decreases |steps|
  {
    hide Inv, Next, Enabled;
    if steps != [] {
      NextKeepsInv(s, steps[0]);
      InvAlways(Next(s, steps[0]), steps[1..]);
    }
  }

  // ----- what an outcome tells its caller

  /** The command can no longer be written: it never will be, whatever happens next. */
  predicate Unsendable(s: State, c: CallId) {
    && c in s.calls
    && (|| s.calls[c].progress.Refused?
        || s.calls[c].progress == Finished(NotSent)
        || (s.calls[c].progress.Queued? && Expired(s, s.calls[c])))
  }

  lemma StepKeepsUnsendable(s: State, step: Step, c: CallId)
    requires Inv(s) && Enabled(s, step) && Unsendable(s, c)
    ensures Unsendable(Next(s, step), c)
  {
    hide CallsOk, SocketOk, HandAfter, Polled;
  }

  lemma {:induction false} NeverWritten(s: State, steps: seq<Step>, c: CallId)
    requires Inv(s) && IsRun(s, steps) && Unsendable(s, c)
    ensures !Written(After(s, steps).socket, c)
    decreases |steps|
  {
    if steps == [] {
      assert CallOk(s, c, s.calls[c]);
    } else {
      StepKeepsUnsendable(s, steps[0], c);
      NextKeepsInv(s, steps[0]);
      NeverWritten(Next(s, steps[0]), steps[1..], c);
    }
  }

  /** A command reported NotSent was not written before the report and is not written after it. */
  lemma NotSentIsTrueForever(steps: seq<Step>, more: seq<Step>, c: CallId)
    requires IsRun(INITIAL, steps) && IsRun(After(INITIAL, steps), more)
    requires c in After(INITIAL, steps).calls && After(INITIAL, steps).calls[c].outcome == Some(NotSent)
    ensures !Written(After(INITIAL, steps).socket, c) && !Written(After(After(INITIAL, steps), more).socket, c)
  {
    var s := After(INITIAL, steps);
    InvAlways(INITIAL, steps);
    assert CallOk(s, c, s.calls[c]);
    NeverWritten(s, more, c);
  }

  /** A caller that stops waiting while its command is still queued is told Unknown, yet the command
      is never written: the worker finds it expired when its turn comes. */
  lemma GivenUpInQueueIsNeverWritten(steps: seq<Step>, more: seq<Step>, c: CallId)
    requires IsRun(INITIAL, steps) && IsRun(After(INITIAL, steps), more)
    requires c in After(INITIAL, steps).calls && After(INITIAL, steps).calls[c].progress.Queued? && After(INITIAL, steps).calls[c].outcome.Some?
    ensures !Written(After(After(INITIAL, steps), more).socket, c)
  {
    var s := After(INITIAL, steps);
    InvAlways(INITIAL, steps);
    assert CallOk(s, c, s.calls[c]);
    NeverWritten(s, more, c);
  }

  /** Each call is written at most once, and two written commands share an id exactly when the
      counter had already saturated at the earlier one. */
  lemma WrittenOnceUnderItsOwnId(steps: seq<Step>, i: nat, j: nat)
    requires IsRun(INITIAL, steps) && i < j < |After(INITIAL, steps).socket|
    ensures var socket := After(INITIAL, steps).socket;
            && socket[i].call != socket[j].call
            && (socket[i].id == socket[j].id <==> socket[i].id == U64_MAX)
  {
    InvAlways(INITIAL, steps);
  }

  /** A response answers the one call that was written under its id: a late reply to a command that
      timed out never becomes another command's outcome. */
  lemma ReplyAnswersItsOwnCommand(steps: seq<Step>, c: CallId, k: nat)
    requires IsRun(INITIAL, steps) && c in After(INITIAL, steps).calls && k < |After(INITIAL, steps).socket|
    requires var outcome := After(INITIAL, steps).calls[c].outcome;
             && outcome.Some? && (outcome.value.Confirmed? || outcome.value.Rejected?)
             && ReplyId(outcome.value.response) == Some(After(INITIAL, steps).socket[k].id)
    ensures var s := After(INITIAL, steps);
            && OwnReply(s.socket, c, s.calls[c].outcome.value)
            && (s.socket[k].call == c || s.socket[k].id == U64_MAX)
  {
    var s := After(INITIAL, steps);
    InvAlways(INITIAL, steps);
    assert CallOk(s, c, s.calls[c]);
    var reply := s.calls[c].outcome.value;
    assert OwnReply(s.socket, c, reply);
    var i :| 0 <= i < |s.socket| && s.socket[i].call == c && ReplyId(reply.response) == Some(s.socket[i].id);
    if i != k {
      WrittenOnceUnderItsOwnId(steps, if i < k then i else k, if i < k then k else i);
    }
  }

  /** The counter has saturated, a command awaits its reply and `d` is next in the queue. */
  predicate Saturated(s: State, d: CallId) {
    && s.hand.Awaiting? && s.hand.frame.id == s.nextId == U64_MAX && s.hand.frame.call in s.calls
    && s.queue == [d] && d in s.calls && d != s.hand.frame.call && !s.stopped
    && !Expired(s, s.calls[s.hand.frame.call]) && !Expired(s, s.calls[d])
    && s.calls[s.hand.frame.call].deadline < s.calls[d].deadline
  }

  /** Once the counter has saturated the guarantee is gone: after `c` times out, a response that
      carries its id becomes the outcome of the next command `d`. */
  lemma SaturatedIdsMixReplies(s: State, d: CallId, reply: Value)
    requires Saturated(s, d) && ReplyId(reply) == Some(U64_MAX)
    ensures var steps := [Wait(s.calls[s.hand.frame.call].deadline), Poll(Nothing), Begin, Write(true), Poll(Received(reply, None))];
            && IsRun(s, steps)
            && s.hand.frame.call in After(s, steps).calls && d in After(s, steps).calls
            && After(s, steps).calls[s.hand.frame.call].progress == Finished(Unknown)
            && After(s, steps).calls[d].progress == Finished(OutcomeFromResponse(reply))
  {
    var c := s.hand.frame.call;
    var timedOut := Next(s, Wait(s.calls[c].deadline));
    var free := Next(timedOut, Poll(Nothing));
    assert free.hand == Idle && free.queue == [d] && free.nextId == U64_MAX && free.now == s.calls[c].deadline;
    assert free.calls == s.calls[c := s.calls[c].(progress := Finished(Unknown))];
    SaturatedReply(free, d, reply);
    RunOfOne(timedOut, Poll(Nothing), [Begin, Write(true), Poll(Received(reply, None))]);
    RunOfOne(s, Wait(s.calls[c].deadline), [Poll(Nothing), Begin, Write(true), Poll(Received(reply, None))]);
  }

  lemma SaturatedReply(s: State, d: CallId, reply: Value)
    requires s.hand.Idle? && !s.stopped && s.nextId == U64_MAX && s.queue == [d] && d in s.calls && !Expired(s, s.calls[d])
    requires ReplyId(reply) == Some(U64_MAX)
    ensures var steps := [Begin, Write(true), Poll(Received(reply, None))];
            && IsRun(s, steps)
            && After(s, steps).calls == s.calls[d := s.calls[d].(progress := Finished(OutcomeFromResponse(reply)))]
  {
    var begun := Next(s, Begin);
    var sent := Next(begun, Write(true));
    assert sent.hand == Awaiting(Frame(d, U64_MAX));
    var answered := Next(sent, Poll(Received(reply, None)));
    assert After(answered, []) == answered;
    RunOfOne(sent, Poll(Received(reply, None)), []);
    RunOfOne(begun, Write(true), [Poll(Received(reply, None))]);
    RunOfOne(s, Begin, [Write(true), Poll(Received(reply, None))]);
  }

  lemma RunOfOne(s: State, step: Step, rest: seq<Step>)
    requires Enabled(s, step) && IsRun(Next(s, step), rest)
    ensures IsRun(s, [step] + rest) && After(s, [step] + rest) == After(Next(s, step), rest)
  {
  }

  ghost predicate Reachable(s: State) {
    exists steps :: IsRun(INITIAL, steps) && After(INITIAL, steps) == s
  }

  lemma {:induction false} RunThenStep(s: State, steps: seq<Step>, step: Step)
    requires IsRun(s, steps) && Enabled(After(s, steps), step)
    ensures IsRun(s, steps + [step]) && After(s, steps + [step]) == Next(After(s, steps), step)
    decreases |steps|
  {
    hide Next, Enabled;
    if steps == [] {
      assert [step][1..] == [];
    } else {
      assert (steps + [step])[1..] == steps[1..] + [step];
      RunThenStep(Next(s, steps[0]), steps[1..], step);
    }
  }

  lemma ReachesNext(s: State, step: Step)
    requires Reachable(s) && Enabled(s, step)
    ensures Reachable(Next(s, step))
  {
    hide Next, Enabled;
    var steps :| IsRun(INITIAL, steps) && After(INITIAL, steps) == s;
    RunThenStep(INITIAL, steps, step);
  }

  /** Nothing is under way, and the ids below `n` have been taken. */
  ghost predicate AtRest(s: State, n: nat) {
    && s.hand.Idle? && s.queue == [] && s.nextId == n && !s.stopped && !s.disconnected && s.now == 0 && s.cancelled == {}
    && forall c :: c in s.calls ==> c < n
  }

  /** A new call that is put in the queue behind `s.queue`. */
  lemma CallQueued(s: State, c: CallId, deadline: nat) returns (queued: State)
    requires Reachable(s) && c !in s.calls && !s.stopped && !s.disconnected && s.now == 0 < deadline && s.cancelled == {}
    ensures Reachable(queued)
    ensures queued == s.(calls := s.calls[c := Call(deadline, 0, Queued, None)], queue := s.queue + [c])
  {
    var submitted := Next(s, Submit(c, deadline, 0));
    ReachesNext(s, Submit(c, deadline, 0));
    ReachesNext(submitted, Enqueue(c));
    queued := Next(submitted, Enqueue(c));
  }

  lemma CallBegun(s: State, c: CallId) returns (begun: State)
    requires Reachable(s) && s.queue == [c] && c in s.calls && s.hand.Idle? && !s.stopped && !Expired(s, s.calls[c])
    ensures Reachable(begun)
    ensures begun == s.(calls := s.calls[c := s.calls[c].(progress := Working)], queue := [],
                        hand := Sending(Frame(c, s.nextId)), nextId := SaturatingAdd(s.nextId, 1))
  {
    assert [c][1..] == [];
    ReachesNext(s, Begin);
    begun := Next(s, Begin);
  }

  lemma FrameWritten(s: State, ok: bool) returns (written: State)
    requires Reachable(s) && s.hand.Sending? && s.hand.frame.call in s.calls
    ensures Reachable(written)
    ensures var c := s.hand.frame.call;
            written == s.(calls := if ok then s.calls else s.calls[c := s.calls[c].(progress := Finished(Unknown))],
                          hand := if ok then Awaiting(s.hand.frame) else Idle, socket := s.socket + [s.hand.frame])
  {
    ReachesNext(s, Write(ok));
    written := Next(s, Write(ok));
  }

  lemma {:induction false} CounterReaches(n: nat) returns (s: State)
    requires 1 <= n <= U64_MAX
    ensures Reachable(s) && AtRest(s, n)
    decreases n
  {
    if n == 1 {
      assert IsRun(INITIAL, []) && After(INITIAL, []) == INITIAL;
      s := INITIAL;
    } else {
      var before := CounterReaches(n - 1);
      hide Reachable;
      var queued := CallQueued(before, n - 1, 1);
      var begun := CallBegun(queued, n - 1);
      s := FrameWritten(begun, false);
    }
  }

  /** Enough commands do saturate the counter. */
  lemma SaturationIsReached()
    ensures exists s, d :: Reachable(s) && Saturated(s, d)
  {
    var rest := CounterReaches(U64_MAX);
    hide Reachable;
    var queued := CallQueued(rest, U64_MAX, 1);
    var begun := CallBegun(queued, U64_MAX);
    var written := FrameWritten(begun, true);
    var d := U64_MAX + 1;
    var s := CallQueued(written, d, 2);
    assert [] + [d] == [d];
    assert Saturated(s, d);
  }
}
