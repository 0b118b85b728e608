/** Page captures and navigation waits: decisions made from the journal's bounded window that must
    hold of the complete event history. */
module Capture {
  import opened Json
  import J = Journal

  const CAPTURE_ATTEMPTS: nat := 3

  predicate StartsWith(s: string, prefix: string) {
    |prefix| <= |s| && s[..|prefix|] == prefix
  }

  predicate NetworkLifecycle(m: J.Message) {
    var name := Text(Get(m.params, "name"));
    name == Some("networkIdle") || name == Some("networkAlmostIdle")
  }

  predicate Relevant(m: J.Message) {
    m.name.Some? &&
    var name := m.name.value;
    (|| StartsWith(name, "DOM.")
     || StartsWith(name, "Accessibility.")
     || name in {"Page.frameNavigated", "Page.frameAttached", "Page.frameDetached", "Page.domContentEventFired", "Page.loadEventFired"}
     || (name == "Page.lifecycleEvent" && !NetworkLifecycle(m)))
  }

  predicate MaskInsertion(m: J.Message) {
    m.name == Some("DOM.childNodeInserted") &&
    var attributes := Pointer(m.params, ["node", "attributes"]);
    attributes.Some? && attributes.value.Arr? && Str("data-manuvra-mask") in attributes.value.items
  }

  predicate Disturbs(m: J.Message) {
    Relevant(m) && !MaskInsertion(m)
  }

  /** Nothing after the first `fence` events of the complete history disturbs the page. */
  ghost predicate Undisturbed(log: seq<J.Message>, fence: nat) {
    fence <= |log| && forall k :: fence <= k < |log| ==> !Disturbs(log[k])
  }

  /** The window reports no change exactly when the whole history since the fence is undisturbed and
      the window could still hold all of it. */
  method PageChangedSince(journal: J.Journal, fence: nat) returns (changed: bool)
    requires journal.Valid() && fence <= |journal.log|
    ensures !changed <==> Undisturbed(journal.log, fence) && J.Fits(journal.log, fence)
  {
    var snapshot := journal.SnapshotSince(fence);
    changed := snapshot.overflowed || exists i :: 0 <= i < |snapshot.events| && Disturbs(snapshot.events[i].message);
    if !snapshot.overflowed {
      assert fence == |journal.log| || J.Fits(journal.log, fence);
      assert forall i :: 0 <= i < |snapshot.events| ==> snapshot.events[i].message == journal.log[fence + i];
      assert forall k :: fence <= k < |journal.log| ==> journal.log[k] == snapshot.events[k - fence].message;
      assert journal.log[|journal.log|..] == [];
    }
  }

  // ----- captures

  datatype Error = CommandFailed | PageChanged

  datatype Result<T> = Ok(value: T) | Err(error: Error)

  /** What the browser does for one command: the events it sends meanwhile, and its answer if any. */
  datatype Response<T> = Response(events: seq<J.Message>, answer: Option<T>)

  datatype Observation = Observation(documentId: string, facts: Value)

  datatype Page = Page(observation: Observation, screenshot: string, redaction: Value)

  /** Everything the browser does during one attempt, in the order the attempt asks for it. */
  datatype Attempt = Attempt(
    idle: seq<J.Message>,
    watch: Response<Value>,
    masks: Response<Value>,
    observation: Response<Observation>,
    screenshot: Response<string>,
    again: Response<Observation>)

  type AppearanceFence = Option<(Observation, Observation) -> bool>

  method Deliver(journal: J.Journal, events: seq<J.Message>)
    requires journal.Valid()
    modifies journal
    ensures journal.Valid() && journal.log == old(journal.log) + events
  {
    for i := 0 to |events|
      invariant journal.Valid() && journal.log == old(journal.log) + events[..i]
    {
      journal.Record(events[i]);
    }
    assert events[..|events|] == events;
  }

  method Ask<T>(journal: J.Journal, response: Response<T>) returns (answer: Option<T>)
    requires journal.Valid()
    modifies journal
    ensures journal.Valid() && journal.log == old(journal.log) + response.events
    ensures answer == response.answer
  {
    Deliver(journal, response.events);
    answer := response.answer;
  }

  /** The events between the fence and the final check of an attempt. */
  function Fenced(a: Attempt, masking: bool, appearance: bool): seq<J.Message> {
    (if masking then a.masks.events else []) + a.observation.events + a.screenshot.events
    + (if appearance then a.again.events else [])
  }

  predicate Answered(a: Attempt, masking: bool) {
    a.watch.answer.Some? && (masking ==> a.masks.answer.Some?) && a.observation.answer.Some? && a.screenshot.answer.Some?
  }

  /** The caller's appearance facts hold between the observation and a second one. */
  predicate Matches(a: Attempt, appearance: AppearanceFence)
    requires a.observation.answer.Some?
  {
    appearance.Some? ==>
      a.again.answer.Some? && a.observation.answer.value.documentId == a.again.answer.value.documentId
      && appearance.value(a.observation.answer.value, a.again.answer.value)
  }

  predicate Took(a: Attempt, masking: bool, page: Page) {
    && Answered(a, masking)
    && page == Page(a.observation.answer.value, a.screenshot.answer.value, if masking then a.masks.answer.value else Null)
  }

  /** The part of an attempt inside the fence that gathers the page. */
  method Gather(journal: J.Journal, masking: bool, a: Attempt) returns (page: Option<Page>)
    requires journal.Valid() && a.watch.answer.Some?
    modifies journal
    ensures journal.Valid() && old(journal.log) <= journal.log
    ensures page.Some? <==> Answered(a, masking)
    ensures page.Some? ==> Took(a, masking, page.value) && journal.log == old(journal.log) + Fenced(a, masking, false)
  {
    hide journal.Valid, J.IsWindowStart, J.Fits;
    var redaction := Null;
    if masking {
      var masks := Ask(journal, a.masks);
      if masks.None? { return None; }
      redaction := masks.value;
    }
    var observation := Ask(journal, a.observation);
    if observation.None? { return None; }
    var screenshot := Ask(journal, a.screenshot);
    if screenshot.None? { return None; }
    return Some(Page(observation.value, screenshot.value, redaction));
  }

  /** Whether the caller's facts and the history since the fence still hold, with the second
      observation that the facts need; no answer when that observation fails. */
  method CaptureStable(journal: J.Journal, fence: nat, appearance: AppearanceFence, a: Attempt) returns (stable: Option<bool>)
    requires journal.Valid() && fence <= |journal.log| && a.observation.answer.Some?
    modifies journal
    ensures journal.Valid()
    ensures journal.log == old(journal.log) + (if appearance.Some? then a.again.events else [])
    ensures stable.None? <==> appearance.Some? && a.again.answer.None?
    ensures stable.Some? ==>
              (stable.value <==> Matches(a, appearance) && Undisturbed(journal.log, fence) && J.Fits(journal.log, fence))
  {
    if appearance.Some? {
      var again := Ask(journal, a.again);
      if again.None? { return None; }
      if !Matches(a, appearance) { return Some(false); }
    }
    var changed := PageChangedSince(journal, fence);
    return Some(!changed);
  }

  /** One attempt yields a page exactly when every command answered, the caller's facts held and the
      complete history since the fence, which precedes the masks, is undisturbed and not lost. */
  method CaptureOnce(journal: J.Journal, masking: bool, appearance: AppearanceFence, a: Attempt)
    returns (r: Result<Option<Page>>, ghost fence: nat)
    requires journal.Valid()
    modifies journal
    ensures journal.Valid()
    ensures r.Err? <==> !Answered(a, masking) || (appearance.Some? && a.again.answer.None?)
    ensures r.Err? ==> r.error == CommandFailed
    ensures r.Ok? ==> fence <= |journal.log| && journal.log[fence..] == Fenced(a, masking, appearance.Some?)
    ensures r.Ok? ==> (r.value.Some? <==> Matches(a, appearance) && Undisturbed(journal.log, fence) && J.Fits(journal.log, fence))
    ensures r.Ok? && r.value.Some? ==> Took(a, masking, r.value.value)
  {
    hide journal.Valid, J.IsWindowStart, J.Fits;
    fence := 0;
    Deliver(journal, a.idle);
    var watch := Ask(journal, a.watch);
    if watch.None? { return Err(CommandFailed), 0; }
    var cursor := journal.Cursor();
    fence := cursor;
    ghost var before := journal.log;
    var page := Gather(journal, masking, a);
    if page.None? { return Err(CommandFailed), fence; }
    var stable := CaptureStable(journal, cursor, appearance, a);
    if stable.None? { return Err(CommandFailed), fence; }
    assert journal.log == before + Fenced(a, masking, appearance.Some?);
    return Ok(if stable.value then page else None), fence;
  }

  /** A returned page comes whole from one attempt, and the complete history from that attempt's fence
      to its final check is undisturbed and not lost. "Page changed" is reported only after every attempt. */
  method CaptureFenced(journal: J.Journal, masking: bool, appearance: AppearanceFence, attempts: seq<Attempt>)
    returns (r: Result<Page>, taken: nat, ghost fence: nat)
    requires journal.Valid() && |attempts| == CAPTURE_ATTEMPTS
    modifies journal
    ensures journal.Valid()
    ensures taken <= |attempts|
    ensures r.Ok? ==>
              && taken < |attempts| && Took(attempts[taken], masking, r.value) && Matches(attempts[taken], appearance)
              && fence <= |journal.log| && journal.log[fence..] == Fenced(attempts[taken], masking, appearance.Some?)
              && Undisturbed(journal.log, fence) && J.Fits(journal.log, fence)
    ensures r == Err(PageChanged) <==> taken == |attempts|
    ensures r == Err(CommandFailed) ==>
              taken < |attempts| && (!Answered(attempts[taken], masking) || (appearance.Some? && attempts[taken].again.answer.None?))
    ensures forall k :: 0 <= k < taken ==> Answered(attempts[k], masking)
  {
    fence := 0;
    for i := 0 to CAPTURE_ATTEMPTS
      invariant journal.Valid()
      invariant forall k :: 0 <= k < i ==> Answered(attempts[k], masking)
    {
      var once;
      once, fence := CaptureOnce(journal, masking, appearance, attempts[i]);
      if once.Err? { return Err(once.error), i, fence; }
      if once.value.Some? { return Ok(once.value.value), i, fence; }
    }
    return Err(PageChanged), CAPTURE_ATTEMPTS, fence;
  }

  // ----- waiting for a quiet document

  const QUIET_WINDOW: nat := 150

  /** One turn of the wait: what evaluating the document's state brings, and the time of the turn. */
  datatype Turn = Turn(state: Response<bool>, now: nat, expired: bool)

  datatype Waited = Quiet | NotQuiet | Overflowed | CommandError

  /** Reads on from `cursor`: whether anything relevant came, unless some of it was lost. */
  method ReadOn(journal: J.Journal, cursor: nat) returns (lost: bool, relevant: bool, last: nat)
    requires journal.Valid() && cursor <= |journal.log|
    ensures last == |journal.log|
    ensures lost <==> cursor < |journal.log| && !J.Fits(journal.log, cursor)
    ensures !lost ==> (relevant <==> exists k :: cursor <= k < |journal.log| && Relevant(journal.log[k]))
  {
    var snapshot := journal.SnapshotSince(cursor);
    lost, last := snapshot.overflowed, snapshot.lastCursor;
    relevant := exists i :: 0 <= i < |snapshot.events| && Relevant(snapshot.events[i].message);
    if !lost {
      assert forall i :: 0 <= i < |snapshot.events| ==> snapshot.events[i].message == journal.log[cursor + i];
      assert forall k :: cursor <= k < |journal.log| ==> journal.log[k] == snapshot.events[k - cursor].message;
    }
  }

  /** Quiet is reported only when the document was seen complete at some turn, and the complete history
      has had no relevant event from before that turn until the report, the quiet window later. */
  method WaitForDocument(journal: J.Journal, from: nat, turns: seq<Turn>) returns (r: Waited, ghost start: nat, ghost since: nat, ghost last: nat)
    requires journal.Valid() && from <= |journal.log|
    requires exists k :: 0 <= k < |turns| && turns[k].expired
    modifies journal
    ensures journal.Valid() && last < |turns|
    ensures r == Quiet ==>
              && since <= last && turns[since].state.answer == Some(true)
              && turns[last].now >= turns[since].now + QUIET_WINDOW
              && from <= start <= |journal.log| && (forall k :: start <= k < |journal.log| ==> !Relevant(journal.log[k]))
    ensures r == NotQuiet ==> turns[last].expired
    ensures r == CommandError ==> turns[last].state.answer.None?
  {
    hide journal.Valid, J.IsWindowStart, J.Fits;
    ghost var deadline :| 0 <= deadline < |turns| && turns[deadline].expired;
    var cursor: nat := from;
    var quietSince: Option<nat> := None;
    start, since := from, 0;
    var i := 0;
    while true
      invariant 0 <= i <= deadline
      invariant journal.Valid() && from <= start && from <= cursor <= |journal.log| && (i > 0 ==> cursor == |journal.log|)
      invariant quietSince.Some? ==>
                  && since < i && turns[since].state.answer == Some(true) && quietSince.value == turns[since].now
                  && start <= cursor && (forall k :: start <= k < cursor ==> !Relevant(journal.log[k]))
      decreases |turns| - i
    {
      var turn := turns[i];
      var state := Ask(journal, turn.state);
      if state.None? { return CommandError, start, since, i; }
      var lost, relevant, lastCursor := ReadOn(journal, cursor);
      if lost { return Overflowed, start, since, i; }
      if relevant {
        quietSince := None;
      } else if state.value && quietSince.None? {
        quietSince, start, since := Some(turn.now), cursor, i;
      }
      cursor := lastCursor;
      if quietSince.Some? && turn.now >= quietSince.value + QUIET_WINDOW { return Quiet, start, since, i; }
      if turn.expired { return NotQuiet, start, since, i; }
      i := i + 1;
    }
  }

  // ----- loading frames

  function FrameId(m: J.Message): Option<string> {
    Text(Get(m.params, "frameId"))
  }

  predicate Starts(m: J.Message, frame: string) {
    m.name == Some("Page.frameStartedLoading") && FrameId(m) == Some(frame)
  }

  predicate Stops(m: J.Message, frame: string) {
    m.name == Some("Page.frameStoppedLoading") && FrameId(m) == Some(frame)
  }

  /** Some start of the frame has no stop after it. */
  ghost predicate StillLoading(events: seq<J.Message>, frame: string) {
    exists i :: 0 <= i < |events| && Starts(events[i], frame) && forall j :: i < j < |events| ==> !Stops(events[j], frame)
  }

  method LoadingFrames(events: seq<J.Message>) returns (loading: set<string>)
    ensures forall frame :: frame in loading <==> StillLoading(events, frame)
  {
    loading := {};
    for n := 0 to |events|
      invariant forall frame :: frame in loading <==> StillLoading(events[..n], frame)
    {
      var event := events[n];
      var before := loading;
      if FrameId(event).Some? {
        if event.name == Some("Page.frameStartedLoading") {
          loading := loading + {FrameId(event).value};
        } else if event.name == Some("Page.frameStoppedLoading") {
          loading := loading - {FrameId(event).value};
        }
      }
      forall frame
        ensures frame in loading <==> StillLoading(events[..n + 1], frame)
      {
        LoadingAfter(events[..n], event, frame);
        assert events[..n] + [event] == events[..n + 1];
      }
    }
    assert events[..|events|] == events;
  }

  lemma LoadingAfter(events: seq<J.Message>, event: J.Message, frame: string)
    ensures StillLoading(events + [event], frame) <==> Starts(event, frame) || (StillLoading(events, frame) && !Stops(event, frame))
  {
    var all := events + [event];
    if Starts(event, frame) { assert Starts(all[|events|], frame); }
    if StillLoading(events, frame) && !Stops(event, frame) {
      var i :| 0 <= i < |events| && Starts(events[i], frame) && forall j :: i < j < |events| ==> !Stops(events[j], frame);
      assert Starts(all[i], frame);
    }
    if StillLoading(all, frame) && !Starts(event, frame) {
      var i :| 0 <= i < |all| && Starts(all[i], frame) && forall j :: i < j < |all| ==> !Stops(all[j], frame);
      assert Starts(events[i], frame) && !Stops(all[|events|], frame);
      assert forall j :: i < j < |events| ==> events[j] == all[j];
    }
  }

  // ----- closing the browser

  datatype Lifecycle = Running | Terminated | Closed

  /** At most the last of these tries succeeded, and then there were no more. */
  predicate StopsAtSuccess(tries: seq<bool>) {
    forall i :: 0 <= i < |tries| - 1 ==> !tries[i]
  }

  predicate Succeeded(tries: seq<bool>) {
    tries != [] && tries[|tries| - 1]
  }

  class OwnedBrowser {
    var lifecycle: Lifecycle
    /** The outcome of every signal sent to the browser process, and of every profile removal. */
    ghost var signals: seq<bool>
    ghost var removals: seq<bool>

    ghost predicate Valid()
      reads this
    {
      && StopsAtSuccess(signals) && StopsAtSuccess(removals)
      && (removals != [] ==> Succeeded(signals))
      && (lifecycle.Running? <==> !Succeeded(signals))
      && (lifecycle.Closed? <==> Succeeded(removals))
    }

    constructor ()
      ensures Valid() && lifecycle == Running && signals == [] && removals == []
    {
      lifecycle, signals, removals := Running, [], [];
    }

    /** `terminates` and `removes` say whether each effect would succeed if it is tried now. */
    method Close(terminates: bool, removes: bool) returns (ok: bool)
      requires Valid()
      modifies this
      ensures Valid()
      ensures ok <==> lifecycle.Closed?
      ensures signals == old(signals) + (if old(lifecycle.Running?) then [terminates] else [])
      ensures removals == old(removals) + (if Succeeded(signals) && !old(lifecycle.Closed?) then [removes] else [])
    {
      if lifecycle.Running? {
        signals := signals + [terminates];
        if !terminates { return false; }
        lifecycle := Terminated;
      }
      if lifecycle.Terminated? {
        removals := removals + [removes];
        if !removes { return false; }
        lifecycle := Closed;
      }
      return true;
    }
  }
}
