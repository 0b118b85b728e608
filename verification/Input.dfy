/** Native input dispatch: compound operations over a browser whose every command may be confirmed,
    rejected, not sent or unknown, and what the reported outcome then says about the page. */
module Input {
  import opened Json
  import Capture
  import J = Journal
  import T = Transport

  datatype Key =
    Escape | Tab | ShiftTab | Enter | Space | ArrowUp | ArrowDown | ArrowLeft | ArrowRight | Home | End

  datatype Operation =
    Click | TypeText | Select | SetValue | ScrollUp | ScrollDown | Hover | PressKey(key: Key)

  /** Two anchors are the same focus identity exactly when they are equal. */
  datatype FocusAnchor = FocusAnchor(nodeId: nat, covered: bool, inClosedShadow: bool, identity: Value)

  datatype Prepared = Prepared(
    documentId: string,
    nodeId: nat,
    operation: Operation,
    text: Option<string>,
    previousText: Option<string>,
    optionNodeId: Option<nat>,
    combobox: bool,
    focus: Option<FocusAnchor>,
    scrollRegion: Option<nat>)

  datatype Kind =
    | ObserveFocus | ResolveFocus | DescribeFocus | ReleaseFocus
    | Revalidate | LocateRegion(region: nat, direction: int) | ReadScroll | ReadText
    | MousePress(x: int, y: int) | MouseRelease(x: int, y: int) | MouseMove(x: int, y: int) | Wheel(x: int, y: int, delta: int)
    | KeyDown(key: Key) | KeyUp(key: Key) | CharDown(c: char) | CharUp(c: char)
    | FocusAndSelect | InsertText(text: string) | SelectOption(option: nat) | AssignValue(text: string) | ScrollPage(direction: int)

  /** Commands that can affect the page; the others only look. */
  predicate ChangesPage(kind: Kind) {
    !(kind.ObserveFocus? || kind.ResolveFocus? || kind.DescribeFocus? || kind.ReleaseFocus?
      || kind.Revalidate? || kind.LocateRegion? || kind.ReadScroll? || kind.ReadText?)
  }

  datatype Sent = Sent(kind: Kind, outcome: T.Outcome)

  datatype Fact = Fact(scrolled: bool, readback: Option<string>, matches: Option<bool>)

  datatype PerformError = NotPerformed | Uncertain | Rejected

  datatype Result<T> = Ok(value: T) | Err(error: PerformError)

  /** The page-changing commands among `sent`, in order. */
  function Changes(sent: seq<Sent>): seq<Sent> {
    if sent == [] then []
    else
      Changes(sent[..|sent| - 1])
      + (if ChangesPage(sent[|sent| - 1].kind) then [sent[|sent| - 1]] else [])
  }

  lemma ChangesOf(sent: seq<Sent>, last: Sent)
    ensures Changes(sent + [last]) == Changes(sent) + if ChangesPage(last.kind) then [last] else []
  {
  }

  /** The browser as an adversary: the outcome of every command and the events it causes are
      whatever these functions say. */
  class Client {
    const journal: J.Journal
    const outcomes: nat -> T.Outcome
    const events: nat -> seq<J.Message>
    var count: nat
    ghost var log: seq<Sent>

    ghost predicate Valid()
      reads this, journal
    {
      journal.Valid() && count == |log|
    }

    constructor (journal: J.Journal, outcomes: nat -> T.Outcome, events: nat -> seq<J.Message>)
      requires journal.Valid()
      ensures Valid() && log == [] && this.journal == journal && this.outcomes == outcomes && this.events == events
    {
      this.journal, this.outcomes, this.events, count, log := journal, outcomes, events, 0, [];
    }

    method Command(kind: Kind) returns (outcome: T.Outcome)
      requires Valid()
      modifies this, journal
      ensures Valid() && old(journal.log) <= journal.log
      ensures outcome == outcomes(old(count)) && count == old(count) + 1 && log == old(log) + [Sent(kind, outcome)]
    {
      Capture.Deliver(journal, events(count));
      outcome := outcomes(count);
      count, log := count + 1, log + [Sent(kind, outcome)];
    }
  }

  function ResultOf(o: T.Outcome): Value
    requires o.Confirmed?
  {
    if Get(o.response, "result").Some? then Get(o.response, "result").value else Null
  }

  /** A first command: what did not reach the browser was not performed. */
  function Classify(o: T.Outcome): Result<Value> {
    match o
    case Confirmed(_) => Ok(ResultOf(o))
    case Rejected(_) => Err(Rejected)
    case NotSent => Err(NotPerformed)
    case Unknown => Err(Uncertain)
  }

  /** A later command of a compound input: an earlier one may already have had an effect. */
  function ClassifyAfter(o: T.Outcome): Result<Value> {
    if o.Confirmed? then Ok(ResultOf(o)) else Err(Uncertain)
  }

  /** The value an evaluation returned. */
  function Evaluated(response: Value): Option<Value> {
    Pointer(response, ["result", "value"])
  }

  function EvaluatedOrNull(response: Value): Value {
    if Evaluated(response).Some? then Evaluated(response).value else Null
  }

  predicate IsOk(v: Value) {
    Flag(Get(v, "ok")) == Some(true)
  }

  function Number(v: Option<Value>): Option<int> {
    if v.Some? && v.value.Num? then Some(v.value.n) else None
  }

  function Point(target: Value): Option<(int, int)> {
    if Number(Get(target, "x")).Some? && Number(Get(target, "y")).Some?
    then Some((Number(Get(target, "x")).value, Number(Get(target, "y")).value)) else None
  }

  // ----- what the outcome promises

  /** The commands are those planned, in order, each after a confirmed one. */
  predicate FollowsPlan(changes: seq<Sent>, plan: seq<Kind>) {
    && |changes| <= |plan|
    && (forall k :: 0 <= k < |changes| ==> changes[k].kind == plan[k])
    && (forall k :: 0 <= k < |changes| - 1 ==> changes[k].outcome.Confirmed?)
  }

  /** NotPerformed: nothing that changes the page was transmitted. Rejected: nothing was confirmed or
      left unknown. Ok: everything planned was confirmed. */
  predicate Truthful<T>(changes: seq<Sent>, plan: seq<Kind>, r: Result<T>) {
    && FollowsPlan(changes, plan)
    && (r.Ok? ==> |changes| == |plan| && forall k :: 0 <= k < |changes| ==> changes[k].outcome.Confirmed?)
    && (r == Err(NotPerformed) ==> changes == [] || (|changes| == 1 && changes[0].outcome.NotSent?))
    && (r == Err(Rejected) ==> changes == [] || (|changes| == 1 && changes[0].outcome.Rejected?))
  }

  /** The answer to the look that starts an operation, Null unless it was confirmed. */
  function Target(sent: seq<Sent>): Value {
    if sent != [] && (sent[0].kind.Revalidate? || sent[0].kind.LocateRegion?) && sent[0].outcome.Confirmed?
    then EvaluatedOrNull(ResultOf(sent[0].outcome)) else Null
  }

  function Direction(op: Operation): int {
    if op.ScrollUp? then -1 else 1
  }

  /** What an operation other than TypeText does to the page, given the answer to its first look. */
  function PlanFor(input: Prepared, target: Value): seq<Kind> {
    match input.operation
    case Click =>
      if Point(target).Some?
      then [MousePress(Point(target).value.0, Point(target).value.1), MouseRelease(Point(target).value.0, Point(target).value.1)]
      else []
    case Hover => if Point(target).Some? then [MouseMove(Point(target).value.0, Point(target).value.1)] else []
    case PressKey(key) => [KeyDown(key), KeyUp(key)]
    case Select => if input.optionNodeId.Some? then [SelectOption(input.optionNodeId.value)] else []
    case SetValue => if input.text.Some? then [AssignValue(input.text.value)] else []
    case TypeText => []
    case _ =>
      if input.scrollRegion.None? then [ScrollPage(Direction(input.operation))]
      else if Point(target).Some? && Number(Get(target, "delta")).Some?
      then [Wheel(Point(target).value.0, Point(target).value.1, Number(Get(target, "delta")).value)]
      else []
  }

  lemma {:induction false} ChangesConcat(a: seq<Sent>, b: seq<Sent>)
    ensures Changes(a + b) == Changes(a) + Changes(b)
  {
    if b == [] {
      assert a + b == a;
    } else {
      assert (a + b)[..|a + b| - 1] == a + b[..|b| - 1];
      ChangesConcat(a, b[..|b| - 1]);
    }
  }

  // ----- looking before acting

  function RevalidateResult(o: T.Outcome): Result<Value> {
    var response := Classify(o);
    if response.Err? then response
    else if !IsOk(EvaluatedOrNull(response.value)) then Err(Rejected)
    else Ok(EvaluatedOrNull(response.value))
  }

  method RevalidateTarget(client: Client) returns (r: Result<Value>, ghost sent: seq<Sent>)
    requires client.Valid()
    modifies client, client.journal
    ensures client.Valid() && old(client.journal.log) <= client.journal.log
    ensures client.log == old(client.log) + sent && Changes(sent) == []
    ensures sent == [Sent(Revalidate, client.outcomes(old(client.count)))] && r == RevalidateResult(sent[0].outcome)
  {
    var outcome := client.Command(Revalidate);
    return RevalidateResult(outcome), [Sent(Revalidate, outcome)];
  }

  /** The focus an observation reports: the document and the anchor, if they can be read at all. */
  type FocusReader = Value -> Option<(string, Option<FocusAnchor>)>

  predicate HostsClosedShadowRoot(described: Value) {
    var roots := Pointer(described, ["node", "shadowRoots"]);
    roots.Some? && roots.value.Arr? &&
    exists i :: 0 <= i < |roots.value.items| && Get(roots.value.items[i], "shadowRootType") == Some(Str("closed"))
  }

  /** A covered anchor whose host has a closed shadow root is focus inside that root. */
  method MarkClosedShadowFocus(client: Client, anchor: Option<FocusAnchor>) returns (r: Result<Option<FocusAnchor>>, ghost sent: seq<Sent>)
    requires client.Valid()
    modifies client, client.journal
    ensures client.Valid() && old(client.journal.log) <= client.journal.log
    ensures client.log == old(client.log) + sent && Changes(sent) == []
    ensures r.Ok? ==>
              || r.value == anchor
              || (anchor.Some? && anchor.value.covered && r.value == Some(anchor.value.(covered := false, inClosedShadow := true)))
    ensures anchor.None? || !anchor.value.covered ==> sent == [] && r == Ok(anchor)
  {
    hide client.Valid;
    sent := [];
    if anchor.None? || !anchor.value.covered { return Ok(anchor), []; }
    var handle := client.Command(ResolveFocus);
    sent := [Sent(ResolveFocus, handle)];
    var resolved := Classify(handle);
    if resolved.Err? { return Err(resolved.error), sent; }
    if Text(Pointer(resolved.value, ["result", "objectId"])).None? { return Ok(anchor), sent; }
    var answer := client.Command(DescribeFocus);
    var released := client.Command(ReleaseFocus);
    ChangesOf([], sent[0]);
    ChangesOf(sent, Sent(DescribeFocus, answer));
    ChangesOf(sent + [Sent(DescribeFocus, answer)], Sent(ReleaseFocus, released));
    assert [] + sent == sent;
    sent := sent + [Sent(DescribeFocus, answer)] + [Sent(ReleaseFocus, released)];
    var described := Classify(answer);
    if described.Err? { return Err(described.error), sent; }
    if HostsClosedShadowRoot(described.value) {
      return Ok(Some(anchor.value.(covered := false, inClosedShadow := true))), sent;
    }
    return Ok(anchor), sent;
  }

  /** The observed focus is the expected one, up to the discovery that it is in a closed root. */
  predicate FocusAgrees(seen: Option<FocusAnchor>, expected: Option<FocusAnchor>) {
    || seen == expected
    || (seen.Some? && seen.value.covered && expected == Some(seen.value.(covered := false, inClosedShadow := true)))
  }

  method RevalidateFocus(client: Client, input: Prepared, read: FocusReader) returns (r: Result<Value>, ghost sent: seq<Sent>)
    requires client.Valid()
    modifies client, client.journal
    ensures client.Valid() && old(client.journal.log) <= client.journal.log
    ensures client.log == old(client.log) + sent && Changes(sent) == []
    ensures |sent| > 0 && sent[0].kind == ObserveFocus
    ensures r.Ok? ==> FocusSeen(sent, input, read)
  {
    var outcome := client.Command(ObserveFocus);
    sent := [Sent(ObserveFocus, outcome)];
    var response := Classify(outcome);
    if response.Err? { return Err(response.error), sent; }
    var seen := read(EvaluatedOrNull(response.value));
    if seen.None? || seen.value.0 != input.documentId { return Err(Rejected), sent; }
    var marked;
    ghost var more;
    marked, more := MarkClosedShadowFocus(client, seen.value.1);
    ChangesConcat(sent, more);
    sent := sent + more;
    if marked.Err? { return Err(marked.error), sent; }
    if marked.value != input.focus { return Err(Rejected), sent; }
    return Ok(Null), sent;
  }

  /** The confirmed observation that came first read as the same document with the same focus. */
  ghost predicate FocusSeen(sent: seq<Sent>, input: Prepared, read: FocusReader) {
    && sent != [] && sent[0].kind == ObserveFocus && sent[0].outcome.Confirmed?
    && var seen := read(EvaluatedOrNull(ResultOf(sent[0].outcome)));
       seen.Some? && seen.value.0 == input.documentId && FocusAgrees(seen.value.1, input.focus)
  }

  // ----- the operations

  /** A pair of commands of which the second is sent only after the first is confirmed. */
  method DispatchPair(client: Client, first: Kind, second: Kind) returns (r: Result<Fact>, ghost sent: seq<Sent>)
    requires client.Valid() && ChangesPage(first) && ChangesPage(second)
    modifies client, client.journal
    ensures client.Valid() && old(client.journal.log) <= client.journal.log
    ensures client.log == old(client.log) + sent
    ensures Truthful(Changes(sent), [first, second], r)
  {
    var began := client.Command(first);
    sent := [Sent(first, began)];
    ChangesOf([], sent[0]);
    assert [] + sent == sent;
    if !began.Confirmed? { return Err(Classify(began).error), sent; }
    var ended := client.Command(second);
    ChangesOf(sent, Sent(second, ended));
    sent := sent + [Sent(second, ended)];
    if ClassifyAfter(ended).Err? { return Err(Uncertain), sent; }
    return Ok(Fact(false, None, None)), sent;
  }

  method Click(client: Client, input: Prepared, target: Value) returns (r: Result<Fact>, ghost sent: seq<Sent>)
    requires client.Valid() && input.operation.Click?
    modifies client, client.journal
    ensures client.Valid() && old(client.journal.log) <= client.journal.log
    ensures client.log == old(client.log) + sent
    ensures Truthful(Changes(sent), PlanFor(input, target), r)
  {
    if Point(target).None? { return Err(Rejected), []; }
    var x, y := Point(target).value.0, Point(target).value.1;
    r, sent := DispatchPair(client, MousePress(x, y), MouseRelease(x, y));
  }

  /** The move is the hover's only dispatch, so its own outcome is the hover's. */
  method Hover(client: Client, input: Prepared, target: Value) returns (r: Result<Fact>, ghost sent: seq<Sent>)
    requires client.Valid() && input.operation.Hover?
    modifies client, client.journal
    ensures client.Valid() && old(client.journal.log) <= client.journal.log
    ensures client.log == old(client.log) + sent
    ensures Truthful(Changes(sent), PlanFor(input, target), r)
  {
    if Point(target).None? { return Err(Rejected), []; }
    var move := MouseMove(Point(target).value.0, Point(target).value.1);
    r, sent := DispatchOne(client, move);
  }

  method DispatchOne(client: Client, kind: Kind) returns (r: Result<Fact>, ghost sent: seq<Sent>)
    requires client.Valid() && ChangesPage(kind)
    modifies client, client.journal
    ensures client.Valid() && old(client.journal.log) <= client.journal.log
    ensures client.log == old(client.log) + sent
    ensures Truthful(Changes(sent), [kind], r)
  {
    var outcome := client.Command(kind);
    sent := [Sent(kind, outcome)];
    ChangesOf([], sent[0]);
    assert [] + sent == sent;
    if Classify(outcome).Err? { return Err(Classify(outcome).error), sent; }
    return Ok(Fact(false, None, None)), sent;
  }

  method PressKey(client: Client, key: Key) returns (r: Result<Fact>, ghost sent: seq<Sent>)
    requires client.Valid()
    modifies client, client.journal
    ensures client.Valid() && old(client.journal.log) <= client.journal.log
    ensures client.log == old(client.log) + sent
    ensures Truthful(Changes(sent), [KeyDown(key), KeyUp(key)], r)
  {
    r, sent := DispatchPair(client, KeyDown(key), KeyUp(key));
  }

  /** A script that changes the page and reads it back in one evaluation: any answer but a confirmed
      and complete one leaves the outcome uncertain. */
  method DispatchScript(client: Client, kind: Kind) returns (r: Result<Value>, ghost sent: seq<Sent>)
    requires client.Valid() && ChangesPage(kind)
    modifies client, client.journal
    ensures client.Valid() && old(client.journal.log) <= client.journal.log
    ensures client.log == old(client.log) + sent
    ensures Truthful(Changes(sent), [kind], r) && (r.Err? ==> r.error.Uncertain?)
    ensures r.Ok? ==> Text(Get(r.value, "value")).Some?
    ensures r.Ok? ==> sent == [Sent(kind, sent[0].outcome)] && sent[0].outcome.Confirmed? && r.value == EvaluatedOrNull(ResultOf(sent[0].outcome))
  {
    var outcome := client.Command(kind);
    sent := [Sent(kind, outcome)];
    ChangesOf([], sent[0]);
    assert [] + sent == sent;
    if ClassifyAfter(outcome).Err? { return Err(Uncertain), sent; }
    var readback := EvaluatedOrNull(ResultOf(outcome));
    if !IsOk(readback) || Text(Get(readback, "value")).None? { return Err(Uncertain), sent; }
    return Ok(readback), sent;
  }

  /** The readback is the selected value, and it matches if the value or the label is the wanted text. */
  predicate Selected(input: Prepared, sent: seq<Sent>, fact: Fact) {
    && |sent| == 1 && sent[0].outcome.Confirmed?
    && var v := EvaluatedOrNull(ResultOf(sent[0].outcome));
       var caption := if Text(Get(v, "label")).Some? then Text(Get(v, "label")) else Some("");
       fact.readback == Text(Get(v, "value")) && fact.matches == Some(fact.readback == input.text || caption == input.text)
  }

  method Select(client: Client, input: Prepared) returns (r: Result<Fact>, ghost sent: seq<Sent>)
    requires client.Valid() && input.operation.Select?
    modifies client, client.journal
    ensures client.Valid() && old(client.journal.log) <= client.journal.log
    ensures client.log == old(client.log) + sent
    ensures Truthful(Changes(sent), PlanFor(input, Null), r)
    ensures r.Ok? ==> Selected(input, sent, r.value)
  {
    if input.optionNodeId.None? || input.text.None? { return Err(Rejected), []; }
    var script;
    script, sent := DispatchScript(client, SelectOption(input.optionNodeId.value));
    if script.Err? { return Err(Uncertain), sent; }
    var value := Text(Get(script.value, "value")).value;
    var caption := if Text(Get(script.value, "label")).Some? then Text(Get(script.value, "label")).value else "";
    return Ok(Fact(false, Some(value), Some(value == input.text.value || caption == input.text.value))), sent;
  }

  method SetValue(client: Client, input: Prepared) returns (r: Result<Fact>, ghost sent: seq<Sent>)
    requires client.Valid() && input.operation.SetValue?
    modifies client, client.journal
    ensures client.Valid() && old(client.journal.log) <= client.journal.log
    ensures client.log == old(client.log) + sent
    ensures Truthful(Changes(sent), PlanFor(input, Null), r)
    ensures r.Ok? ==> input.text.Some? && r.value.matches == Some(r.value.readback == input.text)
  {
    if input.text.None? { return Err(Rejected), []; }
    var script;
    script, sent := DispatchScript(client, AssignValue(input.text.value));
    if script.Err? { return Err(Uncertain), sent; }
    var value := Text(Get(script.value, "value")).value;
    return Ok(Fact(false, Some(value), Some(value == input.text.value))), sent;
  }

  /** The positions a scroll readback must report: a non-empty list of readable ones. */
  predicate ScrollPositions(response: Value) {
    var v := EvaluatedOrNull(response);
    v.Arr? && v.items != [] &&
    forall i :: 0 <= i < |v.items| ==> Number(Get(v.items[i], "before")).Some? && Number(Get(v.items[i], "after")).Some?
  }

  method ScrollRegion(client: Client, input: Prepared) returns (r: Result<Fact>, ghost sent: seq<Sent>)
    requires client.Valid() && (input.operation.ScrollUp? || input.operation.ScrollDown?) && input.scrollRegion.Some?
    modifies client, client.journal
    ensures client.Valid() && old(client.journal.log) <= client.journal.log
    ensures client.log == old(client.log) + sent
    ensures |sent| > 0 && sent[0].kind == LocateRegion(input.scrollRegion.value, Direction(input.operation))
    ensures Truthful(Changes(sent), PlanFor(input, Target(sent)), r)
    ensures Changes(sent) != [] ==> IsOk(Target(sent))
  {
    hide client.Valid;
    var look := LocateRegion(input.scrollRegion.value, Direction(input.operation));
    var located := client.Command(look);
    sent := [Sent(look, located)];
    assert Changes(sent) == [] by { ChangesOf([], sent[0]); assert [] + sent == sent; }
    if Classify(located).Err? { return Err(Classify(located).error), sent; }
    var target := EvaluatedOrNull(ResultOf(located));
    if !IsOk(target) { return Err(Rejected), sent; }
    if Point(target).None? || Number(Get(target, "delta")).None? { return Err(Uncertain), sent; }
    var wheel := Wheel(Point(target).value.0, Point(target).value.1, Number(Get(target, "delta")).value);
    ghost var more;
    r, more := ScrollAt(client, wheel);
    ChangesConcat(sent, more);
    sent := sent + more;
  }

  method ScrollAt(client: Client, wheel: Kind) returns (r: Result<Fact>, ghost sent: seq<Sent>)
    requires client.Valid() && wheel.Wheel?
    modifies client, client.journal
    ensures client.Valid() && old(client.journal.log) <= client.journal.log
    ensures client.log == old(client.log) + sent
    ensures Truthful(Changes(sent), [wheel], r)
    ensures r.Ok? ==> sent != [] && sent[|sent| - 1].outcome.Confirmed? && ScrollPositions(ResultOf(sent[|sent| - 1].outcome))
  {
    hide client.Valid;
    r, sent := DispatchOne(client, wheel);
    if r.Err? { return; }
    var positions := client.Command(ReadScroll);
    ChangesOf(sent, Sent(ReadScroll, positions));
    sent := sent + [Sent(ReadScroll, positions)];
    if ClassifyAfter(positions).Err? || !ScrollPositions(ResultOf(positions)) { return Err(Uncertain), sent; }
    return Ok(Fact(true, None, None)), sent;
  }

  // ----- typing

  function Keys(text: string): seq<Kind> {
    seq(2 * |text|, i requires 0 <= i < 2 * |text| => if i % 2 == 0 then CharDown(text[i / 2]) else CharUp(text[i / 2]))
  }

  predicate AllConfirmed(changes: seq<Sent>) {
    forall k :: 0 <= k < |changes| ==> changes[k].outcome.Confirmed?
  }

  lemma FollowsOn(done: seq<Sent>, more: seq<Sent>, plan: seq<Kind>, rest: seq<Kind>)
    requires FollowsPlan(done, plan) && |done| == |plan| && AllConfirmed(done) && FollowsPlan(more, rest)
    ensures FollowsPlan(done + more, plan + rest)
    ensures AllConfirmed(done + more) <==> AllConfirmed(more)
  {
    assert forall k :: 0 <= k < |more| ==> (done + more)[|done| + k] == more[k];
  }

  /** The text a confirmed readback reports. */
  function ReadbackOf(o: T.Outcome): Option<string> {
    if o.Confirmed? && Evaluated(ResultOf(o)).Some? && IsOk(Evaluated(ResultOf(o)).value)
    then Text(Get(Evaluated(ResultOf(o)).value, "value")) else None
  }

  method ReadBack(client: Client) returns (r: Option<string>, ghost sent: seq<Sent>)
    requires client.Valid()
    modifies client, client.journal
    ensures client.Valid() && old(client.journal.log) <= client.journal.log
    ensures client.log == old(client.log) + sent && Changes(sent) == [] && client.count == old(client.count) + 1
    ensures sent == [Sent(ReadText, client.outcomes(old(client.count)))] && r == ReadbackOf(sent[0].outcome)
  {
    var outcome := client.Command(ReadText);
    return ReadbackOf(outcome), [Sent(ReadText, outcome)];
  }

  /** One character: pressed, then released once the press is confirmed. */
  method DispatchCharacter(client: Client, c: char) returns (ok: bool, ghost sent: seq<Sent>)
    requires client.Valid()
    modifies client, client.journal
    ensures client.Valid() && old(client.journal.log) <= client.journal.log
    ensures client.log == old(client.log) + sent
    ensures FollowsPlan(Changes(sent), [CharDown(c), CharUp(c)])
    ensures ok ==> |Changes(sent)| == 2 && AllConfirmed(Changes(sent))
  {
    hide client.Valid;
    var down := client.Command(CharDown(c));
    sent := [Sent(CharDown(c), down)];
    ChangesOf([], sent[0]);
    assert [] + sent == sent;
    if !down.Confirmed? { return false, sent; }
    var up := client.Command(CharUp(c));
    ChangesOf(sent, Sent(CharUp(c), up));
    sent := sent + [Sent(CharUp(c), up)];
    return up.Confirmed?, sent;
  }

  lemma CharacterFollows(done: seq<Sent>, more: seq<Sent>, text: string, i: nat)
    requires i < |text| && |done| == 2 * i && AllConfirmed(done) && FollowsPlan(done, Keys(text))
    requires FollowsPlan(more, [CharDown(text[i]), CharUp(text[i])])
    ensures FollowsPlan(done + more, Keys(text))
    ensures AllConfirmed(more) ==> AllConfirmed(done + more)
  {
  }

  /** Every character is pressed and released in order, each after the one before is confirmed. */
  method DispatchKeys(client: Client, text: string) returns (ok: bool, ghost sent: seq<Sent>)
    requires client.Valid()
    modifies client, client.journal
    ensures client.Valid() && old(client.journal.log) <= client.journal.log
    ensures client.log == old(client.log) + sent
    ensures FollowsPlan(Changes(sent), Keys(text))
    ensures ok ==> |Changes(sent)| == |Keys(text)| && AllConfirmed(Changes(sent))
  {
    sent := [];
    assert Changes(sent) == [] && AllConfirmed(Changes(sent)) && FollowsPlan(Changes(sent), Keys(text)) && |Keys(text)| == 2 * |text|;
    hide *;
    for i := 0 to |text|
      invariant client.Valid() && old(client.journal.log) <= client.journal.log
      invariant client.log == old(client.log) + sent
      invariant |Changes(sent)| == 2 * i && AllConfirmed(Changes(sent)) && FollowsPlan(Changes(sent), Keys(text))
    {
      ghost var more;
      ok, more := DispatchCharacter(client, text[i]);
      ChangesConcat(sent, more);
      CharacterFollows(Changes(sent), Changes(more), text, i);
      sent := sent + more;
      if !ok { return false, sent; }
    }
    return true, sent;
  }

  /** The insert was confirmed but the target still reads as it did before. */
  predicate Unchanged(input: Prepared, readback: Option<string>) {
    readback.Some? && readback != input.text && readback == input.previousText
  }

  /** What typing does: the fallback to single keys follows an insert without effect. */
  function TypePlan(input: Prepared, sent: seq<Sent>): seq<Kind> {
    if input.text.None? then [FocusAndSelect]
    else
      [FocusAndSelect, InsertText(input.text.value)]
      + if |sent| > 2 && Unchanged(input, ReadbackOf(sent[2].outcome)) then Keys(input.text.value) else []
  }

  /** The text turned out to be missing only after the target was focused and selected. */
  predicate MissingText(input: Prepared, sent: seq<Sent>) {
    input.text.None? && |sent| == 1 && sent[0].kind.FocusAndSelect? && sent[0].outcome.Confirmed?
  }

  predicate InsertIgnored(input: Prepared, focus: T.Outcome, insert: T.Outcome, readback: T.Outcome) {
    input.text.Some? && focus.Confirmed? && insert.Confirmed? && Unchanged(input, ReadbackOf(readback))
  }

  /** The target was refused or not reached when it was checked again before the single keys. */
  predicate FallbackRefused(input: Prepared, sent: seq<Sent>) {
    && |sent| == 4 && input.text.Some?
    && sent[0].kind.FocusAndSelect? && sent[1].kind == InsertText(input.text.value) && sent[2].kind.ReadText? && sent[3].kind.Revalidate?
    && InsertIgnored(input, sent[0].outcome, sent[1].outcome, sent[2].outcome)
    && RevalidateResult(sent[3].outcome).Err?
  }

  /** A refusal that reads as if nothing had happened although typing had begun. */
  predicate LateRefusal(input: Prepared, sent: seq<Sent>) {
    MissingText(input, sent) || (FallbackRefused(input, sent) && !RevalidateResult(sent[3].outcome).error.Uncertain?)
  }

  method PerKeyText(client: Client, input: Prepared) returns (r: Result<Fact>, ghost sent: seq<Sent>)
    requires client.Valid() && input.text.Some?
    modifies client, client.journal
    ensures client.Valid() && old(client.journal.log) <= client.journal.log
    ensures client.log == old(client.log) + sent
    ensures |sent| > 0 && sent[0] == Sent(Revalidate, client.outcomes(old(client.count)))
    ensures RevalidateResult(sent[0].outcome).Err? ==> |sent| == 1 && r == Err(RevalidateResult(sent[0].outcome).error)
    ensures RevalidateResult(sent[0].outcome).Ok? ==> (r.Err? ==> r.error.Uncertain?)
    ensures FollowsPlan(Changes(sent), Keys(input.text.value))
    ensures r.Ok? ==> |Changes(sent)| == |Keys(input.text.value)| && AllConfirmed(Changes(sent))
    ensures r.Ok? ==> r.value.matches == Some(r.value.readback == input.text)
  {
    assert FollowsPlan([], Keys(input.text.value));
    hide client.Valid, RevalidateResult, FollowsPlan, Keys, AllConfirmed, ReadbackOf;
    var target;
    target, sent := RevalidateTarget(client);
    if target.Err? { return Err(target.error), sent; }
    ghost var more;
    r, more := KeysThenRead(client, input);
    ChangesConcat(sent, more);
    assert Changes(sent + more) == Changes(more);
    sent := sent + more;
  }

  method KeysThenRead(client: Client, input: Prepared) returns (r: Result<Fact>, ghost sent: seq<Sent>)
    requires client.Valid() && input.text.Some?
    modifies client, client.journal
    ensures client.Valid() && old(client.journal.log) <= client.journal.log
    ensures client.log == old(client.log) + sent
    ensures FollowsPlan(Changes(sent), Keys(input.text.value))
    ensures r.Err? ==> r.error.Uncertain?
    ensures r.Ok? ==> |Changes(sent)| == |Keys(input.text.value)| && AllConfirmed(Changes(sent))
    ensures r.Ok? ==> r.value.matches == Some(r.value.readback == input.text)
  {
    hide client.Valid, FollowsPlan, Keys, AllConfirmed, ReadbackOf;
    var ok;
    ok, sent := DispatchKeys(client, input.text.value);
    if !ok { return Err(Uncertain), sent; }
    var readback;
    ghost var more;
    readback, more := ReadBack(client);
    ChangesConcat(sent, more);
    assert Changes(sent + more) == Changes(sent);
    sent := sent + more;
    if readback.None? { return Err(Uncertain), sent; }
    return Ok(Fact(false, readback, Some(readback == input.text))), sent;
  }

  function InsertPlan(input: Prepared): seq<Kind> {
    if input.text.None? then [FocusAndSelect] else [FocusAndSelect, InsertText(input.text.value), ReadText]
  }

  /** The planned commands were sent in order, each after the one before was confirmed, and nothing
      stopped them early but a command that was not. */
  predicate InsertRan(input: Prepared, sent: seq<Sent>) {
    && 1 <= |sent| <= |InsertPlan(input)|
    && (forall k :: 0 <= k < |sent| ==> sent[k].kind == InsertPlan(input)[k])
    && (forall k :: 0 <= k < |sent| - 1 ==> sent[k].outcome.Confirmed?)
    && (|sent| < |InsertPlan(input)| ==> !sent[|sent| - 1].outcome.Confirmed?)
  }

  function InsertResult(input: Prepared, sent: seq<Sent>): Result<string>
    requires InsertRan(input, sent)
  {
    if |sent| == 1 then Err(if Classify(sent[0].outcome).Err? then Classify(sent[0].outcome).error else Rejected)
    else if |sent| == 3 && ReadbackOf(sent[2].outcome).Some? then Ok(ReadbackOf(sent[2].outcome).value)
    else Err(Uncertain)
  }

  /** Focuses, inserts and reads back. */
  method InsertAndRead(client: Client, input: Prepared) returns (r: Result<string>, ghost sent: seq<Sent>)
    requires client.Valid()
    modifies client, client.journal
    ensures client.Valid() && old(client.journal.log) <= client.journal.log
    ensures client.log == old(client.log) + sent && client.count == old(client.count) + |sent|
    ensures InsertRan(input, sent) && r == InsertResult(input, sent)
    ensures forall k :: 0 <= k < |sent| ==> sent[k].outcome == client.outcomes(old(client.count) + k)
  {
    hide client.Valid, ReadbackOf, ResultOf;
    var focus := client.Command(FocusAndSelect);
    sent := [Sent(FocusAndSelect, focus)];
    if Classify(focus).Err? { return Err(Classify(focus).error), sent; }
    if input.text.None? { return Err(Rejected), sent; }
    var text := input.text.value;
    var insert := client.Command(InsertText(text));
    sent := [Sent(FocusAndSelect, focus), Sent(InsertText(text), insert)];
    if ClassifyAfter(insert).Err? { return Err(Uncertain), sent; }
    var readback;
    ghost var more;
    readback, more := ReadBack(client);
    sent := sent + more;
    if readback.None? { return Err(Uncertain), sent; }
    return Ok(readback.value), sent;
  }

  lemma ChangesOfUpTo3(a: Sent, b: Sent, c: Sent)
    ensures Changes([a]) == if ChangesPage(a.kind) then [a] else []
    ensures Changes([a, b]) == Changes([a]) + if ChangesPage(b.kind) then [b] else []
    ensures Changes([a, b, c]) == Changes([a, b]) + if ChangesPage(c.kind) then [c] else []
  {
    ChangesOf([], a);
    ChangesOf([a], b);
    ChangesOf([a, b], c);
    assert [] + [a] == [a] && [a] + [b] == [a, b] && [a, b] + [c] == [a, b, c];
    hide Changes, ChangesPage;
  }

  lemma {:induction false} InsertChanges(input: Prepared, sent: seq<Sent>)
    requires InsertRan(input, sent)
    ensures Changes(sent) == if |sent| == 1 then sent else sent[..2]
  {
    hide Changes;
    var a := sent[0];
    var b := if |sent| > 1 then sent[1] else a;
    var c := if |sent| > 2 then sent[2] else a;
    ChangesOfUpTo3(a, b, c);
    assert sent == [a] || sent == [a, b] || sent == [a, b, c];
    assert |sent| > 1 ==> sent[..2] == [a, b];
  }

  /** An insert that stops early is truthful about it unless the text was missing. */
  lemma {:induction false} StoppedInsertIsTruthful(input: Prepared, sent: seq<Sent>, error: PerformError)
    requires InsertRan(input, sent) && InsertResult(input, sent) == Err(error)
    ensures FollowsPlan(Changes(sent), TypePlan(input, sent))
    ensures Truthful<Fact>(Changes(sent), TypePlan(input, sent), Err(error)) <==> !LateRefusal(input, sent)
    ensures LateRefusal(input, sent) ==> error.Rejected?
  {
    InsertChanges(input, sent);
    hide Changes, Keys, ReadbackOf, RevalidateResult;
  }

  lemma {:induction false} ReadInsert(input: Prepared, sent: seq<Sent>)
    requires InsertRan(input, sent) && InsertResult(input, sent).Ok?
    ensures |sent| == 3 && input.text.Some? && Changes(sent) == sent[..2]
    ensures sent[0].kind == FocusAndSelect && sent[1].kind == InsertText(input.text.value) && sent[2].kind == ReadText
    ensures sent[0].outcome.Confirmed? && sent[1].outcome.Confirmed?
    ensures ReadbackOf(sent[2].outcome) == Some(InsertResult(input, sent).value)
  {
    InsertChanges(input, sent);
    hide Changes, ReadbackOf;
  }

  lemma AcceptedInsertIsTruthful(input: Prepared, sent: seq<Sent>, r: Result<Fact>)
    requires InsertRan(input, sent) && InsertResult(input, sent).Ok? && r.Ok?
    requires !Unchanged(input, Some(InsertResult(input, sent).value))
    ensures FollowsPlan(Changes(sent), TypePlan(input, sent)) && Truthful(Changes(sent), TypePlan(input, sent), r)
    ensures input.text.Some? && !LateRefusal(input, sent)
  {
    ReadInsert(input, sent);
    hide InsertRan, InsertResult, Changes, ReadbackOf, RevalidateResult;
  }

  lemma IneffectiveInsert(input: Prepared, sent: seq<Sent>)
    requires InsertRan(input, sent) && InsertResult(input, sent).Ok?
    requires Unchanged(input, Some(InsertResult(input, sent).value))
    ensures Ineffective(input, sent) && Changes(sent) == sent[..2] && |sent| == 3 && input.text.Some?
  {
    ReadInsert(input, sent);
    hide InsertRan, InsertResult, Changes, ReadbackOf;
  }

  /** When the browser confirms an insert and then reports the text unchanged, the insert is read back. */
  lemma IgnoredInsertIsRead(input: Prepared, sent: seq<Sent>, outcomes: nat -> T.Outcome, n: nat)
    requires InsertRan(input, sent) && forall k :: 0 <= k < |sent| ==> sent[k].outcome == outcomes(n + k)
    requires InsertIgnored(input, outcomes(n), outcomes(n + 1), outcomes(n + 2))
    ensures InsertResult(input, sent).Ok? && Unchanged(input, Some(InsertResult(input, sent).value))
  {
    hide ReadbackOf;
    assert sent[0].outcome == outcomes(n + 0);
  }

  /** The sequence that inserted without effect and then turned to single keys. */
  predicate Ineffective(input: Prepared, sent: seq<Sent>) {
    && input.text.Some? && |sent| == 3
    && sent[0].kind == FocusAndSelect && sent[1].kind == InsertText(input.text.value) && sent[2].kind == ReadText
    && InsertIgnored(input, sent[0].outcome, sent[1].outcome, sent[2].outcome)
  }

  lemma FallbackIsTruthful(input: Prepared, sent: seq<Sent>, keys: seq<Sent>, r: Result<Fact>)
    requires Ineffective(input, sent) && Changes(sent) == sent[..2]
    requires |keys| > 0 && keys[0].kind == Revalidate && FollowsPlan(Changes(keys), Keys(input.text.value))
    requires RevalidateResult(keys[0].outcome).Err? ==> |keys| == 1 && r == Err(RevalidateResult(keys[0].outcome).error)
    requires RevalidateResult(keys[0].outcome).Ok? ==> (r.Err? ==> r.error.Uncertain?)
    requires r.Ok? ==> |Changes(keys)| == |Keys(input.text.value)| && AllConfirmed(Changes(keys))
    ensures FollowsPlan(Changes(sent + keys), TypePlan(input, sent + keys))
    ensures Truthful(Changes(sent + keys), TypePlan(input, sent + keys), r) <==> !LateRefusal(input, sent + keys)
    ensures LateRefusal(input, sent + keys) ==> r.Err? && !r.error.Uncertain?
  {
    var all := sent + keys;
    ChangesConcat(sent, keys);
    FollowsOn(sent[..2], Changes(keys), [FocusAndSelect, InsertText(input.text.value)], Keys(input.text.value));
    assert TypePlan(input, all) == [FocusAndSelect, InsertText(input.text.value)] + Keys(input.text.value);
    assert |Changes(all)| >= 2 && !MissingText(input, all);
    assert RevalidateResult(keys[0].outcome).Err? <==> FallbackRefused(input, all) by { assert all[3] == keys[0]; }
    hide FollowsPlan, Keys, RevalidateResult, InsertIgnored;
  }

  /** The outcome of typing is as truthful as any other's, except exactly when it is a late refusal. */
  method TypeText(client: Client, input: Prepared) returns (r: Result<Fact>, ghost sent: seq<Sent>)
    requires client.Valid()
    modifies client, client.journal
    ensures client.Valid() && old(client.journal.log) <= client.journal.log
    ensures client.log == old(client.log) + sent
    ensures FollowsPlan(Changes(sent), TypePlan(input, sent))
    ensures Truthful(Changes(sent), TypePlan(input, sent), r) <==> !LateRefusal(input, sent)
    ensures LateRefusal(input, sent) ==> r.Err? && !r.error.Uncertain?
    ensures r.Ok? ==> input.text.Some? && r.value.matches == Some(r.value.readback == input.text)
    ensures var n := old(client.count);
            InsertIgnored(input, client.outcomes(n), client.outcomes(n + 1), client.outcomes(n + 2)) ==>
              |sent| > 3 && sent[3] == Sent(Revalidate, client.outcomes(n + 3))
              && (RevalidateResult(sent[3].outcome).Err? ==> FallbackRefused(input, sent) && r == Err(RevalidateResult(sent[3].outcome).error))
  {
    hide *;
    ghost var n := client.count;
    var readback;
    readback, sent := InsertAndRead(client, input);
    if InsertIgnored(input, client.outcomes(n), client.outcomes(n + 1), client.outcomes(n + 2)) {
      IgnoredInsertIsRead(input, sent, client.outcomes, n);
    }
    if readback.Err? {
      StoppedInsertIsTruthful(input, sent, readback.error);
      return Err(readback.error), sent;
    }
    if !Unchanged(input, Some(readback.value)) {
      r := Ok(Fact(false, Some(readback.value), Some(Some(readback.value) == input.text)));
      AcceptedInsertIsTruthful(input, sent, r);
      return;
    }
    IneffectiveInsert(input, sent);
    ghost var more;
    r, more := PerKeyText(client, input);
    FallbackIsTruthful(input, sent, more, r);
    FallbackIsRefused(input, sent, more);
    sent := sent + more;
  }

  /** After an ineffective insert, a refused check ends the typing. */
  lemma FallbackIsRefused(input: Prepared, sent: seq<Sent>, keys: seq<Sent>)
    requires Ineffective(input, sent) && |keys| > 0 && keys[0].kind == Revalidate
    requires RevalidateResult(keys[0].outcome).Err? ==> |keys| == 1
    ensures |sent + keys| > 3 && (sent + keys)[3] == keys[0]
    ensures RevalidateResult(keys[0].outcome).Err? ==> FallbackRefused(input, sent + keys)
  {
    hide RevalidateResult, InsertIgnored;
  }

  // ----- one prepared input

  method ScrollInput(client: Client, input: Prepared) returns (r: Result<Fact>, ghost sent: seq<Sent>)
    requires client.Valid() && (input.operation.ScrollUp? || input.operation.ScrollDown?)
    modifies client, client.journal
    ensures client.Valid() && old(client.journal.log) <= client.journal.log
    ensures client.log == old(client.log) + sent
    ensures Truthful(Changes(sent), PlanFor(input, Target(sent)), r)
    ensures Changes(sent) != [] && input.scrollRegion.Some? ==> IsOk(Target(sent))
  {
    hide client.Valid, FollowsPlan;
    if input.scrollRegion.Some? {
      r, sent := ScrollRegion(client, input);
    } else {
      r, sent := DispatchOne(client, ScrollPage(Direction(input.operation)));
    }
  }

  /** Everything that follows a look which found the target usable. */
  method DispatchTarget(client: Client, input: Prepared, target: Value) returns (r: Result<Fact>, ghost sent: seq<Sent>)
    requires client.Valid()
    requires input.operation in {Operation.Click, Operation.Hover, Operation.Select, Operation.SetValue, Operation.TypeText}
    modifies client, client.journal
    ensures client.Valid() && old(client.journal.log) <= client.journal.log
    ensures client.log == old(client.log) + sent
    ensures !input.operation.TypeText? ==> Truthful(Changes(sent), PlanFor(input, target), r)
    ensures input.operation.TypeText? ==>
              && FollowsPlan(Changes(sent), TypePlan(input, sent))
              && (Truthful(Changes(sent), TypePlan(input, sent), r) <==> !LateRefusal(input, sent))
              && (LateRefusal(input, sent) ==> r.Err? && !r.error.Uncertain?)
  {
    hide client.Valid, FollowsPlan, Truthful;
    match input.operation {
      case Click => r, sent := Click(client, input, target);
      case Hover => r, sent := Hover(client, input, target);
      case Select => r, sent := Select(client, input);
      case SetValue => r, sent := SetValue(client, input);
      case TypeText => r, sent := TypeText(client, input);
    }
  }

  /** No command changes the page before the look its operation requires has succeeded. */
  ghost predicate Guarded(input: Prepared, sent: seq<Sent>, read: FocusReader) {
    Changes(sent) != [] ==>
      match input.operation
      case PressKey(_) => FocusSeen(sent, input, read)
      case ScrollUp => input.scrollRegion.Some? ==> IsOk(Target(sent))
      case ScrollDown => input.scrollRegion.Some? ==> IsOk(Target(sent))
      case _ => IsOk(Target(sent))
  }

  /** What typing sent after the look at its target. */
  function Typed(sent: seq<Sent>): seq<Sent> {
    if sent == [] then [] else sent[1..]
  }

  ghost predicate Honest(input: Prepared, sent: seq<Sent>, r: Result<Fact>) {
    if input.operation.TypeText? then
      && FollowsPlan(Changes(sent), TypePlan(input, Typed(sent)))
      && (Truthful(Changes(sent), TypePlan(input, Typed(sent)), r) <==> !LateRefusal(input, Typed(sent)))
      && (LateRefusal(input, Typed(sent)) ==> r.Err? && !r.error.Uncertain?)
    else Truthful(Changes(sent), PlanFor(input, Target(sent)), r)
  }

  lemma NothingDone<T>(plan: seq<Kind>, error: PerformError)
    ensures Truthful<T>([], plan, Err(error))
  {
  }

  lemma LookThenPress(input: Prepared, sent: seq<Sent>, more: seq<Sent>, read: FocusReader, r: Result<Fact>)
    requires input.operation.PressKey? && FocusSeen(sent, input, read) && Changes(sent) == []
    requires Truthful(Changes(more), [KeyDown(input.operation.key), KeyUp(input.operation.key)], r)
    ensures Honest(input, sent + more, r) && Guarded(input, sent + more, read)
  {
    ChangesConcat(sent, more);
    hide Truthful, Changes;
    assert Changes(sent + more) == Changes(more);
  }

  method PerformKey(client: Client, input: Prepared, read: FocusReader) returns (r: Result<Fact>, ghost sent: seq<Sent>)
    requires client.Valid() && input.operation.PressKey?
    modifies client, client.journal
    ensures client.Valid() && old(client.journal.log) <= client.journal.log
    ensures client.log == old(client.log) + sent
    ensures Honest(input, sent, r) && Guarded(input, sent, read)
  {
    hide client.Valid, Truthful, Changes, FocusSeen;
    var focus;
    focus, sent := RevalidateFocus(client, input, read);
    if focus.Err? {
      NothingDone<Fact>([KeyDown(input.operation.key), KeyUp(input.operation.key)], focus.error);
      return Err(focus.error), sent;
    }
    ghost var more;
    r, more := PressKey(client, input.operation.key);
    LookThenPress(input, sent, more, read, r);
    sent := sent + more;
  }

  lemma LookFirst(look: Sent, more: seq<Sent>)
    requires look.kind == Revalidate
    ensures Changes([look] + more) == Changes(more) && Typed([look] + more) == more
    ensures RevalidateResult(look.outcome).Ok? ==>
              Target([look] + more) == RevalidateResult(look.outcome).value && IsOk(Target([look] + more))
  {
    ChangesConcat([look], more);
    assert Changes([look]) == [] by { ChangesOf([], look); assert [] + [look] == [look]; }
  }

  lemma LookThenAct(input: Prepared, look: Sent, target: Value, more: seq<Sent>, read: FocusReader, r: Result<Fact>)
    requires input.operation in {Operation.Click, Operation.Hover, Operation.Select, Operation.SetValue, Operation.TypeText}
    requires look.kind == Revalidate && RevalidateResult(look.outcome) == Ok(target)
    requires !input.operation.TypeText? ==> Truthful(Changes(more), PlanFor(input, target), r)
    requires input.operation.TypeText? ==>
               && FollowsPlan(Changes(more), TypePlan(input, more))
               && (Truthful(Changes(more), TypePlan(input, more), r) <==> !LateRefusal(input, more))
               && (LateRefusal(input, more) ==> r.Err? && !r.error.Uncertain?)
    ensures Honest(input, [look] + more, r) && Guarded(input, [look] + more, read)
  {
    hide FollowsPlan, Truthful, TypePlan, PlanFor, LateRefusal, Changes, RevalidateResult, Target, IsOk, Typed, FocusSeen;
    LookFirst(look, more);
  }

  method PerformOnTarget(client: Client, input: Prepared, read: FocusReader) returns (r: Result<Fact>, ghost sent: seq<Sent>)
    requires client.Valid()
    requires input.operation in {Operation.Click, Operation.Hover, Operation.Select, Operation.SetValue, Operation.TypeText}
    modifies client, client.journal
    ensures client.Valid() && old(client.journal.log) <= client.journal.log
    ensures client.log == old(client.log) + sent
    ensures Honest(input, sent, r) && Guarded(input, sent, read)
  {
    hide client.Valid, FollowsPlan, Truthful, TypePlan, PlanFor, LateRefusal, Changes, RevalidateResult, Honest, Guarded;
    var target;
    target, sent := RevalidateTarget(client);
    if target.Err? {
      RefusedAtOnce(input, sent[0], target.error, read);
      return Err(target.error), sent;
    }
    ghost var more;
    r, more := DispatchTarget(client, input, target.value);
    LookThenAct(input, sent[0], target.value, more, read, r);
    sent := sent + more;
  }

  lemma RefusedAtOnce(input: Prepared, look: Sent, error: PerformError, read: FocusReader)
    requires input.operation in {Operation.Click, Operation.Hover, Operation.Select, Operation.SetValue, Operation.TypeText}
    requires look.kind == Revalidate
    ensures Honest(input, [look], Err(error)) && Guarded(input, [look], read)
  {
  }

  /** The whole input: the outcome is honest about what was sent, nothing changes the page unchecked,
      and success also means that no event since the fence was lost. */
  method Perform(client: Client, input: Prepared, read: FocusReader) returns (r: Result<Fact>, ghost sent: seq<Sent>)
    requires client.Valid()
    modifies client, client.journal
    ensures client.Valid() && old(client.journal.log) <= client.journal.log
    ensures client.log == old(client.log) + sent
    ensures Honest(input, sent, r) && Guarded(input, sent, read)
    ensures r.Ok? ==> |old(client.journal.log)| == |client.journal.log| || J.Fits(client.journal.log, |old(client.journal.log)|)
  {
    hide Truthful, FollowsPlan, TypePlan, LateRefusal, Changes, FocusSeen;
    var fence := client.journal.Cursor();
    if input.operation.PressKey? {
      r, sent := PerformKey(client, input, read);
    } else if input.operation.ScrollUp? || input.operation.ScrollDown? {
      r, sent := ScrollInput(client, input);
    } else {
      r, sent := PerformOnTarget(client, input, read);
    }
    if r.Ok? && client.journal.LostEventsSince(fence) {
      SuccessMayBecomeUncertain(input, sent, r.value);
      r := Err(Uncertain);
    }
  }

  /** Withdrawing a success is always honest. */
  lemma SuccessMayBecomeUncertain(input: Prepared, sent: seq<Sent>, fact: Fact)
    requires Honest(input, sent, Ok(fact))
    ensures Honest(input, sent, Err(Uncertain))
  {
  }

  function TextResponse(text: string): T.Outcome {
    T.Confirmed(Obj(map["result" := Obj(map["result" := Obj(map["value" := Obj(map["ok" := Bool(true), "value" := Str(text)])])])]))
  }

  lemma TextResponseReads(text: string)
    ensures ReadbackOf(TextResponse(text)) == Some(text)
  {
  }

  /** The exception is real: an insert that is confirmed but reads back unchanged, followed by a
      check that never leaves the transport, is reported as not performed. */
  method TypedButNotPerformed() returns (r: Result<Fact>, ghost sent: seq<Sent>)
    ensures r == Err(NotPerformed)
    ensures |sent| == 4 && sent[1].kind == InsertText("new") && sent[1].outcome.Confirmed? && ChangesPage(sent[1].kind)
  {
    TextResponseReads("old");
    hide ReadbackOf, TextResponse, FollowsPlan, Truthful, TypePlan;
    var journal := new J.Journal();
    var client := new Client(journal, n => if n == 3 then T.NotSent else if n == 2 then TextResponse("old") else T.Confirmed(Null), n => []);
    var input := Prepared("document", 1, Operation.TypeText, Some("new"), Some("old"), None, false, None, None);
    assert client.count == 0 by { assert client.Valid(); }
    assert InsertIgnored(input, client.outcomes(0), client.outcomes(1), client.outcomes(2)) by {
      assert "old"[0] != "new"[0];
    }
    r, sent := TypeText(client, input);
  }
}
