/** The three mutexes of the run host: threads that take them in increasing rank, so that someone can
    always go on, and control replies that never wait for a durable write. */
module LockOrder {
  datatype Mutex = Publication | Resume | Run

  function Rank(m: Mutex): nat {
    match m
    case Publication => 0
    case Resume => 1
    case Run => 2
  }

  /** What a thread does: `Work` touches memory only, `Durable` waits for the disk. */
  datatype Op = Acquire(m: Mutex) | Release(m: Mutex) | Work | Durable

  /** Code with scoped guards: what is done while a mutex is held, then what follows. */
  datatype Block = End | Do(op: Op, next: Block) | Under(m: Mutex, body: Block, next: Block)

  function Ops(b: Block): seq<Op> {
    match b
    case End => []
    case Do(op, next) => [op] + Ops(next)
    case Under(m, body, next) => [Acquire(m)] + Ops(body) + [Release(m)] + Ops(next)
  }

  /** Mutexes of rank `floor` and above are free to take; the disk is not touched under `run`, unless
      the code runs before any other thread exists. */
  predicate Ranked(b: Block, floor: nat, alone: bool) {
    match b
    case End => true
    case Do(op, next) => (op.Work? || (op.Durable? && (alone || floor <= Rank(Run)))) && Ranked(next, floor, alone)
    case Under(m, body, next) => floor <= Rank(m) && Ranked(body, Rank(m) + 1, alone) && Ranked(next, floor, alone)
  }

  // ----- the host's code

  /** A reading or an update of the run's memory. */
  function Look(next: Block): Block {
    Under(Run, Do(Work, End), next)
  }

  /** Advance the run, answer the resume that awaits a checkpoint, write the control. */
  function PublishCheckpoint(): Block {
    Under(Publication, Look(Under(Resume, Do(Durable, Do(Work, End)), Do(Durable, End))), End)
  }

  /** The response could not be published, so the control is not written. */
  function PublishFailing(): Block {
    Under(Publication, Look(Under(Resume, Do(Durable, End), End)), End)
  }

  /** One turn of the wait for a disposition: deadlines first, then the pending resume. */
  function WaitWhilePaused(): Block {
    Look(Under(Resume, Do(Work, End), End))
  }

  /** A resume frame: identity, admission, reply. A repeated receipt ends inside the guards, a stale
      one after the run was looked at, an admitted one after the control was written. */
  function Admit(): Block {
    Look(Under(Publication, Under(Resume, Look(Do(Durable, Do(Work, End))), End), Look(End)))
  }

  /** The control could not be written, so memory keeps no receipt. */
  function AdmitUnwritten(): Block {
    Look(Under(Publication, Under(Resume, Look(Do(Durable, End)), End), Look(End)))
  }

  function AdmitStale(): Block {
    Look(Under(Publication, Under(Resume, Look(End), End), Look(End)))
  }

  function AdmitRepeated(): Block {
    Look(Under(Publication, Under(Resume, Do(Work, End), End), Look(End)))
  }

  /** A status, abort or deadline frame: its identity or deadline check, and the reply. */
  function Reply(): Block {
    Look(Look(Look(End)))
  }

  /** The first control, written under `run` before the socket is served. */
  function Bootstrap(): Block {
    Under(Run, Do(Durable, End), End)
  }

  predicate IsHostCode(b: Block) {
    b in {PublishCheckpoint(), PublishFailing(), WaitWhilePaused(), Admit(), AdmitUnwritten(), AdmitStale(), AdmitRepeated(), Reply(), Look(End)}
  }

  lemma HostCodeIsRanked(b: Block)
    requires IsHostCode(b)
    ensures Ranked(b, 0, false)
  {
    assert Ranked(PublishCheckpoint(), 0, false) && Ranked(PublishFailing(), 0, false) && Ranked(WaitWhilePaused(), 0, false);
    assert Ranked(Admit(), 0, false) && Ranked(AdmitStale(), 0, false) && Ranked(AdmitRepeated(), 0, false);
    assert Ranked(AdmitUnwritten(), 0, false);
    assert Ranked(Reply(), 0, false) && Ranked(Look(End), 0, false);
    hide Ranked;
  }

  /** The stated rule does not cover the bootstrap: it holds `run` across a durable write. */
  lemma BootstrapIsTheException()
    ensures Ranked(Bootstrap(), 0, true) && !Ranked(Bootstrap(), 0, false)
  {
  }

  // ----- threads

  type ThreadId = nat

  /** `guards` are the mutexes a thread holds, innermost last, and `rest` is what it has left to do. */
  datatype Thread = Thread(guards: seq<Mutex>, rest: seq<Op>)

  datatype State = State(threads: map<ThreadId, Thread>, serving: bool)

  const MAIN: ThreadId := 0

  function Initial(): State {
    State(map[MAIN := Thread([], Ops(Bootstrap()))], false)
  }

  predicate Holds(s: State, t: ThreadId, m: Mutex) {
    t in s.threads && m in s.threads[t].guards
  }

  predicate Busy(s: State, t: ThreadId) {
    t in s.threads && s.threads[t].rest != []
  }

  /** A busy thread can go on unless it waits for a mutex that some thread holds. */
  ghost predicate CanRun(s: State, t: ThreadId) {
    Busy(s, t) && (s.threads[t].rest[0].Acquire? ==> forall u :: !Holds(s, u, s.threads[t].rest[0].m))
  }

  function Took(t: Thread): Thread
    requires t.rest != []
  {
    match t.rest[0]
    case Acquire(m) => Thread(t.guards + [m], t.rest[1..])
    case Release(m) => Thread(if t.guards == [] then [] else t.guards[..|t.guards| - 1], t.rest[1..])
    case _ => Thread(t.guards, t.rest[1..])
  }

  /** A thread begins a piece of host code when it is idle and the host is serving, or goes on with the
      one it is in. */
  ghost predicate Next(s: State, s': State) {
    || (exists t, b :: !Busy(s, t) && s.serving && IsHostCode(b) && s' == s.(threads := s.threads[t := Thread([], Ops(b))]))
    || (exists t :: CanRun(s, t) && s' == s.(threads := s.threads[t := Took(s.threads[t])]))
    || (!s.serving && (forall t :: !Busy(s, t)) && s' == s.(serving := true))
  }

  // ----- invariant

  /** From these guards the rest takes mutexes only in increasing rank and gives each one back,
      innermost first. */
  predicate Orderly(guards: seq<Mutex>, rest: seq<Op>, alone: bool)
    decreases |rest|
  {
    if rest == [] then guards == []
    else
      match rest[0]
      case Acquire(m) => (guards == [] || Rank(guards[|guards| - 1]) < Rank(m)) && Orderly(guards + [m], rest[1..], alone)
      case Release(m) => guards != [] && guards[|guards| - 1] == m && Orderly(guards[..|guards| - 1], rest[1..], alone)
      case Work => Orderly(guards, rest[1..], alone)
      case Durable => (alone || guards == [] || guards[|guards| - 1] != Run) && Orderly(guards, rest[1..], alone)
  }

  predicate Increasing(guards: seq<Mutex>) {
    forall i, j :: 0 <= i < j < |guards| ==> Rank(guards[i]) < Rank(guards[j])
  }

  function Floor(guards: seq<Mutex>): nat {
    if guards == [] then 0 else Rank(guards[|guards| - 1]) + 1
  }

  lemma UnderIsOrderly(m: Mutex, body: seq<Op>, after: seq<Op>, guards: seq<Mutex>, alone: bool)
    requires Floor(guards) <= Rank(m) && Orderly(guards + [m], body + ([Release(m)] + after), alone)
    ensures Orderly(guards, [Acquire(m)] + body + [Release(m)] + after, alone)
  {
    assert ([Acquire(m)] + body + [Release(m)] + after)[1..] == body + ([Release(m)] + after);
  }

  lemma ReleaseIsOrderly(m: Mutex, after: seq<Op>, guards: seq<Mutex>, alone: bool)
    requires Orderly(guards, after, alone)
    ensures Orderly(guards + [m], [Release(m)] + after, alone)
  {
  }

  lemma UnderOps(m: Mutex, body: Block, next: Block, after: seq<Op>)
    ensures Ops(Under(m, body, next)) + after == [Acquire(m)] + Ops(body) + [Release(m)] + (Ops(next) + after)
  {
    var head := [Acquire(m)] + Ops(body) + [Release(m)];
    assert Ops(Under(m, body, next)) == head + Ops(next);
  }

  lemma {:induction false} RankedIsOrderly(b: Block, guards: seq<Mutex>, after: seq<Op>, alone: bool)
    requires Ranked(b, Floor(guards), alone) && Orderly(guards, after, alone)
    ensures Orderly(guards, Ops(b) + after, alone)
    decreases b
  {
    match b
    case End => assert Ops(b) + after == after;
    case Do(op, next) =>
      RankedIsOrderly(next, guards, after, alone);
      assert (Ops(b) + after)[1..] == Ops(next) + after;
    case Under(m, body, next) =>
      RankedIsOrderly(next, guards, after, alone);
      var tail := Ops(next) + after;
      ReleaseIsOrderly(m, tail, guards, alone);
      RankedIsOrderly(body, guards + [m], [Release(m)] + tail, alone);
      UnderIsOrderly(m, Ops(body), tail, guards, alone);
      hide *;
      UnderOps(m, body, next, after);
  }

  ghost predicate ThreadOk(t: Thread, alone: bool) {
    Orderly(t.guards, t.rest, alone) && Increasing(t.guards)
  }

  ghost predicate Inv(s: State) {
    && (forall t :: t in s.threads ==> ThreadOk(s.threads[t], !s.serving))
    && (forall t, u, m :: Holds(s, t, m) && Holds(s, u, m) ==> t == u)
  }

  lemma InitialInv()
    ensures Inv(Initial())
  {
  }

  lemma TookIsOk(t: Thread, alone: bool)
    requires ThreadOk(t, alone) && t.rest != []
    ensures ThreadOk(Took(t), alone)
    ensures forall m :: m in Took(t).guards ==> m in t.guards || t.rest[0] == Acquire(m)
  {
  }

  lemma NextKeepsInv(s: State, s': State)
    requires Inv(s) && Next(s, s')
    ensures Inv(s')
  {
    hide Orderly, Increasing, Ops, Took;
    if t, b :| !Busy(s, t) && s.serving && IsHostCode(b) && s' == s.(threads := s.threads[t := Thread([], Ops(b))]) {
      BeginIsOk(b);
      assert forall u, m :: Holds(s', u, m) ==> Holds(s, u, m);
    } else if t :| CanRun(s, t) && s' == s.(threads := s.threads[t := Took(s.threads[t])]) {
      TookIsOk(s.threads[t], !s.serving);
      assert forall u, m :: Holds(s', u, m) ==> Holds(s, u, m) || (u == t && s.threads[t].rest[0] == Acquire(m));
    } else {
      assert forall u, m :: Holds(s', u, m) ==> Holds(s, u, m);
      forall u | u in s'.threads
        ensures ThreadOk(s'.threads[u], false)
      {
        assert !Busy(s, u) && s'.threads[u] == s.threads[u];
        IdleIsOk(s.threads[u], true);
      }
    }
  }

  lemma IdleIsOk(t: Thread, alone: bool)
    requires ThreadOk(t, alone) && t.rest == []
    ensures ThreadOk(t, false)
  {
  }

  lemma BeginIsOk(b: Block)
    requires IsHostCode(b)
    ensures ThreadOk(Thread([], Ops(b)), false)
  {
    HostCodeIsRanked(b);
    RankedIsOrderly(b, [], [], false);
    assert Ops(b) + [] == Ops(b);
    hide IsHostCode, Ranked;
  }

  ghost predicate Reached(s: State, run: seq<State>) {
    && run != [] && run[0] == Initial() && run[|run| - 1] == s
    && forall i :: 0 <= i < |run| - 1 ==> Next(run[i], run[i + 1])
  }

  lemma {:induction false} ReachedInv(s: State, run: seq<State>)
    requires Reached(s, run)
    ensures Inv(s)
    decreases |run|
  {
    hide Inv, Next;
    if |run| == 1 {
      InitialInv();
    } else {
      var n := |run| - 1;
      assert run[..n][n - 1] == run[n - 1] && Next(run[n - 1], run[n - 1 + 1]);
      assert Reached(run[n - 1], run[..n]);
      ReachedInv(run[n - 1], run[..n]);
      NextKeepsInv(run[n - 1], s);
    }
  }

  // ----- progress

  /** Who holds a mutex has something left to do, and waits, if at all, for one of higher rank. */
  lemma HolderGoesUp(s: State, u: ThreadId, m: Mutex)
    requires Inv(s) && Holds(s, u, m)
    ensures Busy(s, u)
    ensures s.threads[u].rest[0].Acquire? ==> Rank(s.threads[u].rest[0].m) > Rank(m)
  {
  }

  lemma {:induction false} SomeoneCanRun(s: State, t: ThreadId)
    requires Inv(s) && Busy(s, t)
    ensures exists u :: CanRun(s, u)
    decreases if s.threads[t].rest[0].Acquire? then 3 - Rank(s.threads[t].rest[0].m) else 0
  {
    if !CanRun(s, t) {
      var m := s.threads[t].rest[0].m;
      var u :| Holds(s, u, m);
      HolderGoesUp(s, u, m);
      if s.threads[u].rest[0].Acquire? {
        SomeoneCanRun(s, u);
      } else {
        assert CanRun(s, u);
      }
    }
  }

  /** In every reachable state with a thread that still has something to do, some thread can go on. */
  lemma HostNeverDeadlocks(s: State, run: seq<State>, t: ThreadId)
    requires Reached(s, run) && Busy(s, t)
    ensures exists u :: CanRun(s, u)
  {
    ReachedInv(s, run);
    SomeoneCanRun(s, t);
  }

  /** Once the host serves, a thread that waits for `run`, as every reply does, waits only for
      another's work in memory: the holder can go on at once and is not at the disk. */
  lemma RepliesNeverWaitForTheDisk(s: State, run: seq<State>, t: ThreadId, u: ThreadId)
    requires Reached(s, run) && s.serving && Busy(s, t) && s.threads[t].rest[0] == Acquire(Run) && Holds(s, u, Run)
    ensures CanRun(s, u) && (s.threads[u].rest[0] == Work || s.threads[u].rest[0] == Release(Run))
  {
    ReachedInv(s, run);
    HolderGoesUp(s, u, Run);
    var th := s.threads[u];
    assert ThreadOk(th, false);
    var i :| 0 <= i < |th.guards| && th.guards[i] == Run;
    assert i < |th.guards| - 1 ==> Rank(th.guards[i]) < Rank(th.guards[|th.guards| - 1]);
  }
}
