/** Who may write a run's control: callers, the watchdog, the host and loss reconcilers share one
    inherited file lock, and every process may die at any point. */
module RunOwnership {
  import opened Json

  type Pid = nat
  type RunId = string
  type RequestId = string

  /** What a live process is doing. A new caller passes through the stages in order; an existing
      caller, a status client and a supervising watchdog can only reconcile. */
  datatype Role =
    | Caller(requestId: RequestId, stage: CallerStage)
    | Watchdog(requestId: RequestId, runId: RunId, phase: WatchdogPhase)
    | Host(runId: RunId)
    | Status(runId: RunId)

  datatype CallerStage =
    | Admitted
    | NewRun(runId: RunId)
    | HoldsLock(runId: RunId)
    | WroteBasis(runId: RunId)
    | SpawnedWatchdog(runId: RunId)
    | Waiting(runId: RunId)
    | ExistingRun(runId: RunId)

  datatype WatchdogPhase = Starting | SpawnedHost | Supervising

  datatype Control = Control(sequence: nat, host: Option<Pid>, terminal: bool, lost: bool)

  /** A reconciler that locked the run through its own descriptor, with the control it then read. */
  datatype Reconciler = Reconciler(pid: Pid, read: Option<Control>)

  /** `chain` is the set of processes that share the inherited descriptor of a run's lock; the lock is
      free once that set is empty and no reconciler holds it. */
  datatype State = State(
    intents: map<RequestId, RunId>,
    processes: map<Pid, Role>,
    chain: map<RunId, set<Pid>>,
    reconciler: map<RunId, Reconciler>,
    controls: map<RunId, Control>,
    spawns: map<RequestId, nat>,
    hosts: map<RunId, nat>,
    losses: map<RunId, nat>)

  function Chain(s: State, r: RunId): set<Pid> {
    if r in s.chain then s.chain[r] else {}
  }

  function Spawns(s: State, q: RequestId): nat {
    if q in s.spawns then s.spawns[q] else 0
  }

  function Hosts(s: State, r: RunId): nat {
    if r in s.hosts then s.hosts[r] else 0
  }

  function Losses(s: State, r: RunId): nat {
    if r in s.losses then s.losses[r] else 0
  }

  predicate Free(s: State, r: RunId) {
    Chain(s, r) == {} && r !in s.reconciler
  }

  datatype Step =
    | Admit(pid: Pid, requestId: RequestId)
    | CreateIntent(pid: Pid, runId: RunId, ok: bool)
    | FindIntent(pid: Pid)
    | LockRun(pid: Pid)
    | WriteBasis(pid: Pid)
    | SpawnWatchdog(pid: Pid, watchdog: Pid)
    | DropCallerLock(pid: Pid)
    | SpawnHost(pid: Pid, host: Pid)
    | DropWatchdogLock(pid: Pid)
    | HostWrites(pid: Pid, terminal: bool)
    | Inspect(pid: Pid, runId: RunId)
    | TryLock(pid: Pid, runId: RunId)
    | ReadLocked(runId: RunId)
    | PublishLoss(runId: RunId)
    | Release(runId: RunId)
    | Die(pid: Pid)

  /** A caller holds its request's lock until it has attached to the run or left it to its host. */
  predicate Launching(role: Role) {
    role.Caller? && !role.stage.Waiting? && !role.stage.ExistingRun?
  }

  predicate CallerAt(s: State, p: Pid) {
    p in s.processes && s.processes[p].Caller?
  }

  /** Only these may try the lock, and only after finding the run's control. */
  predicate MayReconcile(role: Role, r: RunId) {
    || role == Status(r)
    || (role.Caller? && (role.stage == ExistingRun(r) || role.stage == Waiting(r)))
    || (role.Watchdog? && role.runId == r && role.phase.Supervising?)
  }

  predicate Enabled(s: State, step: Step) {
    match step
    case Admit(p, q) =>
      p !in s.processes && forall other :: other in s.processes && Launching(s.processes[other]) ==> s.processes[other].requestId != q
    case CreateIntent(p, r, _) =>
      CallerAt(s, p) && s.processes[p].stage.Admitted? && s.processes[p].requestId !in s.intents &&
      forall q :: q in s.intents ==> s.intents[q] != r
    case FindIntent(p) => CallerAt(s, p) && s.processes[p].stage.Admitted? && s.processes[p].requestId in s.intents
    case LockRun(p) => CallerAt(s, p) && s.processes[p].stage.NewRun? && Free(s, s.processes[p].stage.runId)
    case WriteBasis(p) => CallerAt(s, p) && s.processes[p].stage.HoldsLock?
    case SpawnWatchdog(p, w) => CallerAt(s, p) && s.processes[p].stage.WroteBasis? && w !in s.processes
    case DropCallerLock(p) => CallerAt(s, p) && s.processes[p].stage.SpawnedWatchdog?
    case SpawnHost(p, h) =>
      p in s.processes && s.processes[p].Watchdog? && s.processes[p].phase.Starting? && h !in s.processes
    case DropWatchdogLock(p) => p in s.processes && s.processes[p].Watchdog? && s.processes[p].phase.SpawnedHost?
    case HostWrites(p, _) => p in s.processes && s.processes[p].Host? && s.processes[p].runId in s.controls
    case Inspect(p, r) => p !in s.processes
    case TryLock(p, r) => p in s.processes && MayReconcile(s.processes[p], r) && r in s.controls && Free(s, r)
    case ReadLocked(r) => r in s.reconciler && r in s.controls
    case PublishLoss(r) => r in s.reconciler && s.reconciler[r].read.Some? && !s.reconciler[r].read.value.terminal
    case Release(r) => r in s.reconciler
    case Die(p) => p in s.processes
  }

  /** The roles a step changes: the caller moves through its stages, a spawn adds the new process,
      and a caller whose intent cannot be recorded, like any process that dies, is gone. */
  function RolesAfter(s: State, step: Step): map<Pid, Role>
    requires Enabled(s, step)
  {
    match step
    case Admit(p, q) => s.processes[p := Caller(q, Admitted)]
    case CreateIntent(p, r, ok) =>
      if ok then s.processes[p := Caller(s.processes[p].requestId, NewRun(r))] else s.processes - {p}
    case FindIntent(p) =>
      s.processes[p := Caller(s.processes[p].requestId, ExistingRun(s.intents[s.processes[p].requestId]))]
    case LockRun(p) => s.processes[p := Caller(s.processes[p].requestId, HoldsLock(s.processes[p].stage.runId))]
    case WriteBasis(p) => s.processes[p := Caller(s.processes[p].requestId, WroteBasis(s.processes[p].stage.runId))]
    case SpawnWatchdog(p, w) =>
      var q, r := s.processes[p].requestId, s.processes[p].stage.runId;
      s.processes[p := Caller(q, SpawnedWatchdog(r))][w := Watchdog(q, r, Starting)]
    case DropCallerLock(p) => s.processes[p := Caller(s.processes[p].requestId, Waiting(s.processes[p].stage.runId))]
    case SpawnHost(p, h) => s.processes[p := s.processes[p].(phase := SpawnedHost)][h := Host(s.processes[p].runId)]
    case DropWatchdogLock(p) => s.processes[p := s.processes[p].(phase := Supervising)]
    case Inspect(p, r) => s.processes[p := Status(r)]
    case Die(p) => s.processes - {p}
    case _ => s.processes
  }

  /** A child shares the descriptor from its birth; a parent closes its own copy later; a dead
      process holds nothing. */
  function ChainAfter(s: State, step: Step): map<RunId, set<Pid>>
    requires Enabled(s, step)
  {
    match step
    case LockRun(p) => s.chain[s.processes[p].stage.runId := {p}]
    case SpawnWatchdog(p, w) => var r := s.processes[p].stage.runId; s.chain[r := Chain(s, r) + {w}]
    case DropCallerLock(p) => var r := s.processes[p].stage.runId; s.chain[r := Chain(s, r) - {p}]
    case SpawnHost(p, h) => var r := s.processes[p].runId; s.chain[r := Chain(s, r) + {h}]
    case DropWatchdogLock(p) => var r := s.processes[p].runId; s.chain[r := Chain(s, r) - {p}]
    case Die(p) => map r | r in s.chain :: s.chain[r] - {p}
    case _ => s.chain
  }

  function ReconcilerAfter(s: State, step: Step): map<RunId, Reconciler>
    requires Enabled(s, step)
  {
    match step
    case TryLock(p, r) => s.reconciler[r := Reconciler(p, None)]
    case ReadLocked(r) => s.reconciler[r := s.reconciler[r].(read := Some(s.controls[r]))]
    case PublishLoss(r) => s.reconciler[r := s.reconciler[r].(read := None)]
    case Release(r) => s.reconciler - {r}
    case Die(p) => map r | r in s.reconciler && s.reconciler[r].pid != p :: s.reconciler[r]
    case _ => s.reconciler
  }

  /** A host-loss record is built from the control that was read, whatever is stored by then. */
  function ControlsAfter(s: State, step: Step): map<RunId, Control>
    requires Enabled(s, step)
  {
    match step
    case WriteBasis(p) => s.controls[s.processes[p].stage.runId := Control(0, None, false, false)]
    case HostWrites(p, terminal) =>
      var r := s.processes[p].runId;
      s.controls[r := Control(s.controls[r].sequence + 1, Some(p), terminal, false)]
    case PublishLoss(r) =>
      var read := s.reconciler[r].read.value;
      s.controls[r := read.(sequence := read.sequence + 1, terminal := true, lost := true)]
    case _ => s.controls
  }

  function IntentsAfter(s: State, step: Step): map<RequestId, RunId>
    requires Enabled(s, step)
  {
    if step.CreateIntent? then s.intents[s.processes[step.pid].requestId := step.runId] else s.intents
  }

  function SpawnsAfter(s: State, step: Step): map<RequestId, nat>
    requires Enabled(s, step)
  {
    if step.SpawnWatchdog? then
      var q := s.processes[step.pid].requestId;
      s.spawns[q := Spawns(s, q) + 1]
    else s.spawns
  }

  function HostsAfter(s: State, step: Step): map<RunId, nat>
    requires Enabled(s, step)
  {
    if step.SpawnHost? then
      var r := s.processes[step.pid].runId;
      s.hosts[r := Hosts(s, r) + 1]
    else s.hosts
  }

  function LossesAfter(s: State, step: Step): map<RunId, nat> {
    if step.PublishLoss? then s.losses[step.runId := Losses(s, step.runId) + 1] else s.losses
  }

  function Next(s: State, step: Step): State
    requires Enabled(s, step)
  {
    State(IntentsAfter(s, step), RolesAfter(s, step), ChainAfter(s, step), ReconcilerAfter(s, step), ControlsAfter(s, step),
          SpawnsAfter(s, step), HostsAfter(s, step), LossesAfter(s, step))
  }

  // ----- invariant

  /** The run a role belongs to while it holds the inherited descriptor. */
  function HeldRun(role: Role): Option<RunId> {
    match role
    case Caller(_, HoldsLock(r)) => Some(r)
    case Caller(_, WroteBasis(r)) => Some(r)
    case Caller(_, SpawnedWatchdog(r)) => Some(r)
    case Watchdog(_, r, Starting) => Some(r)
    case Watchdog(_, r, SpawnedHost) => Some(r)
    case Host(r) => Some(r)
    case _ => None
  }

  /** The run a caller was the first to admit and has not spawned for yet. */
  function Unspawned(role: Role): Option<RunId> {
    match role
    case Caller(_, NewRun(r)) => Some(r)
    case Caller(_, HoldsLock(r)) => Some(r)
    case Caller(_, WroteBasis(r)) => Some(r)
    case _ => None
  }

  /** The run that a request's first caller or its watchdog brings up. */
  function Owner(role: Role): Option<RunId> {
    if role.Watchdog? then Some(role.runId)
    else if role.Caller? && role.stage.SpawnedWatchdog? then Some(role.stage.runId)
    else Unspawned(role)
  }

  ghost predicate Known(intents: map<RequestId, RunId>, r: RunId) {
    exists q :: q in intents && intents[q] == r
  }

  ghost predicate HolderOk(s: State, p: Pid, role: Role) {
    HeldRun(role).Some? ==> p in Chain(s, HeldRun(role).value)
  }

  ghost predicate OwnerOk(s: State, role: Role) {
    Owner(role).Some? ==> role.requestId in s.intents && s.intents[role.requestId] == Owner(role).value
  }

  /** Spawning happens at most once per request and per run, in order. */
  ghost predicate UnspawnedOk(s: State, role: Role) {
    Unspawned(role).Some? ==> Spawns(s, role.requestId) == 0 && Hosts(s, Unspawned(role).value) == 0
  }

  ghost predicate BasisOk(s: State, role: Role) {
    Unspawned(role).Some? ==> (role.stage.WroteBasis? <==> Unspawned(role).value in s.controls)
  }

  ghost predicate StageOk(s: State, role: Role) {
    && (role.Watchdog? ==> Spawns(s, role.requestId) == 1 && (role.phase.Starting? ==> Hosts(s, role.runId) == 0))
    && (role.Watchdog? || role.Host? ==> role.runId in s.controls)
  }

  ghost predicate ProcessOk(s: State, p: Pid, role: Role) {
    HolderOk(s, p, role) && OwnerOk(s, role) && UnspawnedOk(s, role) && BasisOk(s, role) && StageOk(s, role)
  }

  /** Everyone who shares a descriptor is alive and is doing that run's work. */
  ghost predicate HoldersOk(s: State, r: RunId) {
    forall p :: p in Chain(s, r) ==> p in s.processes && HeldRun(s.processes[p]) == Some(r)
  }

  /** A reconciler excludes every holder, and what it read is still what is stored. */
  ghost predicate ReconcilerOk(s: State, r: RunId) {
    r in s.reconciler ==>
      && Chain(s, r) == {} && r in s.controls
      && (s.reconciler[r].read.Some? ==> s.reconciler[r].read.value == s.controls[r])
  }

  ghost predicate ReconcilerAlive(s: State, r: RunId) {
    r in s.reconciler ==> s.reconciler[r].pid in s.processes && MayReconcile(s.processes[s.reconciler[r].pid], r)
  }

  ghost predicate LossOk(s: State, r: RunId) {
    && Losses(s, r) <= 1
    && (Losses(s, r) == 1 ==> r in s.controls && s.controls[r].terminal && Chain(s, r) == {})
    && (r in s.controls && s.controls[r].lost ==> Losses(s, r) == 1)
  }

  ghost predicate CountOk(s: State, r: RunId) {
    && Hosts(s, r) <= 1
    && (r in s.controls || Hosts(s, r) > 0 ==> Known(s.intents, r))
  }

  ghost predicate RunOk(s: State, r: RunId) {
    HoldersOk(s, r) && ReconcilerOk(s, r) && ReconcilerAlive(s, r) && LossOk(s, r) && CountOk(s, r)
  }

  ghost predicate DistinctRuns(intents: map<RequestId, RunId>) {
    forall q, q' :: q in intents && q' in intents && intents[q] == intents[q'] ==> q == q'
  }

  ghost predicate DistinctCallers(processes: map<Pid, Role>) {
    forall a, b :: a in processes && b in processes && a != b && Launching(processes[a]) && Launching(processes[b]) ==>
      processes[a].requestId != processes[b].requestId
  }

  ghost predicate DistinctWatchdogs(processes: map<Pid, Role>) {
    forall a, b :: a in processes && b in processes && a != b && processes[a].Watchdog? && processes[b].Watchdog? ==>
      processes[a].runId != processes[b].runId
  }

  ghost predicate SpawnsOk(s: State) {
    forall q :: Spawns(s, q) <= 1 && (Spawns(s, q) == 1 ==> q in s.intents)
  }

  ghost predicate Inv(s: State) {
    && (forall p :: p in s.processes ==> ProcessOk(s, p, s.processes[p]))
    && (forall r :: RunOk(s, r))
    && SpawnsOk(s)
    && DistinctRuns(s.intents) && DistinctCallers(s.processes) && DistinctWatchdogs(s.processes)
  }

  /** The run on which a step relies on the descriptor its process inherited. */
  function Acting(s: State, step: Step): Option<RunId>
    requires Enabled(s, step)
  {
    if step.WriteBasis? || step.SpawnWatchdog? || step.DropCallerLock? || step.SpawnHost? || step.DropWatchdogLock? || step.HostWrites?
    then HeldRun(s.processes[step.pid]) else None
  }

  /** A caller about to spawn finds no watchdog of its run and no earlier spawn for its request. */
  lemma OnlyWatchdog(s: State, p: Pid, other: Pid)
    requires Inv(s) && p in s.processes && Unspawned(s.processes[p]).Some?
    requires other in s.processes && s.processes[other].Watchdog?
    ensures s.processes[other].runId != Unspawned(s.processes[p]).value
  {
  }

  lemma DistinctRunsKept(s: State, step: Step)
    requires DistinctRuns(s.intents) && Enabled(s, step)
    ensures DistinctRuns(IntentsAfter(s, step))
  {
  }

  lemma DistinctCallersKept(s: State, step: Step)
    requires DistinctCallers(s.processes) && Enabled(s, step)
    ensures DistinctCallers(RolesAfter(s, step))
  {
  }

  lemma DistinctWatchdogsKept(s: State, step: Step)
    requires Inv(s) && Enabled(s, step)
    ensures DistinctWatchdogs(RolesAfter(s, step))
  {
    if step.SpawnWatchdog? {
      forall other | other in s.processes && s.processes[other].Watchdog?
        ensures s.processes[other].runId != s.processes[step.pid].stage.runId
      {
        OnlyWatchdog(s, step.pid, other);
      }
    }
    assert DistinctWatchdogs(s.processes);
    hide Inv, Chain, Free, MayReconcile, Spawns, Hosts, Losses;
  }

  lemma SpawnsKept(s: State, step: Step)
    requires Inv(s) && Enabled(s, step)
    ensures SpawnsOk(Next(s, step))
  {
    assert SpawnsOk(s);
    if step.SpawnWatchdog? {
      var role := s.processes[step.pid];
      assert ProcessOk(s, step.pid, role) && Owner(role).Some?;
      assert role.requestId in s.intents && Spawns(s, role.requestId) == 0;
    }
    hide Inv, RunOk, ProcessOk, Chain, Known, Free, MayReconcile, RolesAfter, ChainAfter, ReconcilerAfter, ControlsAfter;
    forall q
      ensures Spawns(Next(s, step), q) <= 1 && (Spawns(Next(s, step), q) == 1 ==> q in IntentsAfter(s, step))
    {
      assert Spawns(s, q) <= 1;
    }
  }

  /** Nobody loses the descriptor but the process that closes it or dies. */
  lemma OthersKeepTheChain(s: State, step: Step, r: RunId, p: Pid)
    requires Enabled(s, step) && p in Chain(s, r)
    ensures || p in Chain(Next(s, step), r)
            || ((step.DropCallerLock? || step.DropWatchdogLock? || step.Die?) && p == step.pid)
            || (step.LockRun? && s.processes[step.pid].stage.runId == r)
  {
    hide RolesAfter, ReconcilerAfter, ControlsAfter, IntentsAfter, SpawnsAfter, HostsAfter, LossesAfter, MayReconcile, Free;
  }

  /** A process that holds after a step held the same before, unless the step gave it the descriptor. */
  lemma HeldBefore(s: State, step: Step, p: Pid)
    requires Enabled(s, step) && p in RolesAfter(s, step) && HeldRun(RolesAfter(s, step)[p]).Some?
    ensures var r := HeldRun(RolesAfter(s, step)[p]).value;
            || p in Chain(Next(s, step), r)
            || (p in s.processes && HeldRun(s.processes[p]) == Some(r)
                && !((step.DropCallerLock? || step.DropWatchdogLock? || step.Die?) && p == step.pid))
  {
    hide ReconcilerAfter, ControlsAfter, IntentsAfter, SpawnsAfter, HostsAfter, LossesAfter, MayReconcile, Free;
  }

  lemma HolderKept(s: State, step: Step, p: Pid)
    requires Inv(s) && Enabled(s, step) && p in RolesAfter(s, step)
    ensures HolderOk(Next(s, step), p, RolesAfter(s, step)[p])
  {
    var role := RolesAfter(s, step)[p];
    if HeldRun(role).Some? {
      var r := HeldRun(role).value;
      HeldBefore(s, step, p);
      if p in s.processes && HeldRun(s.processes[p]) == Some(r) {
        assert ProcessOk(s, p, s.processes[p]);
        OthersKeepTheChain(s, step, r, p);
        assert step.LockRun? ==> Free(s, s.processes[step.pid].stage.runId);
      }
    }
    hide Inv, RunOk, ProcessOk, RolesAfter, ChainAfter, Enabled, HeldRun;
  }

  lemma OwnerBefore(s: State, step: Step, p: Pid)
    requires Enabled(s, step) && p in RolesAfter(s, step) && Owner(RolesAfter(s, step)[p]).Some?
    ensures var role := RolesAfter(s, step)[p];
            if step.CreateIntent? && p == step.pid then
              role.requestId == s.processes[step.pid].requestId && Owner(role) == Some(step.runId)
            else
              var source := if step.SpawnWatchdog? && p == step.watchdog then step.pid else p;
              source in s.processes && Owner(s.processes[source]) == Owner(role) && s.processes[source].requestId == role.requestId
  {
    hide Free, Chain, MayReconcile;
  }

  lemma OwnerKept(s: State, step: Step, p: Pid)
    requires Inv(s) && Enabled(s, step) && p in RolesAfter(s, step)
    ensures OwnerOk(Next(s, step), RolesAfter(s, step)[p])
  {
    if Owner(RolesAfter(s, step)[p]).Some? {
      OwnerBefore(s, step, p);
      if p in s.processes { assert ProcessOk(s, p, s.processes[p]); }
      if step.SpawnWatchdog? { assert ProcessOk(s, step.pid, s.processes[step.pid]); }
      assert step.CreateIntent? ==> s.processes[step.pid].requestId !in s.intents;
    }
    hide Enabled, Inv, RunOk, ProcessOk, Known, Free, Chain, MayReconcile, Owner;
    hide RolesAfter, ChainAfter, ReconcilerAfter, ControlsAfter, SpawnsAfter, HostsAfter, LossesAfter, HolderOk, UnspawnedOk, BasisOk, StageOk;
  }

  /** Whoever spawns finds nothing spawned yet for its request and its run. */
  lemma SpawnerIsFirst(s: State, step: Step)
    requires Inv(s) && Enabled(s, step)
    ensures step.CreateIntent? ==> step.runId !in s.controls && Hosts(s, step.runId) == 0 && Spawns(s, s.processes[step.pid].requestId) == 0
    ensures step.SpawnWatchdog? ==>
              && Spawns(s, s.processes[step.pid].requestId) == 0
              && s.processes[step.pid].stage.runId in s.controls && Hosts(s, s.processes[step.pid].stage.runId) == 0
    ensures step.SpawnHost? ==> s.processes[step.pid].runId in s.controls && Hosts(s, s.processes[step.pid].runId) == 0
  {
    if step.CreateIntent? {
      assert RunOk(s, step.runId);
    } else if step.SpawnWatchdog? || step.SpawnHost? {
      assert ProcessOk(s, step.pid, s.processes[step.pid]);
    }
  }

  /** Where a role came from: unchanged, moved on by its own step, or started by another's. */
  lemma RoleBefore(s: State, step: Step, p: Pid)
    requires Enabled(s, step) && p in RolesAfter(s, step)
    ensures var role := RolesAfter(s, step)[p];
            Unspawned(role).Some? ==>
              if step.CreateIntent? && p == step.pid then
                role == Caller(s.processes[p].requestId, NewRun(step.runId))
              else
                && p in s.processes && Unspawned(s.processes[p]) == Unspawned(role) && s.processes[p].requestId == role.requestId
                && !((step.SpawnWatchdog? || step.SpawnHost?) && p == step.pid)
                && (role.stage.WroteBasis? <==> s.processes[p].stage.WroteBasis? || step == WriteBasis(p))
    ensures var role := RolesAfter(s, step)[p];
            role.Watchdog? ==>
              if step.SpawnWatchdog? && p == step.watchdog then
                role == Watchdog(s.processes[step.pid].requestId, s.processes[step.pid].stage.runId, Starting)
              else
                && p in s.processes && s.processes[p].Watchdog? && s.processes[p].runId == role.runId
                && s.processes[p].requestId == role.requestId
                && (role.phase.Starting? ==> s.processes[p].phase.Starting? && !(step.SpawnHost? && p == step.pid))
    ensures var role := RolesAfter(s, step)[p];
            role.Host? ==>
              if step.SpawnHost? && p == step.host then role == Host(s.processes[step.pid].runId)
              else p in s.processes && s.processes[p] == role
  {
    hide MayReconcile, Free, Chain;
  }

  lemma UnspawnedKept(s: State, step: Step, p: Pid)
    requires Inv(s) && Enabled(s, step) && p in RolesAfter(s, step)
    ensures UnspawnedOk(Next(s, step), RolesAfter(s, step)[p])
  {
    RoleBefore(s, step, p);
    SpawnerIsFirst(s, step);
    if p in s.processes && Unspawned(s.processes[p]).Some? {
      assert ProcessOk(s, p, s.processes[p]);
      if step.SpawnHost? { OnlyWatchdog(s, p, step.pid); }
    }
    assert DistinctCallers(s.processes);
    assert step.SpawnWatchdog? ==> CallerAt(s, step.pid) && s.processes[step.pid].stage.WroteBasis?;
    hide Enabled, Inv, RunOk, ProcessOk, Known, Free, Chain, MayReconcile;
    hide RolesAfter, ChainAfter, ReconcilerAfter, ControlsAfter, LossesAfter, IntentsAfter, StageOk, BasisOk, HolderOk, OwnerOk;
  }

  lemma BasisKept(s: State, step: Step, p: Pid)
    requires Inv(s) && Enabled(s, step) && p in RolesAfter(s, step)
    ensures BasisOk(Next(s, step), RolesAfter(s, step)[p])
  {
    RoleBefore(s, step, p);
    SpawnerIsFirst(s, step);
    if p in s.processes && Unspawned(s.processes[p]).Some? { assert ProcessOk(s, p, s.processes[p]); }
    if step.WriteBasis? { assert ProcessOk(s, step.pid, s.processes[step.pid]); }
    if step.PublishLoss? { assert ReconcilerOk(s, step.runId) by { assert RunOk(s, step.runId); } }
    assert DistinctCallers(s.processes) && DistinctRuns(s.intents);
    hide Inv, RunOk, ProcessOk, Known, Free, Chain, MayReconcile;
    hide RolesAfter, ChainAfter, ReconcilerAfter, SpawnsAfter, HostsAfter, LossesAfter, IntentsAfter, StageOk, HolderOk, UnspawnedOk;
  }

  /** A control is never removed, and only its run's inheritor or reconciler changes it. */
  lemma ControlChange(s: State, step: Step, r: RunId)
    requires Enabled(s, step)
    ensures r in s.controls ==> r in ControlsAfter(s, step)
    ensures r in ControlsAfter(s, step) && (r !in s.controls || ControlsAfter(s, step)[r] != s.controls[r]) ==>
              || (Acting(s, step) == Some(r) && !ControlsAfter(s, step)[r].lost)
              || (step == PublishLoss(r) && ControlsAfter(s, step)[r].terminal && ControlsAfter(s, step)[r].lost)
    ensures step == PublishLoss(r) ==>
              && r in s.reconciler && s.reconciler[r].read.Some? && !s.reconciler[r].read.value.terminal
              && r in ControlsAfter(s, step) && ControlsAfter(s, step)[r].terminal
  {
    hide Free, Chain, MayReconcile, RolesAfter, ChainAfter, ReconcilerAfter;
  }

  lemma WatchdogKept(s: State, step: Step, p: Pid)
    requires Inv(s) && Enabled(s, step) && p in RolesAfter(s, step) && RolesAfter(s, step)[p].Watchdog?
    ensures StageOk(Next(s, step), RolesAfter(s, step)[p])
  {
    var role := RolesAfter(s, step)[p];
    RoleBefore(s, step, p);
    SpawnerIsFirst(s, step);
    ControlChange(s, step, role.runId);
    if p in s.processes && s.processes[p].Watchdog? {
      assert ProcessOk(s, p, s.processes[p]) && StageOk(s, s.processes[p]);
      assert step.SpawnHost? && step.pid != p ==> s.processes[step.pid].runId != role.runId;
      assert step.SpawnWatchdog? ==> s.processes[step.pid].requestId != s.processes[p].requestId;
    }
    hide Enabled, Inv, RunOk, ProcessOk, HolderOk, OwnerOk, UnspawnedOk, BasisOk, Known, Free, Chain, MayReconcile;
    hide RolesAfter, ChainAfter, ReconcilerAfter, ControlsAfter, LossesAfter, IntentsAfter, HeldRun, Owner, Unspawned, Launching;
    hide DistinctCallers, DistinctRuns, DistinctWatchdogs;
  }

  lemma StageKept(s: State, step: Step, p: Pid)
    requires Inv(s) && Enabled(s, step) && p in RolesAfter(s, step)
    ensures StageOk(Next(s, step), RolesAfter(s, step)[p])
  {
    var role := RolesAfter(s, step)[p];
    if role.Watchdog? {
      WatchdogKept(s, step, p);
    } else if role.Host? {
      RoleBefore(s, step, p);
      SpawnerIsFirst(s, step);
      ControlChange(s, step, role.runId);
      if p in s.processes { assert ProcessOk(s, p, s.processes[p]) && StageOk(s, s.processes[p]); }
    }
    hide Enabled, Inv, RunOk, ProcessOk, RolesAfter, ChainAfter, ReconcilerAfter, ControlsAfter, SpawnsAfter, HostsAfter;
  }

  /** A process that has inherited the descriptor and acts on its run shuts every reconciler out. */
  lemma ActorHolds(s: State, step: Step)
    requires Inv(s) && Enabled(s, step) && Acting(s, step).Some?
    ensures var r := Acting(s, step).value;
            step.pid in Chain(s, r) && r !in s.reconciler && Losses(s, r) == 0
  {
    assert ProcessOk(s, step.pid, s.processes[step.pid]);
    assert RunOk(s, HeldRun(s.processes[step.pid]).value);
  }

  lemma HolderActs(s: State, step: Step, r: RunId, p: Pid)
    requires Enabled(s, step) && HoldersOk(s, r) && p in Chain(Next(s, step), r)
    ensures p in RolesAfter(s, step) && HeldRun(RolesAfter(s, step)[p]) == Some(r)
  {
    hide MayReconcile, Free, ReconcilerAfter, ControlsAfter, IntentsAfter, SpawnsAfter, HostsAfter, LossesAfter;
  }

  lemma HoldersKept(s: State, step: Step, r: RunId)
    requires Inv(s) && Enabled(s, step)
    ensures HoldersOk(Next(s, step), r)
  {
    assert RunOk(s, r);
    hide Enabled, RolesAfter, ChainAfter;
    forall p | p in Chain(Next(s, step), r)
      ensures p in RolesAfter(s, step) && HeldRun(RolesAfter(s, step)[p]) == Some(r)
    {
      HolderActs(s, step, r, p);
    }
  }

  /** A run's descriptor spreads only from a new run's own caller or from a process that has it. */
  lemma ChainGrows(s: State, step: Step, r: RunId)
    requires Enabled(s, step)
    ensures || Chain(Next(s, step), r) <= Chain(s, r)
            || Acting(s, step) == Some(r)
            || (step.LockRun? && s.processes[step.pid].stage.runId == r && Free(s, r))
  {
    hide RolesAfter, ReconcilerAfter, ControlsAfter, IntentsAfter, SpawnsAfter, HostsAfter, LossesAfter, MayReconcile;
  }

  lemma ReconcilerKept(s: State, step: Step, r: RunId)
    requires Inv(s) && Enabled(s, step)
    ensures ReconcilerOk(Next(s, step), r)
  {
    assert RunOk(s, r) && ReconcilerOk(s, r);
    ChainGrows(s, step, r);
    ControlChange(s, step, r);
    ReadBefore(s, step, r);
    if Acting(s, step).Some? { ActorHolds(s, step); }
    assert Free(s, r) ==> Chain(s, r) == {} && r !in s.reconciler;
    hide Enabled, Inv, RunOk, ProcessOk, Known, RolesAfter, ChainAfter, ControlsAfter, ReconcilerAfter, Chain, Acting, Unspawned, Owner;
    hide ReconcilerAlive, HoldersOk, LossOk, CountOk, MayReconcile, Free;
  }

  /** Who holds the lock through its own descriptor took it while it was free, and has read the stored control. */
  lemma ReadBefore(s: State, step: Step, r: RunId)
    requires Enabled(s, step) && (r in s.reconciler ==> r in s.controls)
    ensures r in ReconcilerAfter(s, step) ==>
              || (r in s.reconciler && ReconcilerAfter(s, step)[r].read == s.reconciler[r].read && step != PublishLoss(r))
              || (r in s.reconciler && ReconcilerAfter(s, step)[r].read.None?)
              || (r in s.reconciler && ReconcilerAfter(s, step)[r].read == Some(s.controls[r]) && step == ReadLocked(r))
              || (Free(s, r) && r in s.controls && step.TryLock? && ReconcilerAfter(s, step)[r].read.None?)
  {
  }

  /** A process that may reconcile does nothing else until it dies. */
  lemma ReconcilerStays(s: State, step: Step, p: Pid, r: RunId)
    requires Enabled(s, step) && p in s.processes && MayReconcile(s.processes[p], r) && step != Die(p)
    ensures p in RolesAfter(s, step) && RolesAfter(s, step)[p] == s.processes[p]
  {
    hide Free, Chain;
  }

  lemma ReconcilerBefore(s: State, step: Step, r: RunId)
    requires Enabled(s, step) && r in ReconcilerAfter(s, step)
    ensures var p := ReconcilerAfter(s, step)[r].pid;
            step != Die(p) && ((r in s.reconciler && s.reconciler[r].pid == p) || (p in s.processes && MayReconcile(s.processes[p], r)))
  {
  }

  lemma ReconcilerLives(s: State, step: Step, r: RunId)
    requires Inv(s) && Enabled(s, step)
    ensures ReconcilerAlive(Next(s, step), r)
  {
    assert RunOk(s, r);
    if r in ReconcilerAfter(s, step) {
      ReconcilerBefore(s, step, r);
      ReconcilerStays(s, step, ReconcilerAfter(s, step)[r].pid, r);
    }
    hide Enabled, Inv, RunOk, ProcessOk, MayReconcile, RolesAfter, ReconcilerAfter, ChainAfter, ControlsAfter;
    hide ReconcilerOk, HoldersOk, LossOk, CountOk;
  }

  lemma LossKept(s: State, step: Step, r: RunId)
    requires Inv(s) && Enabled(s, step)
    ensures LossOk(Next(s, step), r)
  {
    assert RunOk(s, r) && ReconcilerOk(s, r) && LossOk(s, r);
    ChainGrows(s, step, r);
    ControlChange(s, step, r);
    if Acting(s, step).Some? { ActorHolds(s, step); }
    if step.LockRun? && s.processes[step.pid].stage.runId == r {
      assert ProcessOk(s, step.pid, s.processes[step.pid]);
      assert r !in s.controls;
    }
    hide Enabled, Inv, RunOk, ProcessOk, Known, MayReconcile, RolesAfter, ChainAfter, ControlsAfter, Chain, ReconcilerAfter, Acting;
    hide HolderOk, OwnerOk, StageOk, UnspawnedOk, BasisOk, HoldersOk, ReconcilerAlive, CountOk, Free;
  }

  lemma KnownKept(s: State, step: Step, r: RunId)
    requires Inv(s) && Enabled(s, step)
    ensures Known(s.intents, r) || Acting(s, step) == Some(r) ==> Known(IntentsAfter(s, step), r)
  {
    if Acting(s, step) == Some(r) {
      assert ProcessOk(s, step.pid, s.processes[step.pid]) && RunOk(s, r);
    }
    assert Acting(s, step) == Some(r) ==> Known(s.intents, r);
    hide Inv, RunOk, ProcessOk, Acting;
    if Known(s.intents, r) {
      var q :| q in s.intents && s.intents[q] == r;
      assert IntentsAfter(s, step)[q] == r;
    }
  }

  lemma CountKept(s: State, step: Step, r: RunId)
    requires Inv(s) && Enabled(s, step)
    ensures CountOk(Next(s, step), r)
  {
    assert RunOk(s, r);
    KnownKept(s, step, r);
    SpawnerIsFirst(s, step);
    hide Inv, RunOk, ProcessOk, MayReconcile, Chain, Free, Known, RolesAfter, ChainAfter, ReconcilerAfter, SpawnsAfter, LossesAfter, IntentsAfter;
    hide HoldersOk, ReconcilerAlive, LossOk;
  }

  lemma NextKeepsInv(s: State, step: Step)
    requires Inv(s) && Enabled(s, step)
    ensures Inv(Next(s, step))
  {
    DistinctRunsKept(s, step);
    DistinctCallersKept(s, step);
    DistinctWatchdogsKept(s, step);
    SpawnsKept(s, step);
    hide RolesAfter, ChainAfter, ReconcilerAfter, ControlsAfter, IntentsAfter, SpawnsAfter, HostsAfter, LossesAfter, Enabled;
    hide HolderOk, OwnerOk, UnspawnedOk, BasisOk, StageOk, HoldersOk, ReconcilerOk, ReconcilerAlive, LossOk, CountOk, SpawnsOk;
    hide DistinctRuns, DistinctCallers, DistinctWatchdogs;
    forall p | p in RolesAfter(s, step)
      ensures ProcessOk(Next(s, step), p, RolesAfter(s, step)[p])
    {
      HolderKept(s, step, p);
      OwnerKept(s, step, p);
      UnspawnedKept(s, step, p);
      BasisKept(s, step, p);
      StageKept(s, step, p);
    }
    forall r
      ensures RunOk(Next(s, step), r)
    {
      HoldersKept(s, step, r);
      ReconcilerKept(s, step, r);
      ReconcilerLives(s, step, r);
      LossKept(s, step, r);
      CountKept(s, step, r);
    }
  }

  // ----- runs of the system

  const INITIAL := State(map[], map[], map[], map[], map[], map[], map[], map[])

  ghost predicate IsRun(s: State, steps: seq<Step>)
    decreases |steps|
  {
    steps != [] ==> Enabled(s, steps[0]) && IsRun(Next(s, steps[0]), steps[1..])
  }

  ghost function After(s: State, steps: seq<Step>): State
    requires IsRun(s, steps)
    decreases |steps|
  {
    if steps == [] then s else After(Next(s, steps[0]), steps[1..])
  }

  lemma {:induction false} InvAlways(s: State, steps: seq<Step>)
    requires Inv(s) && IsRun(s, steps)
    ensures Inv(After(s, steps))
    decreases |steps|
  {
    hide Inv, Next, Enabled;
    if steps != [] {
      NextKeepsInv(s, steps[0]);
      InvAlways(Next(s, steps[0]), steps[1..]);
    }
  }

  /** Whatever callers retry or die, a request spawns at most one process chain, its run gets at most
      one host, and all reconcilers together publish at most one host loss. */
  lemma AtMostOnce(steps: seq<Step>, q: RequestId, r: RunId)
    requires IsRun(INITIAL, steps)
    ensures Spawns(After(INITIAL, steps), q) <= 1 && Hosts(After(INITIAL, steps), r) <= 1 && Losses(After(INITIAL, steps), r) <= 1
    ensures Spawns(After(INITIAL, steps), q) == 1 ==> q in After(INITIAL, steps).intents
  {
    InvAlways(INITIAL, steps);
    assert RunOk(After(INITIAL, steps), r);
  }

  /** Every write of a run's control is made under its lock: by an inheritor while no reconciler holds
      it and no loss was published, or by a reconciler while nobody inherits it, and that
      reconciler then replaces a control that is still the stored one and is not terminal. */
  lemma WritersExcludeEachOther(steps: seq<Step>, step: Step, r: RunId)
    requires IsRun(INITIAL, steps)
    requires Enabled(After(INITIAL, steps), step)
    requires var s := After(INITIAL, steps);
             r in ControlsAfter(s, step) && (r !in s.controls || ControlsAfter(s, step)[r] != s.controls[r])
    ensures var s := After(INITIAL, steps);
            if step == PublishLoss(r) then
              && Chain(s, r) == {} && r in s.reconciler && r in s.controls && !s.controls[r].terminal && Losses(s, r) == 0
              && ControlsAfter(s, step)[r] == s.controls[r].(sequence := s.controls[r].sequence + 1, terminal := true, lost := true)
            else
              (step.WriteBasis? || step.HostWrites?) && step.pid in Chain(s, r) && r !in s.reconciler && Losses(s, r) == 0
  {
    var s := After(INITIAL, steps);
    InvAlways(INITIAL, steps);
    assert RunOk(s, r);
    if Acting(s, step).Some? { ActorHolds(s, step); }
    hide Inv, IsRun, After, HoldersOk, CountOk, ReconcilerAlive, Known, MayReconcile, RolesAfter, ChainAfter, ReconcilerAfter;
  }

  lemma StepKeepsRetired(s: State, step: Step, r: RunId)
    requires Inv(s) && Enabled(s, step) && r in s.controls && Chain(s, r) == {}
    ensures r in ControlsAfter(s, step) && Chain(Next(s, step), r) == {}
    ensures ControlsAfter(s, step)[r] == s.controls[r] || step == PublishLoss(r)
  {
    ChainGrows(s, step, r);
    if Acting(s, step).Some? { ActorHolds(s, step); }
    if step.LockRun? { assert ProcessOk(s, step.pid, s.processes[step.pid]); }
    hide Inv, RunOk, ProcessOk, Known, MayReconcile, RolesAfter, ChainAfter, Chain, ReconcilerAfter, IntentsAfter, SpawnsAfter, HostsAfter, LossesAfter;
  }

  /** Once a run that was brought up has no inheritor left, as every reconciler finds it, none ever
      returns: no process can act on the run again, and a published loss is its last control. */
  lemma {:induction false} RetiredForever(s: State, steps: seq<Step>, r: RunId)
    requires Inv(s) && IsRun(s, steps) && r in s.controls && Chain(s, r) == {}
    ensures var s' := After(s, steps);
            && Inv(s') && r in s'.controls && Chain(s', r) == {}
            && (forall p :: p in s'.processes ==> HeldRun(s'.processes[p]) != Some(r))
            && (Losses(s, r) == 1 ==> s'.controls[r] == s.controls[r])
    decreases |steps|
  {
    if steps == [] {
      forall p | p in s.processes
        ensures HeldRun(s.processes[p]) != Some(r)
      {
        assert ProcessOk(s, p, s.processes[p]);
      }
    } else {
      StepKeepsRetired(s, steps[0], r);
      NextKeepsInv(s, steps[0]);
      RetiredForever(Next(s, steps[0]), steps[1..], r);
      if Losses(s, r) == 1 { LossIsLast(s, steps[0], r); }
    }
  }

  /** After a published loss no reconciler publishes another, and the count stays. */
  lemma LossIsLast(s: State, step: Step, r: RunId)
    requires Inv(s) && Enabled(s, step) && Losses(s, r) == 1
    ensures step != PublishLoss(r) && Losses(Next(s, step), r) == 1
  {
    assert RunOk(s, r);
  }

  /** Every reconciler works on a retired run. */
  lemma ReconcilersFindTheRunRetired(steps: seq<Step>, r: RunId)
    requires IsRun(INITIAL, steps) && r in After(INITIAL, steps).reconciler
    ensures r in After(INITIAL, steps).controls && Chain(After(INITIAL, steps), r) == {} && Inv(After(INITIAL, steps))
  {
    InvAlways(INITIAL, steps);
    assert RunOk(After(INITIAL, steps), r);
  }
}
