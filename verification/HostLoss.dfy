/** The lock of a run and its control protocol as one system: what a loss reconciler may rely on when
    the only thing it holds is the lock. */
module HostLoss {
  import opened Json
  import H = HostControl
  import O = RunOwnership
  import P = ControlProtocol
  import R = Results
  import S = Store

  datatype Joint = Joint(owners: O.State, world: P.World)

  /** A host's control comes alive in its process and ends with it, and a loss is published under the
      lock; everything else happens on one side only. */
  datatype Step =
    | Own(own: O.Step)
    | Act(act: P.Step)
    | Boot(host: O.Pid, control: S.RunControl)
    | Kill(host: O.Pid)
    | Lose(runId: S.RunId, lostResult: Value)

  predicate IsHost(o: O.State, p: O.Pid, r: S.RunId) {
    p in o.processes && o.processes[p] == O.Host(r)
  }

  predicate KillsLive(j: Joint, p: O.Pid) {
    p in j.owners.processes && j.owners.processes[p].Host? && P.Live(j.world, j.owners.processes[p].runId)
  }

  /** A reconciler with the lock publishes a loss for the control it finds stored. It does not look at
      the host. */
  predicate MayLose(j: Joint, r: S.RunId, lost: Value) {
    && O.Enabled(j.owners, O.PublishLoss(r)) && r in j.world.runs && r in j.world.durable.controls
    && !R.Terminal(j.world.durable.controls[r].result) && R.Terminal(lost)
  }

  predicate Enabled(j: Joint, s: Step) {
    match s
    case Own(own) => O.Enabled(j.owners, own) && !own.PublishLoss? && !(own.Die? && KillsLive(j, own.pid))
    case Act(act) => P.Enabled(j.world, act) && !act.Bootstrap? && !act.Crash? && !act.ReconcileLoss?
    case Boot(p, control) => IsHost(j.owners, p, control.runId) && P.Enabled(j.world, P.Bootstrap(control.runId, control))
    case Kill(p) => KillsLive(j, p)
    case Lose(r, lost) => MayLose(j, r, lost)
  }

  /** A loss published beside a live host would be no step of the protocol; `Stuck` stands for that. */
  datatype Outcome = Went(joint: Joint) | Stuck

  function Next(j: Joint, s: Step): Outcome
    requires Enabled(j, s)
  {
    match s
    case Own(own) => Went(j.(owners := O.Next(j.owners, own)))
    case Act(act) => Went(j.(world := P.Next(j.world, act)))
    case Boot(p, control) => Went(j.(world := P.Next(j.world, P.Bootstrap(control.runId, control))))
    case Kill(p) =>
      Went(Joint(O.Next(j.owners, O.Die(p)), P.Next(j.world, P.Crash(j.owners.processes[p].runId))))
    case Lose(r, lost) =>
      if P.Enabled(j.world, P.ReconcileLoss(r, lost))
      then Went(Joint(O.Next(j.owners, O.PublishLoss(r)), P.Next(j.world, P.ReconcileLoss(r, lost))))
      else Stuck
  }

  ghost predicate Linked(j: Joint) {
    && O.Inv(j.owners) && P.Inv(j.world)
    && forall r :: P.Live(j.world, r) ==> exists p :: IsHost(j.owners, p, r)
  }

  lemma HostHolds(o: O.State, p: O.Pid, r: S.RunId)
    requires O.Inv(o) && IsHost(o, p, r)
    ensures p in O.Chain(o, r)
  {
    assert O.ProcessOk(o, p, o.processes[p]);
  }

  lemma LockedIsFree(o: O.State, r: S.RunId)
    requires O.Inv(o) && r in o.reconciler
    ensures O.Chain(o, r) == {}
  {
    assert O.RunOk(o, r);
  }

  lemma LockFindsNoHost(j: Joint, r: S.RunId)
    requires Linked(j) && r in j.owners.reconciler
    ensures !P.Live(j.world, r)
  {
    hide O.Inv, P.Inv, P.Live, IsHost, O.Chain;
    LockedIsFree(j.owners, r);
    if P.Live(j.world, r) {
      var p :| IsHost(j.owners, p, r);
      HostHolds(j.owners, p, r);
    }
  }

  /** A host's process stays what it is until it dies. */
  lemma HostStays(o: O.State, s: O.Step, p: O.Pid, r: S.RunId)
    requires O.Enabled(o, s) && IsHost(o, p, r) && s != O.Die(p)
    ensures IsHost(O.Next(o, s), p, r)
  {
  }

  lemma LiveBefore(w: P.World, s: P.Step, r: S.RunId)
    requires P.Enabled(w, s) && P.Live(P.Next(w, s), r)
    ensures P.Live(w, r) || (s.Bootstrap? && s.runId == r)
  {
    if r in w.runs {
      P.StepKeepsDead(w, s, r);
    } else {
      NewRun(w, s, r);
    }
  }

  lemma NewRun(w: P.World, s: P.Step, r: S.RunId)
    requires P.Enabled(w, s) && r !in w.runs && r in P.Next(w, s).runs
    ensures s.Bootstrap? && s.runId == r
  {
    hide H.Admit, H.Respond, P.AfterDelivery;
  }

  lemma CrashEnds(w: P.World, r: S.RunId)
    requires P.Live(w, r)
    ensures P.Enabled(w, P.Crash(r)) && !P.Live(P.Next(w, P.Crash(r)), r)
  {
  }

  /** A run that is live after the step was live before and keeps its host's process. */
  lemma HostKept(j: Joint, own: O.Step, act: P.Step, r: S.RunId)
    requires Linked(j) && O.Enabled(j.owners, own) && P.Enabled(j.world, act) && !act.Bootstrap?
    requires P.Live(P.Next(j.world, act), r) && (own.Die? ==> !IsHost(j.owners, own.pid, r))
    ensures exists p :: IsHost(O.Next(j.owners, own), p, r)
  {
    hide O.Inv, P.Inv, O.Next, P.Next, O.Enabled, P.Enabled, P.Live, IsHost;
    LiveBefore(j.world, act, r);
    var p :| IsHost(j.owners, p, r);
    HostStays(j.owners, own, p, r);
  }

  lemma BothKeepLinked(j: Joint, own: O.Step, act: P.Step)
    requires Linked(j) && O.Enabled(j.owners, own) && P.Enabled(j.world, act) && !act.Bootstrap?
    requires forall r :: P.Live(P.Next(j.world, act), r) && own.Die? ==> !IsHost(j.owners, own.pid, r)
    ensures Linked(Joint(O.Next(j.owners, own), P.Next(j.world, act)))
  {
    forall r | P.Live(P.Next(j.world, act), r)
      ensures exists p :: IsHost(O.Next(j.owners, own), p, r)
    {
      HostKept(j, own, act, r);
    }
    hide O.Inv, P.Inv, O.Next, P.Next, O.Enabled, P.Enabled, P.Live, IsHost;
    O.NextKeepsInv(j.owners, own);
    P.NextKeepsInv(j.world, act);
  }

  lemma OwnKeepsLinked(j: Joint, own: O.Step)
    requires Linked(j) && Enabled(j, Own(own))
    ensures Linked(j.(owners := O.Next(j.owners, own)))
  {
    assert O.Enabled(j.owners, own);
    assert forall r :: P.Live(j.world, r) ==> !(own.Die? && IsHost(j.owners, own.pid, r));
    hide O.Inv, P.Inv, O.Next, O.Enabled, P.Live, IsHost, Enabled;
    O.NextKeepsInv(j.owners, own);
    forall r | P.Live(j.world, r)
      ensures exists p :: IsHost(O.Next(j.owners, own), p, r)
    {
      var p :| IsHost(j.owners, p, r);
      HostStays(j.owners, own, p, r);
    }
  }

  lemma ActKeepsLinked(j: Joint, act: P.Step)
    requires Linked(j) && P.Enabled(j.world, act)
    requires act.Bootstrap? ==> exists p :: IsHost(j.owners, p, act.runId)
    ensures Linked(j.(world := P.Next(j.world, act)))
  {
    hide O.Inv, P.Inv, P.Next, P.Enabled, P.Live, IsHost;
    P.NextKeepsInv(j.world, act);
    forall r | P.Live(P.Next(j.world, act), r)
      ensures exists p :: IsHost(j.owners, p, r)
    {
      LiveBefore(j.world, act, r);
    }
  }

  lemma KeepsLinked(j: Joint, s: Step)
    requires Linked(j) && Enabled(j, s)
    ensures Next(j, s).Went? && Linked(Next(j, s).joint)
  {
    hide O.Inv, P.Inv, O.Next, P.Next, O.Enabled, P.Enabled, P.Live, Linked;
    match s
    case Own(own) => OwnKeepsLinked(j, own);
    case Act(act) => ActKeepsLinked(j, act);
    case Boot(p, control) => ActKeepsLinked(j, P.Bootstrap(control.runId, control));
    case Kill(p) => KillKeepsLinked(j, p);
    case Lose(r, lost) => LossKeepsLinked(j, r, lost);
  }

  lemma KillKeepsLinked(j: Joint, p: O.Pid)
    requires Linked(j) && KillsLive(j, p)
    ensures var r := j.owners.processes[p].runId;
            && O.Enabled(j.owners, O.Die(p)) && P.Enabled(j.world, P.Crash(r))
            && Linked(Joint(O.Next(j.owners, O.Die(p)), P.Next(j.world, P.Crash(r))))
  {
    var r := j.owners.processes[p].runId;
    assert O.Enabled(j.owners, O.Die(p)) && forall other :: IsHost(j.owners, p, other) ==> other == r;
    CrashEnds(j.world, r);
    hide *;
    BothKeepLinked(j, O.Die(p), P.Crash(r));
  }

  lemma LossKeepsLinked(j: Joint, r: S.RunId, lost: Value)
    requires Linked(j) && MayLose(j, r, lost)
    ensures P.Enabled(j.world, P.ReconcileLoss(r, lost))
    ensures Linked(Joint(O.Next(j.owners, O.PublishLoss(r)), P.Next(j.world, P.ReconcileLoss(r, lost))))
  {
    LockerIsReconciler(j, r, lost);
    LockFindsNoHost(j, r);
    LossIsEnabled(j, r, lost);
    hide *;
    BothKeepLinked(j, O.PublishLoss(r), P.ReconcileLoss(r, lost));
  }

  lemma LockerIsReconciler(j: Joint, r: S.RunId, lost: Value)
    requires MayLose(j, r, lost)
    ensures O.Enabled(j.owners, O.PublishLoss(r)) && r in j.owners.reconciler
  {
  }

  lemma LossIsEnabled(j: Joint, r: S.RunId, lost: Value)
    requires MayLose(j, r, lost) && !P.Live(j.world, r)
    ensures P.Enabled(j.world, P.ReconcileLoss(r, lost)) && j.world.runs[r].host.None?
  {
    hide O.Enabled, R.Terminal;
  }

  // ----- runs of the joint system

  const START := Joint(O.INITIAL, P.Start)

  ghost predicate Reaches(from: Joint, steps: seq<Step>, j: Joint)
    decreases |steps|
  {
    if steps == [] then j == from
    else Enabled(from, steps[0]) && Next(from, steps[0]).Went? && Reaches(Next(from, steps[0]).joint, steps[1..], j)
  }

  lemma StartIsLinked()
    ensures Linked(START)
  {
  }

  lemma {:induction false} ReachesLinked(from: Joint, steps: seq<Step>, j: Joint)
    requires Linked(from) && Reaches(from, steps, j)
    ensures Linked(j)
    decreases |steps|
  {
    hide Linked, Enabled, Next;
    if steps != [] {
      KeepsLinked(from, steps[0]);
      ReachesLinked(Next(from, steps[0]).joint, steps[1..], j);
    }
  }

  /** In every run of callers, watchdogs, hosts, clients and reconcilers together: a reconciler that
      holds the lock finds the run's host gone, and its publication is a step of the protocol. */
  lemma LossFindsTheHostGone(steps: seq<Step>, j: Joint, r: S.RunId, lost: Value)
    requires Reaches(START, steps, j) && MayLose(j, r, lost)
    ensures j.world.runs[r].host.None? && Next(j, Lose(r, lost)).Went?
  {
    hide *;
    StartIsLinked();
    ReachesLinked(START, steps, j);
    LossKeepsLinked(j, r, lost);
    LossGoes(j, r, lost);
  }

  lemma LossGoes(j: Joint, r: S.RunId, lost: Value)
    requires MayLose(j, r, lost) && P.Enabled(j.world, P.ReconcileLoss(r, lost))
    ensures j.world.runs[r].host.None? && Next(j, Lose(r, lost)).Went?
  {
  }
}
