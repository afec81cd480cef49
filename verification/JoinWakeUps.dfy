/** No joiner is forgotten, except by a suspension - and exactly when. */
module JoinWakeUps {
  import opened Wrappers
  import opened Protocol
  import opened CounterLaw
  import opened Gates
  import opened JoinGate
  import opened Service
  import Theorems

  // ------------------------------------------------------------------------------------------
  // Joiners that rely on a notification, and workers that will give it
  // ------------------------------------------------------------------------------------------

  /** The joiner sleeps or is about to: it has seen work, or its look can only end so unless it finds
      the hive suspended. */
  predicate Committed(j: Joint, w: nat, suspended: bool) {
    w < |j.gate.waiters| && w < |j.joiners| &&
    (j.gate.waiters[w].Asleep? || j.gate.waiters[w].Dozing? ||
     (j.gate.waiters[w].Checking? && SawQueued(j.joiners[w]) && !suspended))
  }

  /** The worker calls `notify_all`, or will look at the counter anew before it decides; it does not if
      its look has already shown queued tasks, unless it finds the hive suspended. */
  predicate Responsible(j: Joint, n: nat, suspended: bool) {
    n < |j.gate.notifiers| && n < |j.workers| &&
    (j.gate.notifiers[n].Notifying? || (j.gate.notifiers[n].Owing? && (SawQueued(j.workers[n]) ==> suspended)))
  }

  predicate SawQueued(look: Look) {
    look.PastCounter? && look.queued > 0
  }

  ghost predicate SomeJoiner(j: Joint, suspended: bool) {
    exists w: nat :: Committed(j, w, suspended)
  }

  ghost predicate SomeWorker(j: Joint, suspended: bool) {
    exists n: nat :: Responsible(j, n, suspended)
  }

  /** While a joiner relies on it, there is work or a worker that will look or notify. */
  ghost predicate Guarded(j: Joint, suspended: bool) {
    SomeJoiner(j, suspended) ==> WorkIf(j.hive, suspended) || SomeWorker(j, suspended)
  }

  lemma HiveActGuards(j: Joint, a: Action, j': Joint, b: bool)
    requires Sane(j) && Theorems.Invariant(j.hive) && HiveStep(j, a) == Some(j') && Orderly(j'.hive)
    requires Guarded(j, b)
    ensures Guarded(j', b)
  {
    HiveActEffect(j, a, j');
    if SomeJoiner(j', b) {
      var w: nat :| Committed(j', w, b);
      assert Committed(j, w, b);
      if WorkIf(j.hive, b) && !WorkIf(j'.hive, b) {
        WorkEndsByFinish(j.hive, a, j'.hive, b);
        assert Responsible(j', a.w, b);
      } else if SomeWorker(j, b) {
        var n: nat :| Responsible(j, n, b);
        assert Responsible(j', n, b);
      }
    }
  }

  lemma JoinerGuards(j: Joint, w: nat, j': Joint, b: bool)
    requires Sane(j) && JoinerStep(j, w) == Some(j') && Guarded(j, b) && (b ==> j.hive.flags.suspended)
    ensures Guarded(j', b)
  {
    if SomeJoiner(j', b) {
      var v: nat :| Committed(j', v, b);
      if !Committed(j, v, b) {
        assert v == w;
      } else if SomeWorker(j, b) {
        var n: nat :| Responsible(j, n, b);
        assert Responsible(j', n, b);
      }
    }
  }

  lemma WorkerGuards(j: Joint, n: nat, j': Joint, b: bool)
    requires Sane(j) && WorkerLookStep(j, n) == Some(j') && Guarded(j, b) && (b ==> j.hive.flags.suspended)
    ensures Guarded(j', b)
  {
    WorkerLooksSanely(j, n, j');
    if SomeJoiner(j', b) {
      var v: nat :| Committed(j', v, b);
      assert Committed(j, v, b);
      if !WorkIf(j.hive, b) {
        var m: nat :| Responsible(j, m, b);
        assert Responsible(j', m, b);
      }
    }
  }

  /** Who broadcasts has the mutex, so no joiner is left that relies on it. */
  lemma BroadcastGuards(j: Joint, w: nat, j': Joint, b: bool)
    requires Sane(j) && Act(j, Broadcast(w)) == Some(j')
    ensures Guarded(j', b)
  {
    BroadcastsSanely(j, w, j');
    forall v: nat
      ensures !Committed(j', v, b)
    {
    }
  }

  /** No other step of a joiner makes it rely on anything. */
  lemma NewlyCommitted(j: Joint, ga: GateAction, j': Joint, v: nat, b: bool)
    requires Sane(j) && OtherStep(j, ga) == Some(j') && Committed(j', v, b)
    ensures Committed(j, v, b)
  {
    if !ga.AddWaiter? {
      assert j'.gate.waiters == j.gate.waiters[ga.w := j'.gate.waiters[ga.w]];
      assert v == ga.w && ga.Lock? ==> !MayLook(j.gate, v);
    }
  }

  lemma OthersGuard(j: Joint, ga: GateAction, j': Joint, b: bool)
    requires Sane(j) && OtherStep(j, ga) == Some(j') && Guarded(j, b)
    ensures Guarded(j', b)
  {
    if SomeJoiner(j', b) {
      var v: nat :| Committed(j', v, b);
      NewlyCommitted(j, ga, j', v, b);
      if SomeWorker(j, b) {
        var n: nat :| Responsible(j, n, b);
        assert Responsible(j', n, b);
      }
    }
  }

  lemma MomentIsIdle(j: Joint, moment: nat, b: bool)
    requires Guarded(j, b)
    ensures Guarded(j.(moment := moment), b)
  {
    var j' := j.(moment := moment);
    if SomeJoiner(j', b) {
      var v: nat :| Committed(j', v, b);
      assert Committed(j, v, b);
      if SomeWorker(j, b) {
        var n: nat :| Responsible(j, n, b);
        assert Responsible(j', n, b);
      }
    }
  }

  lemma StepGuards(j: Joint, act: JointAction, j': Joint, b: bool)
    requires Sane(j) && Theorems.Invariant(j.hive) && JointStep(j, act) == Some(j') && Orderly(j'.hive)
    requires Guarded(j, b) && (b ==> j.hive.flags.suspended)
    ensures Guarded(j', b)
  {
    var i := Act(j, act).value;
    match act {
      case HiveAct(a) => HiveActGuards(j, a, i, b);
      case JoinerLooks(w) => JoinerGuards(j, w, i, b);
      case WorkerLooks(w) => WorkerGuards(j, w, i, b);
      case Broadcast(w) => BroadcastGuards(j, w, i, b);
      case Join(ga) => OthersGuard(j, ga, i, b);
    }
    MomentIsIdle(i, j'.moment, b);
  }

  // ------------------------------------------------------------------------------------------
  // Runs
  // ------------------------------------------------------------------------------------------

  lemma OrderlyBefore(j: Joint, act: JointAction, j': Joint)
    requires Theorems.Invariant(j.hive) && JointStep(j, act) == Some(j')
    ensures Theorems.Invariant(j'.hive)
    ensures Orderly(j'.hive) ==> Orderly(j.hive)
    ensures !j'.hive.flags.poisoned ==> !j.hive.flags.poisoned
  {
    HiveStepOf(j, act, j');
    var actions := HiveActions(act, j, j');
    if actions != [] {
      StepBefore(j.hive, actions[0], j'.hive);
    }
  }

  lemma StepBefore(s: State, a: Action, s': State)
    requires Theorems.Invariant(s) && Step(s, a) == Some(s')
    ensures Theorems.Invariant(s')
    ensures Orderly(s') ==> Orderly(s)
    ensures !s'.flags.poisoned ==> !s.flags.poisoned
  {
    Theorems.StepKeepsInvariant(s, a, s');
    var reply := ReplyTo(s.num, CallOf(a));
    var t := Effect(s, a, reply).value;
    OrderlyBackwards(s, a, reply, t);
    FlagsKept(s, a, reply, t);
    assert Orderly(s') ==> Orderly(t);
  }

  lemma {:induction false} OrderlyAllAlong(j: Joint, acts: seq<JointAction>, j': Joint)
    requires Theorems.Invariant(j.hive) && JointRun(j, acts) == Some(j')
    ensures Orderly(j'.hive) ==> Orderly(j.hive)
    ensures !j'.hive.flags.poisoned ==> !j.hive.flags.poisoned
    decreases |acts|
  {
    if acts != [] {
      var j1 := JointStep(j, acts[0]).value;
      OrderlyBefore(j, acts[0], j1);
      OrderlyAllAlong(j1, acts[1..], j');
    }
  }

  /** In every run without clean exit, whatever its suspensions: a joiner that relies on a notification
      has queued or active tasks to wait for, or a worker that will look or notify. */
  lemma {:induction false} RunGuards(j: Joint, acts: seq<JointAction>, j': Joint)
    requires Sane(j) && Theorems.Invariant(j.hive) && Guarded(j, false)
    requires JointRun(j, acts) == Some(j') && Orderly(j'.hive)
    ensures Guarded(j', false)
    decreases |acts|
  {
    if acts != [] {
      var j1 := JointStep(j, acts[0]).value;
      OrderlyBefore(j, acts[0], j1);
      OrderlyAllAlong(j1, acts[1..], j');
      StepGuards(j, acts[0], j1, false);
      StepIsSane(j, acts[0], j1);
      RunGuards(j1, acts[1..], j');
    }
  }

  lemma NobodyJoinsYet(cfg: Config, n: nat)
    ensures Guarded(InitJoint(cfg, n), false)
  {
    forall w: nat
      ensures !Committed(InitJoint(cfg, n), w, false)
    {
    }
  }

  // ------------------------------------------------------------------------------------------
  // No lost wake-up, and when one is lost
  // ------------------------------------------------------------------------------------------

  /** The joiners have something to wait for, or a worker will look or notify. */
  ghost predicate JoinersServed(j: Joint) {
    HasWork(j.hive) || SomeWorker(j, j.hive.flags.suspended)
  }

  /** In every run without poisoning or clean exit, whatever its suspensions: while a thread sleeps in
      `join`, it is served if and only if the hive is not suspended, or some task is active, or some
      worker will look or notify. So only a hive that is suspended with tasks queued can leave it alone. */
  lemma JoinersServedIff(cfg: Config, n: nat, acts: seq<JointAction>, j: Joint, w: nat)
    requires JointRun(InitJoint(cfg, n), acts) == Some(j) && Orderly(j.hive) && !j.hive.flags.poisoned
    requires w < |j.gate.waiters| && j.gate.waiters[w].Asleep?
    ensures JoinersServed(j) <==>
              !j.hive.flags.suspended || j.hive.num.Read().1 > 0 || SomeWorker(j, j.hive.flags.suspended)
    ensures !JoinersServed(j) ==> j.hive.flags.suspended && j.hive.num.Read().0 > 0
  {
    var j0 := InitJoint(cfg, n);
    InitIsSane(cfg, n);
    NobodyJoinsYet(cfg, n);
    RunGuards(j0, acts, j);
    RunIsSaneFromInit(cfg, n, acts, j);
    assert Committed(j, w, false);
    if SomeWorker(j, false) {
      var v: nat :| Responsible(j, v, false);
      assert Responsible(j, v, j.hive.flags.suspended);
    }
  }

  /** A worker that will look or notify is between its `finish_task` and its `notify_all`. */
  lemma ResponsibleIsNotifying(cfg: Config, n: nat, acts: seq<JointAction>, j: Joint, v: nat)
    requires JointRun(InitJoint(cfg, n), acts) == Some(j) && Responsible(j, v, j.hive.flags.suspended)
    ensures v < |j.hive.workers| && j.hive.workers[v].Notifying?
  {
    InitIsSane(cfg, n);
    RunIsSane(InitJoint(cfg, n), acts, j);
  }

  /** The same for a hive in service. */
  lemma JoinersServedInService(cfg: Config, n: nat, acts: seq<JointAction>, j: Joint, w: nat)
    requires JointRun(InitJoint(cfg, n), acts) == Some(j) && InService(j.hive)
    requires w < |j.gate.waiters| && j.gate.waiters[w].Asleep?
    ensures JoinersServed(j) <==>
              !j.hive.flags.suspended || j.hive.num.Read().1 > 0 || SomeWorker(j, j.hive.flags.suspended)
    ensures !JoinersServed(j) ==> j.hive.flags.suspended && j.hive.num.Read().0 > 0
  {
    JointHiveIsReachable(cfg, n, acts, j);
    InServiceIsOrderly(j.hive);
    JoinersServedIff(cfg, n, acts, j, w);
  }

  // ------------------------------------------------------------------------------------------
  // Suspensions that lose nothing
  // ------------------------------------------------------------------------------------------

  /** A suspension of a hive with work of which nothing is active at that very moment. */
  predicate Spoils(j: Joint, act: JointAction) {
    act == HiveAct(OfControl(Suspend)) && HasWork(j.hive) && j.hive.num.Read().1 == 0
  }

  /** Whether a run has seen such a suspension since the hive was last resumed. */
  predicate Spoiled(j: Joint, acts: seq<JointAction>, before: bool)
    decreases |acts|
  {
    if acts == [] then before
    else
      match JointStep(j, acts[0])
      case None => before
      case Some(j1) => Spoiled(j1, acts[1..], NowSpoiled(j, acts[0], before))
  }

  predicate NowSpoiled(j: Joint, act: JointAction, before: bool) {
    act != HiveAct(OfControl(Resume)) && (before || Spoils(j, act))
  }

  /** Suspending leaves the gate and the looks alone. */
  lemma SuspensionGuards(j: Joint, j': Joint)
    requires JointStep(j, HiveAct(OfControl(Suspend))) == Some(j') && !j.hive.flags.poisoned
    requires Guarded(j, j.hive.flags.suspended) && !Spoils(j, HiveAct(OfControl(Suspend)))
    ensures Guarded(j', true)
  {
    assert j'.hive.num == j.hive.num;
    if SomeJoiner(j', true) {
      var w: nat :| Committed(j', w, true);
      assert Committed(j, w, j.hive.flags.suspended);
      if SomeWorker(j, j.hive.flags.suspended) {
        var n: nat :| Responsible(j, n, j.hive.flags.suspended);
        assert Responsible(j', n, true);
      }
    }
  }

  lemma StepGuardsUnspoiled(j: Joint, act: JointAction, j': Joint)
    requires Sane(j) && Theorems.Invariant(j.hive) && JointStep(j, act) == Some(j') && Orderly(j'.hive)
    requires !j'.hive.flags.poisoned && !j.hive.flags.poisoned
    requires Guarded(j, false) && Guarded(j, j.hive.flags.suspended) && !Spoils(j, act)
    ensures Guarded(j', j'.hive.flags.suspended)
  {
    StepGuards(j, act, j', false);
    if act == HiveAct(OfControl(Suspend)) {
      SuspensionGuards(j, j');
    } else {
      StepGuards(j, act, j', j.hive.flags.suspended);
      SuspendedKept(j, act, j');
    }
  }

  lemma SuspendedKept(j: Joint, act: JointAction, j': Joint)
    requires JointStep(j, act) == Some(j') && act != HiveAct(OfControl(Suspend))
    ensures act == HiveAct(OfControl(Resume)) ==> !j'.hive.flags.suspended
    ensures act != HiveAct(OfControl(Resume)) ==> j'.hive.flags.suspended == j.hive.flags.suspended
  {
    HiveStepOf(j, act, j');
    var actions := HiveActions(act, j, j');
    if actions != [] {
      var reply := ReplyTo(j.hive.num, CallOf(actions[0]));
      FlagsKept(j.hive, actions[0], reply, Effect(j.hive, actions[0], reply).value);
    }
  }

  lemma {:induction false} RunGuardsUnspoiled(j: Joint, acts: seq<JointAction>, j': Joint, spoiled: bool)
    requires Sane(j) && Theorems.Invariant(j.hive) && Guarded(j, false)
    requires !spoiled ==> Guarded(j, j.hive.flags.suspended)
    requires JointRun(j, acts) == Some(j') && Orderly(j'.hive) && !j'.hive.flags.poisoned
    ensures !Spoiled(j, acts, spoiled) ==> Guarded(j', j'.hive.flags.suspended)
    decreases |acts|
  {
    if acts != [] {
      var j1 := JointStep(j, acts[0]).value;
      OrderlyBefore(j, acts[0], j1);
      OrderlyAllAlong(j1, acts[1..], j');
      StepGuards(j, acts[0], j1, false);
      StepIsSane(j, acts[0], j1);
      NextGuard(j, acts[0], j1, spoiled);
      RunGuardsUnspoiled(j1, acts[1..], j', NowSpoiled(j, acts[0], spoiled));
    }
  }

  lemma NextGuard(j: Joint, act: JointAction, j': Joint, spoiled: bool)
    requires Sane(j) && Theorems.Invariant(j.hive) && JointStep(j, act) == Some(j') && Orderly(j'.hive)
    requires !j'.hive.flags.poisoned && !j.hive.flags.poisoned
    requires Guarded(j, false) && Guarded(j', false) && (!spoiled ==> Guarded(j, j.hive.flags.suspended))
    ensures !NowSpoiled(j, act, spoiled) ==> Guarded(j', j'.hive.flags.suspended)
  {
    if act == HiveAct(OfControl(Resume)) {
      SuspendedKept(j, act, j');
    } else if !NowSpoiled(j, act, spoiled) {
      StepGuardsUnspoiled(j, act, j');
    }
  }

  lemma UnspoiledGuards(cfg: Config, n: nat, acts: seq<JointAction>, j: Joint)
    requires JointRun(InitJoint(cfg, n), acts) == Some(j) && !Spoiled(InitJoint(cfg, n), acts, false)
    requires Orderly(j.hive) && !j.hive.flags.poisoned
    ensures Guarded(j, j.hive.flags.suspended)
  {
    InitIsSane(cfg, n);
    NobodyJoinsYet(cfg, n);
    RunGuardsUnspoiled(InitJoint(cfg, n), acts, j, false);
  }

  lemma RunIsSaneFromInit(cfg: Config, n: nat, acts: seq<JointAction>, j: Joint)
    requires JointRun(InitJoint(cfg, n), acts) == Some(j)
    ensures Sane(j) && j.moment == |acts|
  {
    InitIsSane(cfg, n);
    RunIsSane(InitJoint(cfg, n), acts, j);
  }

  /** In every run without poisoning or clean exit: unless the hive was suspended, since it was last
      resumed, at a moment when it had work of which nothing was active, every sleeping joiner is
      served. */
  lemma JoinersAreWoken(cfg: Config, n: nat, acts: seq<JointAction>, j: Joint, w: nat)
    requires JointRun(InitJoint(cfg, n), acts) == Some(j) && !Spoiled(InitJoint(cfg, n), acts, false)
    requires Orderly(j.hive) && !j.hive.flags.poisoned
    requires w < |j.gate.waiters| && j.gate.waiters[w].Asleep?
    ensures JoinersServed(j)
  {
    UnspoiledGuards(cfg, n, acts, j);
    RunIsSaneFromInit(cfg, n, acts, j);
    assert Committed(j, w, j.hive.flags.suspended);
  }

  /** The same for a hive in service. */
  lemma JoinersAreWokenInService(cfg: Config, n: nat, acts: seq<JointAction>, j: Joint, w: nat)
    requires JointRun(InitJoint(cfg, n), acts) == Some(j) && !Spoiled(InitJoint(cfg, n), acts, false)
    requires InService(j.hive)
    requires w < |j.gate.waiters| && j.gate.waiters[w].Asleep?
    ensures JoinersServed(j)
  {
    JointHiveIsReachable(cfg, n, acts, j);
    InServiceIsOrderly(j.hive);
    JoinersAreWoken(cfg, n, acts, j, w);
  }

  /** A suspension leaves the joiners served if and only if some task is active at that moment or some
      worker will look or notify. */
  lemma SuspensionServesIff(j: Joint, j': Joint)
    requires !j.hive.flags.poisoned
    requires JointStep(j, HiveAct(OfControl(Suspend))) == Some(j')
    ensures j'.gate.waiters == j.gate.waiters
    ensures JoinersServed(j') <==> j.hive.num.Read().1 > 0 || SomeWorker(j, true)
  {
    assert j'.hive.num == j.hive.num;
    if SomeWorker(j, true) {
      var v: nat :| Responsible(j, v, true);
      assert Responsible(j', v, true);
    }
    if SomeWorker(j', true) {
      var v: nat :| Responsible(j', v, true);
      assert Responsible(j, v, true);
    }
  }
}
