/** A suspension can lose the wake-up of a joiner for good. */
module LostWakeUp {
  import opened Wrappers
  import opened Tasks
  import opened Protocol
  import opened Gates
  import opened JoinGate
  import opened JoinWakeUps
  import opened Scenarios
  import CounterLaw
  import JoinReturns

  lemma OneStep(j: Joint, act: JointAction, j1: Joint, acts: seq<JointAction>)
    requires JointStep(j, act) == Some(j1)
    ensures JointRun(j, [act] + acts) == JointRun(j1, acts)
  {
    assert ([act] + acts)[1..] == acts;
  }

  // ------------------------------------------------------------------------------------------
  // A joiner falls asleep
  // ------------------------------------------------------------------------------------------

  /** A hive with one joiner, its look, and n workers that owe no notification. */
  function OneJoiner(s: State, x: Waiter, look: Look, cond: bool, n: nat, moment: nat): Joint {
    Joint(s, Gate(true, cond, 0, if HoldsMutex(x) then Some(0) else None, [x], seq(n, i => Quiet), []),
          [look], seq(n, i => NotLooking), moment)
  }

  function NoJoiner(s: State, n: nat, moment: nat): Joint {
    Joint(s, Gate(true, false, 0, None, [], seq(n, i => Quiet), []), [], seq(n, i => NotLooking), moment)
  }

  function ThreeReads(): seq<JointAction> {
    [JoinerLooks(0), JoinerLooks(0), JoinerLooks(0)]
  }

  function FallAsleep(): seq<JointAction> {
    [Join(AddWaiter)] + (ThreeReads() + ([Join(LoadPhase(0))] + ([Join(Lock(0))] + (ThreeReads() + [Join(Sleep(0))]))))
  }

  /** A hive that is not suspended, with a task queued and none active. */
  predicate QueuedOnly(s: State) {
    s.num.Read() == (1, 0) && !s.flags.suspended && !s.flags.poisoned
  }

  /** The look of a joiner at such a hive ends in the answer that there is work. */
  lemma LooksBusy(s: State, x: Waiter, cond: bool, n: nat, t: nat, acts: seq<JointAction>)
    requires QueuedOnly(s) && (x.Outside? || x == Checking(0))
    ensures JointRun(OneJoiner(s, x, NotLooking, cond, n, t), ThreeReads() + acts) ==
              JointRun(OneJoiner(s, if x.Outside? then LoadingPhase else Dozing(0), NotLooking, true, n, t + 3), acts)
  {
    assert ThreeReads() + acts == [JoinerLooks(0)] + ([JoinerLooks(0)] + ([JoinerLooks(0)] + acts));
    assert [NotLooking][0 := PastPoison] == [PastPoison];
    assert [PastPoison][0 := PastCounter(1, t + 1)] == [PastCounter(1, t + 1)];
    assert [PastCounter(1, t + 1)][0 := NotLooking] == [NotLooking];
    OneStep(OneJoiner(s, x, NotLooking, cond, n, t), JoinerLooks(0), OneJoiner(s, x, PastPoison, cond, n, t + 1),
            [JoinerLooks(0)] + ([JoinerLooks(0)] + acts));
    OneStep(OneJoiner(s, x, PastPoison, cond, n, t + 1), JoinerLooks(0),
            OneJoiner(s, x, PastCounter(1, t + 1), cond, n, t + 2), [JoinerLooks(0)] + acts);
    LastRead(s, x, cond, n, t + 2, t + 1);
    OneStep(OneJoiner(s, x, PastCounter(1, t + 1), cond, n, t + 2), JoinerLooks(0),
            OneJoiner(s, if x.Outside? then LoadingPhase else Dozing(0), NotLooking, true, n, t + 3), acts);
  }

  lemma LastRead(s: State, x: Waiter, cond: bool, n: nat, t: nat, moment: nat)
    requires QueuedOnly(s) && (x.Outside? || x == Checking(0))
    ensures JointStep(OneJoiner(s, x, PastCounter(1, moment), cond, n, t), JoinerLooks(0)) ==
              Some(OneJoiner(s, if x.Outside? then LoadingPhase else Dozing(0), NotLooking, true, n, t + 1))
  {
    assert [PastCounter(1, moment)][0 := NotLooking] == [NotLooking];
    assert [x][0 := LoadingPhase] == [LoadingPhase] && [x][0 := Dozing(0)] == [Dozing(0)];
  }

  lemma ArrivesAndLooks(s: State, n: nat, t: nat, acts: seq<JointAction>)
    requires QueuedOnly(s)
    ensures JointRun(NoJoiner(s, n, t), [Join(AddWaiter)] + (ThreeReads() + acts)) ==
              JointRun(OneJoiner(s, LoadingPhase, NotLooking, true, n, t + 4), acts)
  {
    assert [] + [Outside] == [Outside] && [] + [NotLooking] == [NotLooking];
    OneStep(NoJoiner(s, n, t), Join(AddWaiter), OneJoiner(s, Outside, NotLooking, false, n, t + 1), ThreeReads() + acts);
    LooksBusy(s, Outside, false, n, t + 1, acts);
  }

  lemma JoinerLocks(s: State, n: nat, t: nat, acts: seq<JointAction>)
    ensures JointRun(OneJoiner(s, LoadingPhase, NotLooking, true, n, t),
                     [Join(LoadPhase(0))] + ([Join(Lock(0))] + acts)) ==
              JointRun(OneJoiner(s, Checking(0), NotLooking, true, n, t + 2), acts)
  {
    assert [LoadingPhase][0 := Locking(0)] == [Locking(0)];
    OneStep(OneJoiner(s, LoadingPhase, NotLooking, true, n, t), Join(LoadPhase(0)),
            OneJoiner(s, Locking(0), NotLooking, true, n, t + 1), [Join(Lock(0))] + acts);
    assert [Locking(0)][0 := Checking(0)] == [Checking(0)];
    OneStep(OneJoiner(s, Locking(0), NotLooking, true, n, t + 1), Join(Lock(0)),
            OneJoiner(s, Checking(0), NotLooking, true, n, t + 2), acts);
  }

  lemma JoinerSleeps(s: State, n: nat, t: nat, sleep: seq<JointAction>)
    requires sleep == [Join(Sleep(0))]
    ensures JointRun(OneJoiner(s, Dozing(0), NotLooking, true, n, t), sleep) ==
              Some(OneJoiner(s, Asleep(0), NotLooking, true, n, t + 1))
  {
    assert [Dozing(0)][0 := Asleep(0)] == [Asleep(0)];
    assert sleep == [Join(Sleep(0))] + [];
    OneStep(OneJoiner(s, Dozing(0), NotLooking, true, n, t), Join(Sleep(0)),
            OneJoiner(s, Asleep(0), NotLooking, true, n, t + 1), []);
  }

  /** A joiner that comes to such a hive falls asleep. */
  lemma JoinerFallsAsleep(s: State, n: nat, t: nat, acts: seq<JointAction>, sleep: seq<JointAction>)
    requires QueuedOnly(s) && acts == FallAsleep() && sleep == [Join(Sleep(0))]
    ensures JointRun(NoJoiner(s, n, t), acts) == Some(OneJoiner(s, Asleep(0), NotLooking, true, n, t + 10))
  {
    var look := ThreeReads() + sleep;
    ArrivesAndLooks(s, n, t, [Join(LoadPhase(0))] + ([Join(Lock(0))] + look));
    JoinerLocks(s, n, t + 4, look);
    LooksBusy(s, Checking(0), true, n, t + 6, sleep);
    JoinerSleeps(s, n, t + 9, sleep);
  }

  // ------------------------------------------------------------------------------------------
  // Hive actions in a joint run
  // ------------------------------------------------------------------------------------------

  /** Actions that are not a worker's notification and do not add workers. */
  predicate Plain(a: Action) {
    a != OfControl(Grow) && (a.OfWorker? ==> !IsFinish(a.wa) && !a.wa.NotifyDone?)
  }

  function Lifted(actions: seq<Action>): (acts: seq<JointAction>)
    ensures |acts| == |actions|
  {
    if actions == [] then [] else [HiveAct(actions[0])] + Lifted(actions[1..])
  }

  lemma PlainStep(j: Joint, a: Action, s: State)
    requires Step(j.hive, a) == Some(s) && Plain(a)
    ensures JointStep(j, HiveAct(a)) == Some(j.(hive := s, moment := j.moment + 1))
  {
  }

  /** A run of such actions of the hive is a joint run that leaves gate and looks alone. */
  lemma {:induction false} LiftedRun(j: Joint, actions: seq<Action>, s: State)
    requires Run(j.hive, actions) == Some(s) && forall k :: 0 <= k < |actions| ==> Plain(actions[k])
    ensures JointRun(j, Lifted(actions)) == Some(j.(hive := s, moment := j.moment + |actions|))
    decreases |actions|
  {
    if actions != [] {
      var s1 := Step(j.hive, actions[0]).value;
      var j1 := j.(hive := s1, moment := j.moment + 1);
      PlainStep(j, actions[0], s1);
      assert forall k :: 0 <= k < |actions[1..]| ==> actions[1..][k] == actions[k + 1];
      LiftedRun(j1, actions[1..], s);
      OneStep(j, HiveAct(actions[0]), j1, Lifted(actions[1..]));
    }
  }

  // ------------------------------------------------------------------------------------------
  // The run
  // ------------------------------------------------------------------------------------------

  function SubmitOne(x: Input): seq<Action> {
    [OfControl(NewSubmitter), OfSubmitter(0, Submit(None, [x])), OfSubmitter(0, CountInputs(1, false))]
  }

  lemma SubmitOneRuns(cfg: Config, n: nat, x: Input)
    requires n <= MAX_WORKERS
    ensures Run(Init(cfg, n), SubmitOne(x)) == Some(Counting(cfg, n, x))
  {
    CallingSteps(cfg, n, x);
    CountingStage(cfg, n, x);
    var count := [OfSubmitter(0, CountInputs(1, false))];
    RunOne(Init(cfg, n), OfControl(NewSubmitter), Init(cfg, n).(subs := [NO_CALL]), SubmitOne(x)[1..]);
    RunOne(Init(cfg, n).(subs := [NO_CALL]), OfSubmitter(0, Submit(None, [x])), Calling(cfg, n, x), count);
    RunOne(Calling(cfg, n, x), count[0], Counting(cfg, n, x), []);
  }

  lemma RunOne(s: State, a: Action, s1: State, actions: seq<Action>)
    requires Step(s, a) == Some(s1)
    ensures Run(s, [a] + actions) == Run(s1, actions)
  {
    assert ([a] + actions)[1..] == actions;
  }

  // ------------------------------------------------------------------------------------------
  // For ever
  // ------------------------------------------------------------------------------------------

  /** Everybody waits: the hive is suspended, its workers are at the gate and nobody is about to notify. */
  ghost predicate Frozen(j: Joint) {
    && j.hive.flags.suspended
    && (forall v :: 0 <= v < |j.hive.workers| ==> j.hive.workers[v] == AtGate)
    && (forall v :: 0 <= v < |j.gate.notifiers| ==> j.gate.notifiers[v] == Quiet)
    && |j.joiners| == |j.gate.waiters|
  }

  lemma FrozenHive(s: State, a: Action, s': State)
    requires Step(s, a) == Some(s') && s.flags.suspended && a != OfControl(Resume)
    requires forall v :: 0 <= v < |s.workers| ==> s.workers[v] == AtGate
    ensures !a.OfWorker? && s'.flags.suspended
    ensures forall v :: 0 <= v < |s'.workers| ==> s'.workers[v] == AtGate
  {
    match a
    case OfWorker(_, _) =>
    case OfSubmitter(_, _) => assert s'.workers == s.workers && s'.flags == s.flags;
    case OfControl(_) =>
  }

  lemma FrozenStep(j: Joint, act: JointAction, j': Joint, w: nat)
    requires Frozen(j) && JointStep(j, act) == Some(j') && act != HiveAct(OfControl(Resume)) && act != Join(Wake(w))
    requires w < |j.gate.waiters| && j.gate.waiters[w].Asleep?
    ensures Frozen(j') && w < |j'.gate.waiters| && j'.gate.waiters[w] == j.gate.waiters[w]
  {
    match act
    case HiveAct(a) => FrozenHive(j.hive, a, j'.hive);
    case JoinerLooks(v) => FrozenLook(j, v, Act(j, act).value, w);
    case Join(ga) => FrozenJoiner(j, ga, Act(j, act).value, w);
    case _ =>
  }

  lemma FrozenLook(j: Joint, v: nat, j': Joint, w: nat)
    requires Frozen(j) && JoinerStep(j, v) == Some(j') && w < |j.gate.waiters| && j.gate.waiters[w].Asleep?
    ensures Frozen(j') && w < |j'.gate.waiters| && j'.gate.waiters[w] == j.gate.waiters[w]
  {
  }

  lemma FrozenJoiner(j: Joint, ga: GateAction, j': Joint, w: nat)
    requires Frozen(j) && OtherStep(j, ga) == Some(j') && w < |j.gate.waiters| && j.gate.waiters[w].Asleep?
    requires ga != Wake(w)
    ensures Frozen(j') && w < |j'.gate.waiters| && j'.gate.waiters[w] == j.gate.waiters[w]
  {
  }

  /** Until somebody resumes the hive, a joiner asleep in a frozen hive is only ever woken spuriously. */
  lemma {:induction false} FrozenJoinerSleepsOn(j: Joint, acts: seq<JointAction>, j': Joint, w: nat)
    requires Frozen(j) && JointRun(j, acts) == Some(j') && w < |j.gate.waiters| && j.gate.waiters[w].Asleep?
    requires forall k :: 0 <= k < |acts| ==> acts[k] != HiveAct(OfControl(Resume)) && acts[k] != Join(Wake(w))
    ensures w < |j'.gate.waiters| && j'.gate.waiters[w] == j.gate.waiters[w]
    decreases |acts|
  {
    if acts != [] {
      var j1 := JointStep(j, acts[0]).value;
      FrozenStep(j, acts[0], j1, w);
      assert forall k :: 0 <= k < |acts[1..]| ==> acts[1..][k] == acts[k + 1];
      FrozenJoinerSleepsOn(j1, acts[1..], j', w);
    }
  }

  /** For any number of workers and any input: a call counts its input, a joiner sees the work and
      falls asleep, and then the hive is suspended before a worker takes the task. The joiner was
      served and is so no more: no task is active and no worker will look or notify; and whatever happens
      from then on short of a resumption, only a spurious wake-up can end its sleep. */
  lemma SuspensionLosesAWakeUp(cfg: Config, n: nat, x: Input) returns (before: Joint, j: Joint)
    requires n <= MAX_WORKERS
    ensures JointRun(InitJoint(cfg, n), Lifted(SubmitOne(x)) + FallAsleep()) == Some(before)
    ensures before.gate.waiters == [Asleep(0)] && JoinersServed(before)
    ensures JointStep(before, HiveAct(OfControl(Suspend))) == Some(j)
    ensures CounterLaw.Orderly(j.hive) && j.gate.waiters == [Asleep(0)] && !JoinersServed(j)
    ensures Frozen(j)
  {
    before := OneJoiner(Counting(cfg, n, x), Asleep(0), NotLooking, true, n, 13);
    CountingStage(cfg, n, x);
    SleepsBefore(cfg, n, x);
    j := SuspendedThen(before);
  }

  lemma SleepsBefore(cfg: Config, n: nat, x: Input)
    requires n <= MAX_WORKERS
    ensures JointRun(InitJoint(cfg, n), Lifted(SubmitOne(x)) + FallAsleep()) ==
              Some(OneJoiner(Counting(cfg, n, x), Asleep(0), NotLooking, true, n, 13))
  {
    CountingStage(cfg, n, x);
    SubmitOneRuns(cfg, n, x);
    LiftedRun(InitJoint(cfg, n), SubmitOne(x), Counting(cfg, n, x));
    JoinerFallsAsleep(Counting(cfg, n, x), n, 3, FallAsleep(), [Join(Sleep(0))]);
    JoinReturns.JointRunConcat(InitJoint(cfg, n), Lifted(SubmitOne(x)), FallAsleep());
  }

  lemma SuspendedThen(before: Joint) returns (j: Joint)
    requires QueuedOnly(before.hive) && CounterLaw.Orderly(before.hive) && !before.hive.flags.aborted
    requires forall v :: 0 <= v < |before.hive.workers| ==> before.hive.workers[v] == AtGate
    requires forall v :: 0 <= v < |before.gate.notifiers| ==> before.gate.notifiers[v] == Quiet
    requires |before.joiners| == |before.gate.waiters|
    ensures JointStep(before, HiveAct(OfControl(Suspend))) == Some(j)
    ensures CounterLaw.Orderly(j.hive) && j.gate == before.gate && !JoinersServed(j) && Frozen(j)
  {
    j := JointStep(before, HiveAct(OfControl(Suspend))).value;
    SuspensionServesIff(before, j);
    assert !SomeWorker(before, true);
  }
}
