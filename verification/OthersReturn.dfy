/** A look of one joiner can end the wait of another that came only after it. */
module OthersReturn {
  import opened Wrappers
  import opened Tasks
  import opened Protocol
  import opened Gates
  import opened JoinGate
  import opened JoinReturns
  import opened LostWakeUp
  import opened Scenarios
  import opened EarlyReturn
  import Service

  // ------------------------------------------------------------------------------------------
  // The first joiner
  // ------------------------------------------------------------------------------------------

  function Suspended(s: State): State {
    s.(flags := s.flags.(suspended := true))
  }

  /** While joiner 0 has the mutex another thread suspends the hive, joiner 0 finds no work, and the hive
      is resumed. */
  function LookSuspended(): seq<JointAction> {
    [HiveAct(OfControl(Suspend)), JoinerLooks(0), JoinerLooks(0), JoinerLooks(0), HiveAct(OfControl(Resume))]
  }

  function SuspendedStates(s: State, t: nat): seq<Joint> {
    [OneJoiner(s, Checking(0), NotLooking, true, 1, t),
     OneJoiner(Suspended(s), Checking(0), NotLooking, true, 1, t + 1),
     OneJoiner(Suspended(s), Checking(0), PastPoison, true, 1, t + 2),
     OneJoiner(Suspended(s), Checking(0), PastCounter(1, t + 2), true, 1, t + 3),
     OneJoiner(Suspended(s), Leaving(0, SawFalse(0)), NotLooking, false, 1, t + 4),
     OneJoiner(s, Leaving(0, SawFalse(0)), NotLooking, false, 1, t + 5)]
  }

  lemma SuspendsAndResumes(s: State, t: nat)
    requires QueuedOnly(s) && !s.flags.aborted
    ensures var ks := SuspendedStates(s, t);
            JointStep(ks[0], HiveAct(OfControl(Suspend))) == Some(ks[1]) &&
            JointStep(ks[4], HiveAct(OfControl(Resume))) == Some(ks[5])
  {
    var ks := SuspendedStates(s, t);
    PlainStep(ks[0], OfControl(Suspend), Suspended(s));
    assert Suspended(s).(flags := Suspended(s).flags.(suspended := false)) == s;
    PlainStep(ks[4], OfControl(Resume), s);
  }

  lemma SuspendedLooks(s: State, t: nat)
    requires QueuedOnly(s)
    ensures var ks := SuspendedStates(s, t);
            JointStep(ks[1], JoinerLooks(0)) == Some(ks[2]) && JointStep(ks[2], JoinerLooks(0)) == Some(ks[3])
  {
    assert [NotLooking][0 := PastPoison] == [PastPoison];
    assert [PastPoison][0 := PastCounter(1, t + 2)] == [PastCounter(1, t + 2)];
  }

  lemma SuspendedAnswer(s: State, t: nat)
    ensures var ks := SuspendedStates(s, t); JointStep(ks[3], JoinerLooks(0)) == Some(ks[4])
  {
    assert [PastCounter(1, t + 2)][0 := NotLooking] == [NotLooking];
    assert [Checking(0)][0 := Leaving(0, SawFalse(0))] == [Leaving(0, SawFalse(0))];
  }

  lemma FirstIsLeaving(s: State, t: nat, acts: seq<JointAction>)
    requires QueuedOnly(s) && !s.flags.aborted && acts == LookSuspended()
    ensures JointRun(OneJoiner(s, Checking(0), NotLooking, true, 1, t), acts) ==
              Some(OneJoiner(s, Leaving(0, SawFalse(0)), NotLooking, false, 1, t + 5))
  {
    SuspendsAndResumes(s, t);
    SuspendedLooks(s, t);
    SuspendedAnswer(s, t);
    ChainRuns(SuspendedStates(s, t), acts);
  }

  /** Joiner 0 comes to the gate, sees work, locks the mutex, and looks as above; then joiner 1 comes. */
  function TwoArrive(): seq<JointAction> {
    [Join(AddWaiter)] + (ThreeReads() + ([Join(LoadPhase(0))] + ([Join(Lock(0))] + LookSuspended())))
  }

  lemma FirstLooks(s: State, t: nat, acts: seq<JointAction>, looks: seq<JointAction>)
    requires QueuedOnly(s) && !s.flags.aborted && acts == TwoArrive() && looks == LookSuspended()
    ensures JointRun(NoJoiner(s, 1, t), acts) == Some(OneJoiner(s, Leaving(0, SawFalse(0)), NotLooking, false, 1, t + 11))
  {
    ArrivesAndLooks(s, 1, t, [Join(LoadPhase(0))] + ([Join(Lock(0))] + looks));
    JoinerLocks(s, 1, t + 4, looks);
    FirstIsLeaving(s, t + 6, looks);
  }

  // ------------------------------------------------------------------------------------------
  // The second joiner
  // ------------------------------------------------------------------------------------------

  /** The hive of one worker with two joiners; the first is about to leave phase 0, or has left it. */
  function TwoJoiners(s: State, left: bool, holder: Option<nat>, x: Waiter, look: Look, cond: bool, t: nat): Joint {
    var first := if left then Waiter.Returned(0, SawFalse(0)) else Leaving(0, SawFalse(0));
    Joint(s, Gate(true, cond, if left then 1 else 0, holder, [first, x], seq(1, i => Quiet),
                  if left then [PhaseStep(0, 0, SawFalse(0))] else []),
          [NotLooking, look], seq(1, i => NotLooking), t)
  }

  /** The whole call of joiner 1, in which joiner 0 leaves the gate. */
  function SecondCall(): seq<JointAction> {
    [JoinerLooks(1), JoinerLooks(1), JoinerLooks(1), Join(LoadPhase(1)), Join(Leave(0)), Join(Lock(1)), Join(Check(1)),
     Join(Leave(1))]
  }

  function SecondStates(s: State, t: nat): seq<Joint> {
    [TwoJoiners(s, false, Some(0), Outside, NotLooking, false, t),
     TwoJoiners(s, false, Some(0), Outside, PastPoison, false, t + 1),
     TwoJoiners(s, false, Some(0), Outside, PastCounter(1, t + 1), false, t + 2),
     TwoJoiners(s, false, Some(0), LoadingPhase, NotLooking, true, t + 3),
     TwoJoiners(s, false, Some(0), Locking(0), NotLooking, true, t + 4),
     TwoJoiners(s, true, None, Locking(0), NotLooking, true, t + 5),
     TwoJoiners(s, true, Some(1), Checking(0), NotLooking, true, t + 6),
     TwoJoiners(s, true, Some(1), Leaving(0, PhaseMoved), NotLooking, true, t + 7),
     TwoJoiners(s, true, None, Waiter.Returned(0, PhaseMoved), NotLooking, true, t + 8)]
  }

  lemma SetInTwo<T>(a: T, b: T, c: T)
    ensures [a, b][0 := c] == [c, b] && [a, b][1 := c] == [a, c]
  {
  }

  lemma SecondLooks(s: State, t: nat)
    requires QueuedOnly(s)
    ensures var ks := SecondStates(s, t);
            JointStep(ks[0], JoinerLooks(1)) == Some(ks[1]) && JointStep(ks[1], JoinerLooks(1)) == Some(ks[2]) &&
            JointStep(ks[2], JoinerLooks(1)) == Some(ks[3])
  {
    SetInTwo(NotLooking, NotLooking, PastPoison);
    SetInTwo(NotLooking, PastPoison, PastCounter(1, t + 1));
    SetInTwo(NotLooking, PastCounter(1, t + 1), NotLooking);
    SetInTwo(Leaving(0, SawFalse(0)), Outside, LoadingPhase);
  }

  lemma SecondLoadsPhase(s: State, t: nat)
    ensures var ks := SecondStates(s, t);
            JointStep(ks[3], Join(LoadPhase(1))) == Some(ks[4]) && JointStep(ks[4], Join(Leave(0))) == Some(ks[5])
  {
    assert [] + [PhaseStep(0, 0, SawFalse(0))] == [PhaseStep(0, 0, SawFalse(0))];
    SetInTwo(Leaving(0, SawFalse(0)), LoadingPhase, Locking(0));
    SetInTwo(Leaving(0, SawFalse(0)), Locking(0), Waiter.Returned(0, SawFalse(0)));
  }

  lemma SecondLeaves(s: State, t: nat)
    ensures var ks := SecondStates(s, t);
            JointStep(ks[5], Join(Lock(1))) == Some(ks[6]) && JointStep(ks[6], Join(Check(1))) == Some(ks[7]) &&
            JointStep(ks[7], Join(Leave(1))) == Some(ks[8])
  {
    var first := Waiter.Returned(0, SawFalse(0));
    SetInTwo(first, Locking(0), Checking(0));
    SetInTwo(first, Checking(0), Leaving(0, PhaseMoved));
    SetInTwo(first, Leaving(0, PhaseMoved), Waiter.Returned(0, PhaseMoved));
  }

  lemma SecondChain(s: State, t: nat, ks: seq<Joint>, acts: seq<JointAction>)
    requires QueuedOnly(s) && acts == SecondCall() && ks == SecondStates(s, t)
    ensures |ks| == |acts| + 1 && forall k :: 0 <= k < |acts| ==> JointStep(ks[k], acts[k]) == Some(ks[k + 1])
    ensures forall k :: 0 <= k < |ks| ==> ks[k].hive == s
  {
    SecondLooks(s, t);
    SecondLoadsPhase(s, t);
    SecondLeaves(s, t);
  }

  /** A run given by its states, all with the same hive. */
  lemma ChainKeepsHive(s: State, ks: seq<Joint>, acts: seq<JointAction>)
    requires |ks| == |acts| + 1 && forall k :: 0 <= k < |acts| ==> JointStep(ks[k], acts[k]) == Some(ks[k + 1])
    requires forall k :: 0 <= k < |ks| ==> ks[k].hive == s
    ensures JointRun(ks[0], acts) == Some(ks[|acts|])
    ensures forall k :: 0 <= k <= |acts| ==> Before(ks[0], acts, k).hive == s
  {
    ChainRuns(ks, acts);
    forall k | 0 <= k <= |acts|
      ensures Before(ks[0], acts, k).hive == s
    {
      ChainStates(ks, acts, k);
    }
  }

  /** `join` returns although its whole call sees one and the same hive, in service, not suspended, with
      a task queued that has not ended: in a run of one worker and any one input, another joiner had
      found no work - in a suspension that was over before this call began - and left the phase that
      this one had just loaded. */
  lemma JoinReturnsOnAnothersLook(cfg: Config, x: Input) returns (prefix: seq<JointAction>, before: Joint, j: Joint)
    ensures JointRun(InitJoint(cfg, 1), prefix) == Some(before)
    ensures |before.gate.waiters| == 2 && before.gate.waiters[1] == Outside
    ensures JointRun(before, SecondCall()) == Some(j) && |j.gate.waiters| == 2
    ensures j.gate.waiters[1] == Waiter.Returned(0, PhaseMoved)
    ensures forall k :: 0 <= k <= |SecondCall()| ==> Before(before, SecondCall(), k).hive == before.hive
    ensures Service.InService(before.hive) && HasWork(before.hive) && !before.hive.flags.suspended
    ensures !PromiseKept(before.hive)
  {
    var s := OneReceived(cfg, x);
    var _ := HoldingReads(s, cfg, TheTask(x, 0));
    var t := |ReceiveOne(x)|;
    prefix := Lifted(ReceiveOne(x)) + (TwoArrive() + [Join(AddWaiter)]);
    before := SecondStates(s, t + 12)[0];
    BothArrive(cfg, x, s, TwoArrive(), [Join(AddWaiter)]);
    SecondChain(s, t + 12, SecondStates(s, t + 12), SecondCall());
    ChainKeepsHive(s, SecondStates(s, t + 12), SecondCall());
    j := SecondStates(s, t + 12)[8];
  }

  lemma BothArrive(cfg: Config, x: Input, s: State, acts: seq<JointAction>, last: seq<JointAction>)
    requires Run(Init(cfg, 1), ReceiveOne(x)) == Some(s) && QueuedOnly(s) && !s.flags.aborted
    requires acts == TwoArrive() && last == [Join(AddWaiter)]
    ensures JointRun(InitJoint(cfg, 1), Lifted(ReceiveOne(x)) + (acts + last)) ==
              Some(SecondStates(s, |ReceiveOne(x)| + 12)[0])
  {
    var t := |ReceiveOne(x)|;
    NobodyYet(cfg, x, s);
    JointRunConcat(InitJoint(cfg, 1), Lifted(ReceiveOne(x)), acts + last);
    FirstLooks(s, t, acts, LookSuspended());
    JointRunConcat(NoJoiner(s, 1, t), acts, last);
    SecondArrives(s, t + 11, last);
  }

  lemma SecondArrives(s: State, t: nat, last: seq<JointAction>)
    requires last == [Join(AddWaiter)]
    ensures JointRun(OneJoiner(s, Leaving(0, SawFalse(0)), NotLooking, false, 1, t), last) ==
              Some(TwoJoiners(s, false, Some(0), Outside, NotLooking, false, t + 1))
  {
    var j := OneJoiner(s, Leaving(0, SawFalse(0)), NotLooking, false, 1, t);
    assert [Leaving(0, SawFalse(0))] + [Outside] == [Leaving(0, SawFalse(0)), Outside];
    assert [NotLooking] + [NotLooking] == [NotLooking, NotLooking];
    assert last == [Join(AddWaiter)] + [];
    OneStep(j, Join(AddWaiter), TwoJoiners(s, false, Some(0), Outside, NotLooking, false, t + 1), []);
  }
}
