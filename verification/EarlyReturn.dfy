/** A suspension can make `join` return while a task is being executed. */
module EarlyReturn {
  import opened Wrappers
  import opened Tasks
  import opened Protocol
  import opened Gates
  import opened JoinGate
  import opened JoinReturns
  import opened LostWakeUp
  import opened Scenarios
  import Ledger
  import Service
  import Theorems

  // ------------------------------------------------------------------------------------------
  // A worker with a task in hand
  // ------------------------------------------------------------------------------------------

  lemma {:induction false} RunTwice(s: State, xs: seq<Action>, t: State, ys: seq<Action>, u: State)
    requires Run(s, xs) == Some(t) && Run(t, ys) == Some(u)
    ensures Run(s, xs + ys) == Some(u)
    decreases |xs|
  {
    if xs == [] {
      assert xs + ys == ys;
    } else {
      assert (xs + ys)[1..] == xs[1..] + ys;
      RunTwice(Step(s, xs[0]).value, xs[1..], t, ys, u);
    }
  }

  function IssueAndSend(): seq<Action> {
    [OfSubmitter(0, TakeIndices), OfSubmitter(0, Decide), OfSubmitter(0, SendTask)]
  }

  /** One worker, one submitted task, and the worker has just received it. */
  function ReceiveOne(x: Input): seq<Action> {
    SubmitOne(x) + IssueAndSend() + TakeTask()
  }

  lemma OneReceived(cfg: Config, x: Input) returns (s: State)
    ensures Run(Init(cfg, 1), ReceiveOne(x)) == Some(s)
    ensures Stage(s, cfg, Serving, [Holding(TheTask(x, 0))], ISSUED) && NobodySubmits(s)
  {
    var workers := Init(cfg, 1).workers;
    assert workers == [AtGate];
    CountingStage(cfg, 1, x);
    SubmitOneRuns(cfg, 1, x);
    var s0 := Counting(cfg, 1, x);
    var s1 := IndexTaken(s0, cfg, workers, x);
    var s2 := SendingDecided(s1, cfg, workers, x);
    var s3 := TaskSent(s2, cfg, workers, x);
    ThreeSteps(s0, s1, s2, s3);
    s := TaskReceived(s3, cfg, workers, x);
    RunTwice(Init(cfg, 1), SubmitOne(x), s0, IssueAndSend(), s3);
    RunTwice(Init(cfg, 1), SubmitOne(x) + IssueAndSend(), s3, TakeTask(), s);
    assert [AtGate][0 := Holding(TheTask(x, 0))] == [Holding(TheTask(x, 0))];
  }

  lemma ThreeSteps(s0: State, s1: State, s2: State, s3: State)
    requires Step(s0, OfSubmitter(0, TakeIndices)) == Some(s1)
    requires Step(s1, OfSubmitter(0, Decide)) == Some(s2)
    requires Step(s2, OfSubmitter(0, SendTask)) == Some(s3)
    ensures Run(s0, IssueAndSend()) == Some(s3)
  {
    RunOne(s2, OfSubmitter(0, SendTask), s3, []);
    RunOne(s1, OfSubmitter(0, Decide), s2, [OfSubmitter(0, SendTask)]);
    RunOne(s0, OfSubmitter(0, TakeIndices), s1, [OfSubmitter(0, Decide), OfSubmitter(0, SendTask)]);
  }

  lemma ReceiveOneIsPlain(x: Input)
    ensures forall k :: 0 <= k < |ReceiveOne(x)| ==> Plain(ReceiveOne(x)[k])
  {
  }

  /** The hive then has one task queued, and index 0 has not ended; once the task is transferred, it is
      active, and that has not ended it either. */
  lemma HoldingReads(s: State, cfg: Config, task: Task) returns (s1: State)
    requires Stage(s, cfg, Serving, [Holding(task)], ISSUED) && NobodySubmits(s) && task.index == 0
    ensures Step(s, OfWorker(0, TransferTask)) == Some(s1)
    ensures QueuedOnly(s) && !PromiseKept(s)
    ensures Stage(s1, cfg, Serving, [Executing(task)], ISSUED) && Active(s1) == 1
  {
    s1 := MoveOn(s, 0, TransferTask, cfg, Serving, [Holding(task)], Executing(task), ISSUED, ISSUED);
    assert [Holding(task)][0 := Executing(task)] == [Executing(task)];
    QuietTotals(s1, cfg, Serving, [Executing(task)], ISSUED);
    HoldingCounts(s, cfg, task);
    LiveNow(s, task);
  }

  lemma HoldingCounts(s: State, cfg: Config, task: Task)
    requires Stage(s, cfg, Serving, [Holding(task)], ISSUED) && NobodySubmits(s)
    ensures s.num.Read() == (1, 0)
  {
    Theorems.ExactCounterLaw(s);
    StageTotals(s, cfg, Serving, [Holding(task)], ISSUED);
    assert [Holding(task)][1..] == [];
  }

  lemma LiveNow(s: State, task: Task)
    requires Reachable(s) && s.workers == [Holding(task)] && s.queues.next == 1 && task.index == 0 && !s.flags.suspended
    ensures !PromiseKept(s)
  {
    Theorems.EveryIndexInOnePlace(s, 0);
    Ledger.CountsAreNatural(s, 0);
    assert s.workers[0] in s.workers;
    assert Live(s, 0) >= 1;
  }

  // ------------------------------------------------------------------------------------------
  // The look in between
  // ------------------------------------------------------------------------------------------

  /** A joiner's look at that hive: it reads the poison flag and the counter; then the worker starts the
      task and another thread suspends the hive; then it reads the suspension flag. */
  function SlowLook(): seq<JointAction> {
    [JoinerLooks(0), JoinerLooks(0), HiveAct(OfWorker(0, TransferTask)), HiveAct(OfControl(Suspend)), JoinerLooks(0)]
  }

  /** `join` returns while the task is being executed: in a run of one worker and any one input, in a
      hive that stays in service, a joiner comes to the gate, looks and returns - and from the moment it
      came to the moment it is gone the promise of `join` is never kept. */
  lemma JoinReturnsTooEarly(cfg: Config, x: Input) returns (prefix: seq<JointAction>, before: Joint, j: Joint)
    ensures JointRun(InitJoint(cfg, 1), prefix) == Some(before) && before.gate.waiters == [Outside]
    ensures JointRun(before, SlowLook()) == Some(j) && Service.InService(j.hive)
    ensures |j.gate.waiters| == 1 && j.gate.waiters[0].Returned?
    ensures j.hive.workers == [Executing(TheTask(x, 0))]
    ensures forall k :: 0 <= k <= |SlowLook()| ==> !PromiseKept(Before(before, SlowLook(), k).hive)
  {
    var s := OneReceived(cfg, x);
    var s1 := HoldingReads(s, cfg, TheTask(x, 0));
    var t;
    prefix := Lifted(ReceiveOne(x)) + [Join(AddWaiter)];
    before, t := JoinerArrives(cfg, x, s);
    j := LooksSlowly(before, s, s1, t);
  }

  lemma JoinerArrives(cfg: Config, x: Input, s: State) returns (before: Joint, t: nat)
    requires Run(Init(cfg, 1), ReceiveOne(x)) == Some(s)
    ensures JointRun(InitJoint(cfg, 1), Lifted(ReceiveOne(x)) + [Join(AddWaiter)]) == Some(before)
    ensures before == OneJoiner(s, Outside, NotLooking, false, 1, t)
  {
    t := |ReceiveOne(x)| + 1;
    before := OneJoiner(s, Outside, NotLooking, false, 1, t);
    NobodyYet(cfg, x, s);
    JointRunConcat(InitJoint(cfg, 1), Lifted(ReceiveOne(x)), [Join(AddWaiter)]);
    Arrives(s, t - 1);
  }

  lemma NobodyYet(cfg: Config, x: Input, s: State)
    requires Run(Init(cfg, 1), ReceiveOne(x)) == Some(s)
    ensures JointRun(InitJoint(cfg, 1), Lifted(ReceiveOne(x))) == Some(NoJoiner(s, 1, |ReceiveOne(x)|))
  {
    ReceiveOneIsPlain(x);
    LiftedRun(InitJoint(cfg, 1), ReceiveOne(x), s);
  }

  lemma Arrives(s: State, t: nat)
    ensures JointRun(NoJoiner(s, 1, t), [Join(AddWaiter)]) == Some(OneJoiner(s, Outside, NotLooking, false, 1, t + 1))
  {
    assert [] + [Outside] == [Outside] && [] + [NotLooking] == [NotLooking];
    OneStep(NoJoiner(s, 1, t), Join(AddWaiter), OneJoiner(s, Outside, NotLooking, false, 1, t + 1), []);
    assert [Join(AddWaiter)] + [] == [Join(AddWaiter)];
  }

  /** A run given by its states. */
  lemma {:induction false} ChainRuns(ks: seq<Joint>, acts: seq<JointAction>)
    requires |ks| == |acts| + 1 && forall k :: 0 <= k < |acts| ==> JointStep(ks[k], acts[k]) == Some(ks[k + 1])
    ensures JointRun(ks[0], acts) == Some(ks[|acts|])
    decreases |acts|
  {
    if acts != [] {
      ChainTail(ks, acts);
      ChainRuns(ks[1..], acts[1..]);
      FirstStep(ks[0], acts, ks[1], ks[|acts|]);
    }
  }

  lemma FirstStep(j: Joint, acts: seq<JointAction>, j1: Joint, j': Joint)
    requires acts != [] && JointStep(j, acts[0]) == Some(j1) && JointRun(j1, acts[1..]) == Some(j')
    ensures JointRun(j, acts) == Some(j')
  {
  }

  lemma ChainTail(ks: seq<Joint>, acts: seq<JointAction>)
    requires |ks| == |acts| + 1 && forall k :: 0 <= k < |acts| ==> JointStep(ks[k], acts[k]) == Some(ks[k + 1])
    requires acts != []
    ensures forall k :: 0 <= k < |acts[1..]| ==> JointStep(ks[1..][k], acts[1..][k]) == Some(ks[1..][k + 1])
  {
  }

  lemma {:induction false} ChainStates(ks: seq<Joint>, acts: seq<JointAction>, k: nat)
    requires |ks| == |acts| + 1 && forall k :: 0 <= k < |acts| ==> JointStep(ks[k], acts[k]) == Some(ks[k + 1])
    requires k <= |acts| && JointRun(ks[0], acts).Some?
    ensures Before(ks[0], acts, k) == ks[k]
  {
    if k > 0 {
      ChainStates(ks, acts, k - 1);
      StepBetween(ks[0], acts, k - 1);
    }
  }

  /** The states of the slow look. */
  function SlowStates(s: State, s1: State, t: nat): seq<Joint> {
    var s2 := s1.(flags := s1.flags.(suspended := true));
    [OneJoiner(s, Outside, NotLooking, false, 1, t),
     OneJoiner(s, Outside, PastPoison, false, 1, t + 1),
     OneJoiner(s, Outside, PastCounter(1, t + 1), false, 1, t + 2),
     OneJoiner(s1, Outside, PastCounter(1, t + 1), false, 1, t + 3),
     OneJoiner(s2, Outside, PastCounter(1, t + 1), false, 1, t + 4),
     OneJoiner(s2, Waiter.Returned(0, FalseOnEntry), NotLooking, false, 1, t + 5)]
  }

  lemma SlowReads(s: State, t: nat)
    requires QueuedOnly(s)
    ensures JointStep(OneJoiner(s, Outside, NotLooking, false, 1, t), JoinerLooks(0)) ==
              Some(OneJoiner(s, Outside, PastPoison, false, 1, t + 1))
    ensures JointStep(OneJoiner(s, Outside, PastPoison, false, 1, t + 1), JoinerLooks(0)) ==
              Some(OneJoiner(s, Outside, PastCounter(1, t + 1), false, 1, t + 2))
  {
    assert [NotLooking][0 := PastPoison] == [PastPoison];
    assert [PastPoison][0 := PastCounter(1, t + 1)] == [PastCounter(1, t + 1)];
  }

  lemma SlowEnd(s: State, look: Look, t: nat)
    requires s.flags.suspended && look.PastCounter?
    ensures JointStep(OneJoiner(s, Outside, look, false, 1, t), JoinerLooks(0)) ==
              Some(OneJoiner(s, Waiter.Returned(0, FalseOnEntry), NotLooking, false, 1, t + 1))
  {
    assert [look][0 := NotLooking] == [NotLooking];
    assert [Outside][0 := Waiter.Returned(0, FalseOnEntry)] == [Waiter.Returned(0, FalseOnEntry)];
  }

  lemma SlowActions(s: State, s1: State, look: Look, t: nat)
    requires Step(s, OfWorker(0, TransferTask)) == Some(s1) && !s1.flags.aborted
    ensures JointStep(OneJoiner(s, Outside, look, false, 1, t), HiveAct(OfWorker(0, TransferTask))) ==
              Some(OneJoiner(s1, Outside, look, false, 1, t + 1))
    ensures var s2 := s1.(flags := s1.flags.(suspended := true));
            JointStep(OneJoiner(s1, Outside, look, false, 1, t + 1), HiveAct(OfControl(Suspend))) ==
              Some(OneJoiner(s2, Outside, look, false, 1, t + 2))
  {
    PlainStep(OneJoiner(s, Outside, look, false, 1, t), OfWorker(0, TransferTask), s1);
    PlainStep(OneJoiner(s1, Outside, look, false, 1, t + 1), OfControl(Suspend),
              s1.(flags := s1.flags.(suspended := true)));
  }

  lemma SlowChain(s: State, s1: State, t: nat)
    requires QueuedOnly(s) && Step(s, OfWorker(0, TransferTask)) == Some(s1) && !s1.flags.aborted
    ensures var ks := SlowStates(s, s1, t);
            forall k :: 0 <= k < 5 ==> JointStep(ks[k], SlowLook()[k]) == Some(ks[k + 1])
  {
    SlowReads(s, t);
    SlowActions(s, s1, PastCounter(1, t + 1), t + 2);
    SlowEnd(s1.(flags := s1.flags.(suspended := true)), PastCounter(1, t + 1), t + 4);
  }

  /** Suspending does not end a task. */
  lemma StillActive(s1: State)
    requires Active(s1) == 1
    ensures !PromiseKept(s1) && !PromiseKept(s1.(flags := s1.flags.(suspended := true)))
  {
    assert Active(s1.(flags := s1.flags.(suspended := true))) == Active(s1);
  }

  lemma LooksSlowly(before: Joint, s: State, s1: State, t: nat) returns (j: Joint)
    requires before == OneJoiner(s, Outside, NotLooking, false, 1, t)
    requires QueuedOnly(s) && !PromiseKept(s) && Step(s, OfWorker(0, TransferTask)) == Some(s1) && !s1.flags.aborted
    requires Active(s1) == 1
    ensures JointRun(before, SlowLook()) == Some(j)
    ensures j == OneJoiner(s1.(flags := s1.flags.(suspended := true)), Waiter.Returned(0, FalseOnEntry), NotLooking,
                           false, 1, t + 5)
    ensures forall k :: 0 <= k <= |SlowLook()| ==> !PromiseKept(Before(before, SlowLook(), k).hive)
  {
    var ks := SlowStates(s, s1, t);
    SlowChain(s, s1, t);
    ChainRuns(ks, SlowLook());
    j := ks[5];
    NeverKept(before, s, s1, t, ks);
  }

  lemma NeverKept(before: Joint, s: State, s1: State, t: nat, ks: seq<Joint>)
    requires ks == SlowStates(s, s1, t) && before == ks[0] && !PromiseKept(s) && Active(s1) == 1
    requires |ks| == 6 && forall k :: 0 <= k < 5 ==> JointStep(ks[k], SlowLook()[k]) == Some(ks[k + 1])
    requires JointRun(before, SlowLook()).Some?
    ensures forall k :: 0 <= k <= |SlowLook()| ==> !PromiseKept(Before(before, SlowLook(), k).hive)
  {
    StillActive(s1);
    forall k | 0 <= k <= |SlowLook()|
      ensures !PromiseKept(Before(before, SlowLook(), k).hive)
    {
      ChainStates(ks, SlowLook(), k);
    }
  }
}
