/** Runs that show where the hive does less than it promises, and exactly when.

    A stage describes a reachable hive in which only the named workers and queues matter; each lemma
    moves it on by one action. */
module Scenarios {
  import opened Wrappers
  import opened Tasks
  import opened Sums
  import opened Protocol
  import opened CounterLaw
  import Backoff
  import Counter
  import Theorems

  /** Whether the hive takes tasks, has lost its last task sender, or was poisoned. */
  datatype Door = Serving | Senderless | Poisoned

  ghost predicate Stage(s: State, cfg: Config, door: Door, workers: seq<Worker>, q: Queues) {
    && Reachable(s) && Orderly(s) && s.cfg == cfg && s.workers == workers && s.queues == q
    && !s.flags.suspended && !s.flags.aborted
    && s.flags.poisoned == door.Poisoned? && s.flags.connected == !door.Senderless?
    && s.drainer == (if door.Poisoned? then DrainingChannel(None) else Resting)
    && s.hist.drained == 0 && s.hist.leaked == 0
  }

  ghost predicate NobodySubmits(s: State) {
    forall u :: 0 <= u < |s.subs| ==> Idle(s.subs[u])
  }

  lemma {:induction false} RunAppend(s: State, actions: seq<Action>, t: State, a: Action, t': State)
    requires Run(s, actions) == Some(t) && Step(t, a) == Some(t')
    ensures Run(s, actions + [a]) == Some(t')
    decreases |actions|
  {
    if actions == [] {
      assert actions + [a] == [a] && [a][1..] == [];
    } else {
      assert (actions + [a])[1..] == actions[1..] + [a];
      RunAppend(Step(s, actions[0]).value, actions[1..], t, a, t');
    }
  }

  lemma StaysReachable(s: State, a: Action, s': State)
    requires Reachable(s) && Step(s, a) == Some(s')
    ensures Reachable(s')
  {
    var cfg, n, actions :| Run(Init(cfg, n), actions) == Some(s);
    RunAppend(Init(cfg, n), actions, s, a, s');
  }

  // ------------------------------------------------------------------------------------------
  // Stages move on
  // ------------------------------------------------------------------------------------------

  /** What an action of worker w that makes no failing counter call leaves behind. */
  ghost predicate Moves(s: State, w: nat, a: WorkerAction, x: Worker, q: Queues) {
    var t := Effect(s, OfWorker(w, a), Fine);
    && w < |s.workers| && t.Some?
    && t.value.workers == s.workers[w := x] && t.value.queues == q
    && t.value.cfg == s.cfg && t.value.flags == s.flags && t.value.subs == s.subs && t.value.drainer == s.drainer
    && t.value.hist.drained == s.hist.drained && t.value.hist.leaked == s.hist.leaked
    && t.value.hist.overflowed == s.hist.overflowed && t.value.hist.unmatched == s.hist.unmatched
  }

  lemma MoveOn(s: State, w: nat, a: WorkerAction, cfg: Config, door: Door, workers: seq<Worker>, x: Worker,
               q: Queues, q': Queues)
    returns (s': State)
    requires Stage(s, cfg, door, workers, q) && Moves(s, w, a, x, q')
    requires CallOf(OfWorker(w, a)).None? || MovesActive(OfWorker(w, a))
    ensures Step(s, OfWorker(w, a)) == Some(s') && s'.subs == s.subs
    ensures Stage(s', cfg, door, workers[w := x], q') && s'.flags == s.flags
  {
    if MovesActive(OfWorker(w, a)) {
      Theorems.ReachableInvariant(s);
      ActiveCallsSucceed(s, OfWorker(w, a));
    }
    s' := Step(s, OfWorker(w, a)).value;
    StaysReachable(s, OfWorker(w, a), s');
  }

  // ------------------------------------------------------------------------------------------
  // A clean exit
  // ------------------------------------------------------------------------------------------

  lemma ExitCounts(s: State, w: nat, s': State)
    requires Step(s, OfWorker(w, ExitFinish)) == Some(s')
    ensures s'.num == s.num.After(Counter.DecrementRight(1)) && s'.num.bits == s.num.bits
    ensures ReplyTo(s.num, CallOf(OfWorker(w, ExitFinish))).Fine? <==> !s.num.Fails(Counter.DecrementRight(1))
    ensures w < |s.workers| && s.workers[w].Exiting? && s'.queues == s.queues && s'.flags == s.flags
    ensures s'.workers == s.workers[w := s'.workers[w]]
  {
  }

  lemma DecrementFrom(num: Counter.Cell, t: Counter.Totals)
    requires num == Counter.PackedCell(num.bits, t) && Counter.InRange(num.bits, t)
    ensures var call := Counter.DecrementRight(1);
            (num.Fails(call) <==> t.right == 0) &&
            num.After(call).Read() == (t.left, if t.right == 0 then Counter.RMax(num.bits) else t.right - 1)
  {
    var call := Counter.DecrementRight(1);
    if t.right == 0 {
      Counter.UnderflowWraps(num.bits, t.left);
    } else {
      OneFits(num.bits);
      Counter.SucceedsIffInRange(num.bits, t, call);
      Counter.CallRefines(num.bits, t, call);
      Counter.PackedReads(num.bits, Counter.IdealCall(t, call));
    }
  }

  lemma OrderlyTotals(s: State)
    requires Reachable(s) && Orderly(s)
    ensures s.num == Counter.PackedCell(s.num.bits, Totals(s)) && Counter.InRange(s.num.bits, Totals(s))
    ensures s.num.bits == LEFT_BITS
  {
    Theorems.ReachableInvariant(s);
  }

  /** What a decrement of the active half does to a counter with these totals. */
  predicate DecrementSeen(num: Counter.Cell, queued: int, active: int) {
    var call := Counter.DecrementRight(1);
    && active >= 0 && (num.Fails(call) <==> active == 0)
    && num.After(call).Read() == (queued, if active > 0 then active - 1 else MAX_WORKERS)
  }

  lemma DecrementReads(num: Counter.Cell, queued: int, active: int)
    requires num.bits == LEFT_BITS && Counter.InRange(num.bits, Counter.Totals(queued, active))
    requires num == Counter.PackedCell(num.bits, Counter.Totals(queued, active))
    ensures DecrementSeen(num, queued, active)
  {
    RightHalfHoldsWorkers(num.bits);
    DecrementFrom(num, Counter.Totals(queued, active));
  }

  lemma ExitReads(s: State)
    requires Reachable(s) && Orderly(s)
    ensures DecrementSeen(s.num, Queued(s), Active(s))
  {
    OrderlyTotals(s);
    DecrementReads(s.num, Queued(s), Active(s));
  }

  /** The first clean exit in an orderly run: the sentinel's decrement fails exactly if nothing is
      active, and then the counter claims 65535 active tasks; otherwise the counter reads one active
      task too few, so it reads (0, 0) if and only if one task was active and none was queued. */
  lemma CleanExitMiscounts(s: State, w: nat, s': State)
    requires Reachable(s) && Orderly(s) && Step(s, OfWorker(w, ExitFinish)) == Some(s')
    ensures ReplyTo(s.num, CallOf(OfWorker(w, ExitFinish))).Fine? <==> Active(s) > 0
    ensures s'.num.Read() == (Queued(s), if Active(s) > 0 then Active(s) - 1 else MAX_WORKERS)
    ensures s'.num.Read() == (0, 0) <==> Queued(s) == 0 && Active(s) == 1
  {
    ExitCounts(s, w, s');
    ExitReads(s);
  }

  /** A worker at the gate comes to look at the retry time. */
  lemma ToRetryCheck(s: State, w: nat, cfg: Config, door: Door, workers: seq<Worker>, q: Queues) returns (s': State)
    requires Stage(s, cfg, door, workers, q) && w < |workers| && workers[w] == AtGate && !door.Poisoned?
    ensures Stage(s', cfg, door, workers[w := CheckingRetry], q) && s'.subs == s.subs && s'.flags == s.flags
    ensures Run(s, [OfWorker(w, PassGate), OfWorker(w, CheckPoison)]) == Some(s')
  {
    var s1 := MoveOn(s, w, PassGate, cfg, door, workers, CheckingPoison, q, q);
    s' := MoveOn(s1, w, CheckPoison, cfg, door, workers[w := CheckingPoison], CheckingRetry, q, q);
    assert workers[w := CheckingPoison][w := CheckingRetry] == workers[w := CheckingRetry];
    RunAppend(s, [], s, OfWorker(w, PassGate), s1);
    RunAppend(s, [OfWorker(w, PassGate)], s1, OfWorker(w, CheckPoison), s');
  }

  /** What a stage counts. */
  lemma StageTotals(s: State, cfg: Config, door: Door, workers: seq<Worker>, q: Queues)
    requires Stage(s, cfg, door, workers, q) && NobodySubmits(s)
    ensures Queued(s) == |q.channel| + |q.retry| + Sum(workers, WorkerQueued)
    ensures Active(s) == Sum(workers, WorkerActive)
  {
    Theorems.ReachableInvariant(s);
    forall u | u in s.subs
      ensures SubmitterQueued(u) == 0
    {
      var k :| 0 <= k < |s.subs| && s.subs[k] == u;
    }
    SumOfNothing(s.subs, SubmitterQueued);
  }

  lemma QuietTotals(s: State, cfg: Config, door: Door, workers: seq<Worker>, q: Queues)
    requires Stage(s, cfg, door, workers, q) && NobodySubmits(s)
    requires forall x :: x in workers ==> WorkerQueued(x) == 0
    ensures Queued(s) == |q.channel| + |q.retry|
    ensures Active(s) == Sum(workers, WorkerActive)
  {
    StageTotals(s, cfg, door, workers, q);
    SumOfNothing(workers, WorkerQueued);
  }

  /** With no retry pending it goes on to the channel. */
  lemma ToReceive(s: State, w: nat, cfg: Config, door: Door, workers: seq<Worker>, q: Queues) returns (s': State)
    requires Stage(s, cfg, door, workers, q) && w < |workers| && workers[w] == AtGate && !door.Poisoned? && q.cached.None?
    ensures Stage(s', cfg, door, workers[w := Receiving], q) && s'.subs == s.subs && s'.flags == s.flags
    ensures Run(s, [OfWorker(w, PassGate), OfWorker(w, CheckPoison), OfWorker(w, CheckRetry)]) == Some(s')
  {
    var s1 := ToRetryCheck(s, w, cfg, door, workers, q);
    s' := MoveOn(s1, w, CheckRetry, cfg, door, workers[w := CheckingRetry], Receiving, q, q);
    assert workers[w := CheckingRetry][w := Receiving] == workers[w := Receiving];
    RunAppend(s, [OfWorker(w, PassGate), OfWorker(w, CheckPoison)], s1, OfWorker(w, CheckRetry), s');
  }

  const EMPTY: Queues := Queues(0, [], [], None, None)

  /** Without task senders a worker at the gate leaves its loop. */
  lemma ToExit(s: State, w: nat, cfg: Config, workers: seq<Worker>, q: Queues) returns (s': State)
    requires Stage(s, cfg, Senderless, workers, q) && w < |workers| && workers[w] == AtGate
    requires q.cached.None? && q.channel == []
    ensures Stage(s', cfg, Senderless, workers[w := Exiting], q) && s'.subs == s.subs
  {
    var s1 := ToReceive(s, w, cfg, Senderless, workers, q);
    s' := MoveOn(s1, w, ReceiveDisconnected, cfg, Senderless, workers[w := Receiving], Exiting, q, q);
    assert workers[w := Receiving][w := Exiting] == workers[w := Exiting];
  }

  lemma LoseSenders(s: State, cfg: Config, workers: seq<Worker>, q: Queues) returns (s': State)
    requires Stage(s, cfg, Serving, workers, q) && NobodySubmits(s)
    ensures Stage(s', cfg, Senderless, workers, q) && s'.subs == s.subs
  {
    s' := Step(s, OfControl(Disconnect)).value;
    StaysReachable(s, OfControl(Disconnect), s');
  }

  lemma FreshStage(cfg: Config, n: nat)
    requires n <= MAX_WORKERS
    ensures Stage(Init(cfg, n), cfg, Serving, Init(cfg, n).workers, EMPTY) && NobodySubmits(Init(cfg, n))
    ensures |Init(cfg, n).workers| == n && forall w :: 0 <= w < n ==> Init(cfg, n).workers[w] == AtGate
  {
    assert Run(Init(cfg, n), []) == Some(Init(cfg, n));
  }

  /** A hive with one idle worker and no task ever: the last sender goes, the worker leaves its loop,
      and the counter claims 65535 active tasks. */
  lemma IdleExitRuinsTheCounter(cfg: Config) returns (s: State)
    ensures Reachable(s) && s.queues.next == 0 && |s.workers| == 1
    ensures s.num.Read() == (0, MAX_WORKERS)
  {
    FreshStage(cfg, 1);
    assert Init(cfg, 1).workers == [AtGate];
    s := IdleExit(Init(cfg, 1), cfg);
  }

  lemma IdleExit(s: State, cfg: Config) returns (s': State)
    requires Stage(s, cfg, Serving, [AtGate], EMPTY) && NobodySubmits(s)
    ensures Reachable(s') && s'.queues.next == 0 && |s'.workers| == 1
    ensures s'.num.Read() == (0, MAX_WORKERS)
  {
    var s1 := LoseSenders(s, cfg, [AtGate], EMPTY);
    var s2 := ToExit(s1, 0, cfg, [AtGate], EMPTY);
    assert [AtGate][0 := Exiting] == [Exiting];
    IdleTotals(s2, cfg);
    s' := ExitOf(s2, 0);
  }

  lemma IdleTotals(s: State, cfg: Config)
    requires Stage(s, cfg, Senderless, [Exiting], EMPTY) && NobodySubmits(s)
    ensures Queued(s) == 0 && Active(s) == 0
  {
    QuietTotals(s, cfg, Senderless, [Exiting], EMPTY);
  }

  lemma ExitOf(s: State, w: nat) returns (s': State)
    requires Reachable(s) && Orderly(s) && w < |s.workers| && s.workers[w].Exiting? && !s.flags.aborted
    ensures Step(s, OfWorker(w, ExitFinish)) == Some(s') && Reachable(s')
    ensures s'.queues == s.queues && s'.flags == s.flags && s'.workers == s.workers[w := s'.workers[w]]
    ensures s'.num.Read() == (Queued(s), if Active(s) > 0 then Active(s) - 1 else MAX_WORKERS)
  {
    s' := Step(s, OfWorker(w, ExitFinish)).value;
    StaysReachable(s, OfWorker(w, ExitFinish), s');
    CleanExitMiscounts(s, w, s');
    ExitCounts(s, w, s');
  }

  // ------------------------------------------------------------------------------------------
  // One submitted task
  // ------------------------------------------------------------------------------------------

  /** A new hive with n workers in which a call is about to count its input. */
  function Calling(cfg: Config, n: nat, x: Input): State {
    Init(cfg, n).(subs := [Submitter(None, [x], [x], [], [], Undecided, [])])
  }

  /** And one in which it has counted it. */
  function Counting(cfg: Config, n: nat, x: Input): State {
    var s := Init(cfg, n);
    s.(num := s.num.After(Counter.IncrementLeft(1)), subs := [Submitter(None, [x], [], [x], [], Undecided, [])])
  }

  lemma CallingSteps(cfg: Config, n: nat, x: Input)
    ensures Step(Init(cfg, n), OfControl(NewSubmitter)) == Some(Init(cfg, n).(subs := [NO_CALL]))
    ensures Step(Init(cfg, n).(subs := [NO_CALL]), OfSubmitter(0, Submit(None, [x]))) == Some(Calling(cfg, n, x))
  {
    var s := Init(cfg, n);
    assert s.subs + [NO_CALL] == [NO_CALL];
    var call := Submitter(None, [x], [x], [], [], Undecided, []);
    assert [NO_CALL][0 := call] == [call];
  }

  lemma CallingStage(cfg: Config, n: nat, x: Input)
    requires n <= MAX_WORKERS
    ensures Stage(Calling(cfg, n, x), cfg, Serving, Init(cfg, n).workers, EMPTY)
  {
    FreshStage(cfg, n);
    CallingSteps(cfg, n, x);
    StaysReachable(Init(cfg, n), OfControl(NewSubmitter), Init(cfg, n).(subs := [NO_CALL]));
    StaysReachable(Init(cfg, n).(subs := [NO_CALL]), OfSubmitter(0, Submit(None, [x])), Calling(cfg, n, x));
  }

  /** The totals of a new hive with one call. */
  lemma OneCallTotals(s: State)
    requires (forall x :: x in s.workers ==> x == AtGate) && |s.subs| == 1 && s.queues == EMPTY && s.drainer.Resting?
    requires s.hist == Init(s.cfg, 0).hist
    ensures Totals(s) == Counter.Totals(SubmitterQueued(s.subs[0]), 0)
  {
    SumOfNothing(s.workers, WorkerQueued);
    SumOfNothing(s.workers, WorkerActive);
    assert Sum(s.subs[1..], SubmitterQueued) == 0;
  }

  lemma CountingStep(cfg: Config, n: nat, x: Input)
    requires !Calling(cfg, n, x).num.Fails(Counter.IncrementLeft(1))
    ensures Step(Calling(cfg, n, x), OfSubmitter(0, CountInputs(1, false))) == Some(Counting(cfg, n, x))
  {
    assert [x][..1] == [x] && [x][1..] == [];
    var sub := Calling(cfg, n, x).subs[0];
    var counted := Submitter(None, [x], [], [x], [], Undecided, []);
    assert sub.(counted := [x], later := [], mode := Undecided) == counted;
    assert Calling(cfg, n, x).subs[0 := counted] == [counted];
  }

  /** The call counts its input, and the counter reads (1, 0). */
  lemma CountingStage(cfg: Config, n: nat, x: Input)
    requires n <= MAX_WORKERS
    ensures Step(Calling(cfg, n, x), OfSubmitter(0, CountInputs(1, false))) == Some(Counting(cfg, n, x))
    ensures Stage(Counting(cfg, n, x), cfg, Serving, Init(cfg, n).workers, EMPTY)
    ensures Counting(cfg, n, x).num.Read() == (1, 0)
  {
    var s, t := Calling(cfg, n, x), Counting(cfg, n, x);
    CallingStage(cfg, n, x);
    OneCallTotals(s);
    OneMoreFits(s);
    CountingStep(cfg, n, x);
    StaysReachable(s, OfSubmitter(0, CountInputs(1, false)), t);
    OneCallTotals(t);
    Theorems.ExactCounterLaw(t);
  }

  lemma OneMoreFits(s: State)
    requires Reachable(s) && Orderly(s) && Queued(s) == 0
    ensures !s.num.Fails(Counter.IncrementLeft(1))
  {
    OneFits(s.num.bits);
    Theorems.IncrementFailsIffFull(s, OfSubmitter(0, CountInputs(1, false)));
  }

  function TheTask(x: Input, attempt: nat): Task {
    Task(x, 0, attempt, None)
  }

  /** The queues of a hive that has issued one index. */
  const ISSUED: Queues := Queues(1, [], [], None, None)

  ghost predicate Submitting(s: State, cfg: Config, workers: seq<Worker>, q: Queues, sub: Submitter) {
    Stage(s, cfg, Serving, workers, q) && s.subs == [sub]
  }

  lemma IndexTaken(s: State, cfg: Config, workers: seq<Worker>, x: Input) returns (s': State)
    requires Submitting(s, cfg, workers, EMPTY, Submitter(None, [x], [], [x], [], Undecided, []))
    ensures Submitting(s', cfg, workers, ISSUED, Submitter(None, [x], [], [], [TheTask(x, 0)], Undecided, [0]))
    ensures Step(s, OfSubmitter(0, TakeIndices)) == Some(s')
  {
    s' := Step(s, OfSubmitter(0, TakeIndices)).value;
    StaysReachable(s, OfSubmitter(0, TakeIndices), s');
    assert [] + NewTasks(0, [x], None) == [TheTask(x, 0)];
    assert [] + IndicesFrom(0, 1) == [0];
  }

  lemma SendingDecided(s: State, cfg: Config, workers: seq<Worker>, x: Input) returns (s': State)
    requires Submitting(s, cfg, workers, ISSUED, Submitter(None, [x], [], [], [TheTask(x, 0)], Undecided, [0]))
    ensures Submitting(s', cfg, workers, ISSUED, Submitter(None, [x], [], [], [TheTask(x, 0)], Sending, [0]))
    ensures Step(s, OfSubmitter(0, Decide)) == Some(s')
  {
    s' := Step(s, OfSubmitter(0, Decide)).value;
    StaysReachable(s, OfSubmitter(0, Decide), s');
  }

  lemma TaskSent(s: State, cfg: Config, workers: seq<Worker>, x: Input) returns (s': State)
    requires Submitting(s, cfg, workers, ISSUED, Submitter(None, [x], [], [], [TheTask(x, 0)], Sending, [0]))
    ensures Stage(s', cfg, Serving, workers, ISSUED.(channel := [TheTask(x, 0)])) && NobodySubmits(s')
    ensures Step(s, OfSubmitter(0, SendTask)) == Some(s')
  {
    s' := Step(s, OfSubmitter(0, SendTask)).value;
    StaysReachable(s, OfSubmitter(0, SendTask), s');
    assert [] + [TheTask(x, 0)] == [TheTask(x, 0)];
    assert [TheTask(x, 0)][1..] == [];
  }

  /** A worker takes the task from the channel. */
  lemma TaskReceived(s: State, cfg: Config, workers: seq<Worker>, x: Input) returns (s': State)
    requires Stage(s, cfg, Serving, workers, ISSUED.(channel := [TheTask(x, 0)])) && |workers| > 0 && workers[0] == AtGate
    ensures Stage(s', cfg, Serving, workers[0 := Holding(TheTask(x, 0))], ISSUED) && s'.subs == s.subs
    ensures Run(s, TakeTask()) == Some(s')
  {
    var task := TheTask(x, 0);
    var s1 := ToReceive(s, 0, cfg, Serving, workers, ISSUED.(channel := [task]));
    assert [task][1..] == [];
    s' := MoveOn(s1, 0, Receive, cfg, Serving, workers[0 := Receiving], Holding(task),
                 ISSUED.(channel := [task]), ISSUED);
    assert workers[0 := Receiving][0 := Holding(task)] == workers[0 := Holding(task)];
    var three := [OfWorker(0, PassGate), OfWorker(0, CheckPoison), OfWorker(0, CheckRetry)];
    RunAppend(s, three, s1, OfWorker(0, Receive), s');
    assert three + [OfWorker(0, Receive)] == TakeTask();
  }

  function TakeTask(): seq<Action> {
    [OfWorker(0, PassGate), OfWorker(0, CheckPoison), OfWorker(0, CheckRetry), OfWorker(0, Receive)]
  }

  /** And starts it. */
  lemma TaskTaken(s: State, cfg: Config, workers: seq<Worker>, x: Input) returns (s': State)
    requires Stage(s, cfg, Serving, workers, ISSUED.(channel := [TheTask(x, 0)])) && |workers| > 0 && workers[0] == AtGate
    ensures Stage(s', cfg, Serving, workers[0 := Executing(TheTask(x, 0))], ISSUED) && s'.subs == s.subs
  {
    var task := TheTask(x, 0);
    var s1 := TaskReceived(s, cfg, workers, x);
    s' := TaskStarted(s1, cfg, workers[0 := Holding(task)], task);
    assert workers[0 := Holding(task)][0 := Executing(task)] == workers[0 := Executing(task)];
  }

  lemma TaskStarted(s: State, cfg: Config, workers: seq<Worker>, task: Task) returns (s': State)
    requires Stage(s, cfg, Serving, workers, ISSUED) && |workers| > 0 && workers[0] == Holding(task)
    ensures Stage(s', cfg, Serving, workers[0 := Executing(task)], ISSUED) && s'.subs == s.subs
  {
    s' := MoveOn(s, 0, TransferTask, cfg, Serving, workers, Executing(task), ISSUED, ISSUED);
  }

  /** A hive in which worker 0 executes the only task and the other workers are at the gate. */
  lemma OneTaskExecuting(cfg: Config, n: nat, x: Input) returns (s: State)
    requires 1 <= n <= MAX_WORKERS
    ensures Stage(s, cfg, Serving, Init(cfg, n).workers[0 := Executing(TheTask(x, 0))], ISSUED) && NobodySubmits(s)
  {
    var workers := Init(cfg, n).workers;
    CountingStage(cfg, n, x);
    var s1 := IndexTaken(Counting(cfg, n, x), cfg, workers, x);
    var s2 := SendingDecided(s1, cfg, workers, x);
    var s3 := TaskSent(s2, cfg, workers, x);
    s := TaskTaken(s3, cfg, workers, x);
  }

  /** Two workers, one task: while worker 0 executes it the last handle is dropped, which poisons the
      hive, and worker 1 leaves its loop. The counter then reads (0, 0) although the task has not
      ended. So the counter can be trusted only as long as a handle lives. */
  lemma CleanExitHidesATask(cfg: Config, x: Input) returns (s: State)
    ensures Reachable(s) && s.flags.poisoned && s.num.Read() == (0, 0)
    ensures s.queues.next == 1 && |s.workers| == 2 && s.workers[0] == Executing(TheTask(x, 0))
  {
    var task := TheTask(x, 0);
    var s0 := OneTaskExecuting(cfg, 2, x);
    assert Init(cfg, 2).workers[0 := Executing(task)] == [Executing(task), AtGate];
    var s1 := LastHandleDropped(s0, cfg, [Executing(task), AtGate], ISSUED);
    s := SecondExits(s1, cfg, task);
  }

  lemma LastHandleDropped(s: State, cfg: Config, workers: seq<Worker>, q: Queues) returns (s': State)
    requires Stage(s, cfg, Serving, workers, q) && NobodySubmits(s)
    ensures Stage(s', cfg, Poisoned, workers, q) && NobodySubmits(s')
  {
    s' := Step(s, OfControl(Poison)).value;
    StaysReachable(s, OfControl(Poison), s');
  }

  lemma SecondExits(s: State, cfg: Config, task: Task) returns (s': State)
    requires Stage(s, cfg, Poisoned, [Executing(task), AtGate], ISSUED) && NobodySubmits(s)
    ensures Reachable(s') && s'.flags.poisoned && s'.num.Read() == (0, 0)
    ensures s'.queues == s.queues && |s'.workers| == 2 && s'.workers[0] == Executing(task)
  {
    var workers := [Executing(task), AtGate];
    var s1 := MoveOn(s, 1, PassGate, cfg, Poisoned, workers, CheckingPoison, ISSUED, ISSUED);
    assert workers[1 := CheckingPoison] == [Executing(task), CheckingPoison];
    var s2 := MoveOn(s1, 1, CheckPoison, cfg, Poisoned, [Executing(task), CheckingPoison], Exiting, ISSUED, ISSUED);
    assert [Executing(task), CheckingPoison][1 := Exiting] == [Executing(task), Exiting];
    TwoWorkers(s2, cfg, task, [Executing(task), Exiting]);
    s' := ExitOf(s2, 1);
  }

  lemma TwoWorkers(s: State, cfg: Config, task: Task, workers: seq<Worker>)
    requires Stage(s, cfg, Poisoned, workers, ISSUED) && NobodySubmits(s) && workers == [Executing(task), Exiting]
    ensures Queued(s) == 0 && Active(s) == 1
  {
    QuietTotals(s, cfg, Poisoned, workers, ISSUED);
    assert workers[1..] == [Exiting] && workers[1..][1..] == [];
    assert Sum(workers[1..], WorkerActive) == 0;
  }

  // ------------------------------------------------------------------------------------------
  // A task that is retried again and again
  // ------------------------------------------------------------------------------------------

  /** One worker, executing the only task for the given attempt. */
  ghost predicate Attempting(s: State, cfg: Config, x: Input, attempt: nat) {
    Stage(s, cfg, Serving, [Executing(TheTask(x, attempt))], ISSUED) && NobodySubmits(s)
  }

  /** `apply` asks for a retry that is allowed and whose delay can be computed. */
  lemma AsksForRetry(s: State, cfg: Config, x: Input, e: Error, k: nat, delay: nat) returns (s': State)
    requires Attempting(s, cfg, x, k) && CanRetry(cfg, k) && Backoff.Delay(cfg.retryFactor, k + 1) == Some(delay)
    ensures Stage(s', cfg, Serving, [Requeueing(TheTask(x, k + 1), delay)], ISSUED) && NobodySubmits(s')
  {
    s' := MoveOn(s, 0, ApplyReturns(Retryable(x, e)), cfg, Serving, [Executing(TheTask(x, k))],
               Requeueing(TheTask(x, k + 1), delay), ISSUED, ISSUED);
    assert [Executing(TheTask(x, k))][0 := Requeueing(TheTask(x, k + 1), delay)] ==
           [Requeueing(TheTask(x, k + 1), delay)];
  }

  lemma CountsRetry(s: State, cfg: Config, task: Task, delay: nat) returns (s': State)
    requires Stage(s, cfg, Serving, [Requeueing(task, delay)], ISSUED) && NobodySubmits(s)
    ensures Stage(s', cfg, Serving, [RetryCounted(task, delay)], ISSUED.(owner := Some(WorkerOwner(0))))
    ensures NobodySubmits(s')
  {
    QuietTotals(s, cfg, Serving, [Requeueing(task, delay)], ISSUED);
    OneMoreFits(s);
    var a := OfWorker(0, CountRetry);
    s' := Step(s, a).value;
    StaysReachable(s, a, s');
    assert [Requeueing(task, delay)][0 := RetryCounted(task, delay)] == [RetryCounted(task, delay)];
  }

  /** The task is pushed and its time published, and the lock is free again. */
  lemma PushesRetry(s: State, cfg: Config, task: Task, delay: nat) returns (s': State)
    requires Stage(s, cfg, Serving, [RetryCounted(task, delay)], ISSUED.(owner := Some(WorkerOwner(0))))
    requires NobodySubmits(s)
    ensures var until := s.flags.now + delay;
            Stage(s', cfg, Serving, [Delivered], ISSUED.(retry := [Delayed(task, until)], cached := Some(until))) &&
            NobodySubmits(s')
  {
    var until := s.flags.now + delay;
    var q := ISSUED.(owner := Some(WorkerOwner(0)));
    var q1 := q.(retry := [Delayed(task, until)]);
    assert [] + [Delayed(task, until)] == [Delayed(task, until)];
    var s1 := MoveOn(s, 0, PushRetry, cfg, Serving, [RetryCounted(task, delay)], RetryPushed(until), q, q1);
    assert [RetryCounted(task, delay)][0 := RetryPushed(until)] == [RetryPushed(until)];
    s' := PublishesRetry(s1, cfg, Delayed(task, until));
  }

  lemma PublishesRetry(s: State, cfg: Config, d: Delayed) returns (s': State)
    requires Stage(s, cfg, Serving, [RetryPushed(d.until)], ISSUED.(retry := [d], owner := Some(WorkerOwner(0))))
    requires NobodySubmits(s)
    ensures Stage(s', cfg, Serving, [Delivered], ISSUED.(retry := [d], cached := Some(d.until))) && NobodySubmits(s')
  {
    s' := MoveOn(s, 0, PublishRetry, cfg, Serving, [RetryPushed(d.until)], Delivered,
               ISSUED.(retry := [d], owner := Some(WorkerOwner(0))), ISSUED.(retry := [d], cached := Some(d.until)));
    assert [RetryPushed(d.until)][0 := Delivered] == [Delivered];
  }

  lemma FinishesToGate(s: State, cfg: Config, q: Queues) returns (s': State)
    requires Stage(s, cfg, Serving, [Delivered], q) && NobodySubmits(s)
    ensures Stage(s', cfg, Serving, [AtGate], q) && NobodySubmits(s')
  {
    var s1 := MoveOn(s, 0, FinishTask, cfg, Serving, [Delivered], Notifying(Loop), q, q);
    assert [Delivered][0 := Notifying(Loop)] == [Notifying(Loop)];
    s' := MoveOn(s1, 0, NotifyDone, cfg, Serving, [Notifying(Loop)], AtGate, q, q);
    assert [Notifying(Loop)][0 := AtGate] == [AtGate];
  }

  lemma {:induction false} TimePasses(s: State, cfg: Config, workers: seq<Worker>, q: Queues, time: nat)
    returns (s': State)
    requires Stage(s, cfg, Serving, workers, q) && NobodySubmits(s)
    ensures Stage(s', cfg, Serving, workers, q) && NobodySubmits(s') && time <= s'.flags.now
    decreases time - s.flags.now
  {
    s' := s;
    if s.flags.now < time {
      var s1 := Step(s, OfControl(Tick)).value;
      StaysReachable(s, OfControl(Tick), s1);
      s' := TimePasses(s1, cfg, workers, q, time);
    }
  }

  /** The worker finds the retry due and pops it. */
  lemma PopsRetry(s: State, cfg: Config, d: Delayed) returns (s': State)
    requires Stage(s, cfg, Serving, [AtGate], ISSUED.(retry := [d], cached := Some(d.until))) && NobodySubmits(s)
    requires d.until <= s.flags.now
    ensures Stage(s', cfg, Serving, [Holding(d.task)], ISSUED) && NobodySubmits(s')
  {
    var q := ISSUED.(retry := [d], cached := Some(d.until));
    var s1 := ToRetryCheck(s, 0, cfg, Serving, [AtGate], q);
    assert [AtGate][0 := CheckingRetry] == [CheckingRetry];
    var s2 := MoveOn(s1, 0, CheckRetry, cfg, Serving, [CheckingRetry], LockingRetry, q, q);
    assert [CheckingRetry][0 := LockingRetry] == [LockingRetry];
    s' := Pops(s2, cfg, d);
  }

  lemma Pops(s: State, cfg: Config, d: Delayed) returns (s': State)
    requires Stage(s, cfg, Serving, [LockingRetry], ISSUED.(retry := [d], cached := Some(d.until))) && NobodySubmits(s)
    requires d.until <= s.flags.now
    ensures Stage(s', cfg, Serving, [Holding(d.task)], ISSUED) && NobodySubmits(s')
  {
    var q := ISSUED.(retry := [d], cached := Some(d.until));
    var q1 := ISSUED.(cached := Some(d.until), owner := Some(WorkerOwner(0)));
    assert WithoutAt([d], 0) == [];
    assert Earliest([d]) == Some(d.until);
    var s1 := MoveOn(s, 0, PopRetry(Some(0)), cfg, Serving, [LockingRetry], Popped(d.task), q, q1);
    assert [LockingRetry][0 := Popped(d.task)] == [Popped(d.task)];
    s' := MoveOn(s1, 0, UpdateAfterPop, cfg, Serving, [Popped(d.task)], Holding(d.task), q1, ISSUED);
    assert [Popped(d.task)][0 := Holding(d.task)] == [Holding(d.task)];
  }

  /** One round: the task goes through the retry queue and is executed for the next attempt. */
  lemma NextAttempt(s: State, cfg: Config, x: Input, e: Error, k: nat) returns (s': State)
    requires Attempting(s, cfg, x, k) && cfg.maxRetries.Some? && k < cfg.maxRetries.value
    requires cfg.retryFactor.None? || k < 64
    ensures Attempting(s', cfg, x, k + 1)
  {
    Backoff.DelayIsCappedExponential(cfg.retryFactor, k + 1);
    var delay := Backoff.Delay(cfg.retryFactor, k + 1).value;
    var s1 := AsksForRetry(s, cfg, x, e, k, delay);
    s' := RetryComesBack(s1, cfg, TheTask(x, k + 1), delay);
  }

  lemma RetryComesBack(s: State, cfg: Config, task: Task, delay: nat) returns (s': State)
    requires Stage(s, cfg, Serving, [Requeueing(task, delay)], ISSUED) && NobodySubmits(s)
    ensures Stage(s', cfg, Serving, [Executing(task)], ISSUED) && NobodySubmits(s')
  {
    var s2 := CountsRetry(s, cfg, task, delay);
    var s3 := PushesRetry(s2, cfg, task, delay);
    s' := TakesUpRetry(s3, cfg, Delayed(task, s2.flags.now + delay));
  }

  /** Back at the gate the worker waits until the task is due, and starts it. */
  lemma TakesUpRetry(s: State, cfg: Config, d: Delayed) returns (s': State)
    requires Stage(s, cfg, Serving, [Delivered], ISSUED.(retry := [d], cached := Some(d.until))) && NobodySubmits(s)
    ensures Stage(s', cfg, Serving, [Executing(d.task)], ISSUED) && NobodySubmits(s')
  {
    var q := ISSUED.(retry := [d], cached := Some(d.until));
    var s4 := FinishesToGate(s, cfg, q);
    var s5 := TimePasses(s4, cfg, [AtGate], q, d.until);
    var s6 := PopsRetry(s5, cfg, d);
    s' := TaskStarted(s6, cfg, [Holding(d.task)], d.task);
    assert [Holding(d.task)][0 := Executing(d.task)] == [Executing(d.task)];
  }

  /** A worker that always asks for a retry comes to every attempt that is allowed, unless the delay of
      attempt 65 stops it. */
  lemma {:induction false} AttemptReached(cfg: Config, x: Input, e: Error, k: nat) returns (s: State)
    requires k <= if cfg.maxRetries.Some? then cfg.maxRetries.value else 0
    requires cfg.retryFactor.None? || k <= 64
    ensures Attempting(s, cfg, x, k)
  {
    if k == 0 {
      s := OneTaskExecuting(cfg, 1, x);
      assert Init(cfg, 1).workers[0 := Executing(TheTask(x, 0))] == [Executing(TheTask(x, 0))];
    } else {
      var before := AttemptReached(cfg, x, e, k - 1);
      s := NextAttempt(before, cfg, x, e, k - 1);
    }
  }

  /** Some run of a hive so configured loses a task because computing its delay panics. */
  ghost predicate DelayLosesATask(cfg: Config) {
    exists s: State, w: nat, result :: Reachable(s) && s.cfg == cfg && LosesAt(s, w, result)
  }

  ghost predicate LosesAt(s: State, w: nat, result: ApplyResult) {
    var s' := Step(s, OfWorker(w, ApplyReturns(result)));
    s'.Some? && s'.value.hist.panicked != s.hist.panicked
  }

  lemma LosesAtIff(s: State, w: nat, result: ApplyResult)
    requires w < |s.workers| && s.workers[w].Executing? && !s.flags.aborted
    ensures LosesAt(s, w, result) <==> AfterApply(s.cfg, s.workers[w].task, result).1
  {
    var i := s.workers[w].task.index;
    assert (s.hist.panicked + multiset{i})[i] == s.hist.panicked[i] + 1;
    assert s.hist.panicked + multiset{} == s.hist.panicked;
  }

  lemma LosesOnlyExecuting(s: State, w: nat, result: ApplyResult)
    requires LosesAt(s, w, result)
    ensures w < |s.workers| && s.workers[w].Executing? && !s.flags.aborted
  {
  }

  /** A hive can lose a task by the `unwrap` in `queue_retry` if and only if it allows 65 retries or
      more and has a retry factor. */
  lemma DelayLosesATaskIff(cfg: Config, x: Input, e: Error)
    ensures DelayLosesATask(cfg) <==> cfg.maxRetries.Some? && cfg.maxRetries.value >= 65 && cfg.retryFactor.Some?
  {
    if cfg.maxRetries.Some? && cfg.maxRetries.value >= 65 && cfg.retryFactor.Some? {
      var s := AttemptReached(cfg, x, e, 64);
      Theorems.DelayPanicsIff(cfg, TheTask(x, 64), Retryable(x, e));
      LosesAtIff(s, 0, Retryable(x, e));
    }
    forall s: State, w: nat, result | s.cfg == cfg && LosesAt(s, w, result)
      ensures cfg.maxRetries.Some? && cfg.maxRetries.value >= 65 && cfg.retryFactor.Some?
    {
      LossNeeds65(s, w, result);
    }
  }

  lemma LossNeeds65(s: State, w: nat, result: ApplyResult)
    requires LosesAt(s, w, result)
    ensures s.cfg.maxRetries.Some? && s.cfg.maxRetries.value >= 65 && s.cfg.retryFactor.Some?
  {
    LosesOnlyExecuting(s, w, result);
    LosesAtIff(s, w, result);
    Theorems.DelayPanicsIff(s.cfg, s.workers[w].task, result);
  }
}
