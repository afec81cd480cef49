/** The hive together with its resume gate: workers at the head of `next_task` sleep on the `suspended`
    flag, and `set_suspended` notifies them (src/hive/shared.rs, src/hive/gate.rs). */
module ResumeGate {
  import opened Wrappers
  import opened Protocol
  import opened Gates

  /** The gate's condition is the flag, its waiters are the workers and its notifiers are the threads
      that call `set_suspended`. */
  datatype Gated = Gated(hive: State, gate: Gate)

  datatype GatedAction =
    | HiveAct(a: Action)                    // any action but the gate's and the flag's
    | SetFlag(n: nat, suspended: bool)      // thread n swaps the flag in `set_suspended`
    | Resumer(ga: GateAction)               // the rest of `set_suspended`
    | Worker(ga: GateAction)                // a step of a worker inside `wait_while`

  predicate InsideGate(x: Waiter) {
    !x.Outside? && !x.Returned?
  }

  predicate IsResumerStep(ga: GateAction) {
    ga.Announce? || ga.NotifyAll? || ga.AddNotifier?
  }

  predicate IsWaiterStep(ga: GateAction) {
    ga.Enter? || ga.LoadPhase? || ga.Lock? || ga.Check? || ga.Sleep? || ga.Wake? || ga.Leave?
  }

  /** The step in which a worker sees the flag unset; the machine of the hive calls it `PassGate`. */
  predicate SeesUnset(g: Gate, ga: GateAction) {
    (ga.Enter? || ga.Check?) && !g.cond
  }

  function GatedStep(j: Gated, act: GatedAction): Option<Gated> {
    match act
    case HiveAct(a) =>
      if a == OfControl(Suspend) || a == OfControl(Resume) || (a.OfWorker? && a.wa.PassGate?) ||
         (a.OfWorker? && a.w < |j.gate.waiters| && InsideGate(j.gate.waiters[a.w]))
      then None
      else
        (match Step(j.hive, a)
         case None => None
         case Some(h) =>
           Some(Gated(h, if a == OfControl(Grow) then j.gate.(waiters := j.gate.waiters + [Outside]) else j.gate)))
    case SetFlag(n, suspended) =>
      (match (Step(j.hive, OfControl(if suspended then Suspend else Resume)), ResumeStep(j.gate, Swap(n, suspended)))
       case (Some(h), Some(g)) => Some(Gated(h, g))
       case _ => None)
    case Resumer(ga) =>
      if !IsResumerStep(ga) then None
      else
        (match GateStep(j.gate, ga)
         case None => None
         case Some(g) => Some(j.(gate := g)))
    case Worker(ga) =>
      if !IsWaiterStep(ga) || ga.w >= |j.hive.workers| || (ga.Enter? && !j.hive.workers[ga.w].AtGate?) then None
      else
        (match GateStep(j.gate, ga)
         case None => None
         case Some(g) =>
           if !SeesUnset(j.gate, ga) then Some(j.(gate := g))
           else
             match Step(j.hive, OfWorker(ga.w, PassGate))
             case None => None
             case Some(h) => Some(Gated(h, g)))
  }

  function GatedRun(j: Gated, acts: seq<GatedAction>): Option<Gated>
    decreases |acts|
  {
    if acts == [] then Some(j)
    else
      match GatedStep(j, acts[0])
      case None => None
      case Some(j1) => GatedRun(j1, acts[1..])
  }

  function InitGated(cfg: Config, n: nat): Gated {
    Gated(Init(cfg, n), Gate(false, false, 0, None, seq(n, i => Outside), [], []))
  }

  // ------------------------------------------------------------------------------------------
  // What every run keeps
  // ------------------------------------------------------------------------------------------

  /** The flag and the condition are one, and a worker inside the gate is where the hive has it: at the
      gate, unless it has seen the flag unset and only has to give the mutex back. */
  ghost predicate Together(j: Gated) {
    && j.gate.cond == j.hive.flags.suspended && !j.gate.phased
    && |j.gate.waiters| == |j.hive.workers|
    && forall w :: 0 <= w < |j.gate.waiters| && InsideGate(j.gate.waiters[w]) && !j.gate.waiters[w].Leaving? ==>
         j.hive.workers[w].AtGate?
  }

  ghost predicate GatedInvariant(j: Gated) {
    GateInvariant(j.gate) && Together(j)
  }

  lemma WorkerMovesAlone(s: State, w: nat, a: WorkerAction, reply: Reply, t: State)
    requires WorkerStep(s, w, a, reply) == Some(t)
    ensures t.flags.suspended == s.flags.suspended && w < |s.workers| && t.workers == s.workers[w := t.workers[w]]
  {
  }

  lemma OthersMoveNoWorker(s: State, a: Action, reply: Reply, t: State)
    requires Effect(s, a, reply) == Some(t) && !a.OfWorker? && a != OfControl(Suspend) && a != OfControl(Resume)
    ensures t.flags.suspended == s.flags.suspended
    ensures t.workers == if a == OfControl(Grow) then s.workers + [AtGate] else s.workers
  {
  }

  lemma HiveActIsTogether(j: Gated, a: Action, j': Gated)
    requires GatedInvariant(j) && GatedStep(j, HiveAct(a)) == Some(j')
    ensures GatedInvariant(j')
  {
    var reply := ReplyTo(j.hive.num, CallOf(a));
    var t := Effect(j.hive, a, reply).value;
    if a.OfWorker? {
      WorkerMovesAlone(j.hive, a.w, a.wa, reply, t);
    } else {
      OthersMoveNoWorker(j.hive, a, reply, t);
      if a == OfControl(Grow) {
        StepKeepsGate(j.gate, AddWaiter, j'.gate);
      }
    }
  }

  lemma SetFlagIsTogether(j: Gated, n: nat, suspended: bool, j': Gated)
    requires GatedInvariant(j) && GatedStep(j, SetFlag(n, suspended)) == Some(j')
    ensures GatedInvariant(j')
  {
    ResumeStepKeepsGate(j.gate, Swap(n, suspended), j'.gate);
  }

  lemma WaiterIsTogether(j: Gated, ga: GateAction, j': Gated)
    requires GatedInvariant(j) && GatedStep(j, Worker(ga)) == Some(j')
    ensures GatedInvariant(j')
  {
    StepKeepsGate(j.gate, ga, j'.gate);
    if SeesUnset(j.gate, ga) {
      WorkerMovesAlone(j.hive, ga.w, PassGate, Fine, Effect(j.hive, OfWorker(ga.w, PassGate), Fine).value);
    }
  }

  lemma ResumerIsTogether(j: Gated, ga: GateAction, j': Gated)
    requires GatedInvariant(j) && GatedStep(j, Resumer(ga)) == Some(j')
    ensures GatedInvariant(j')
  {
    StepKeepsGate(j.gate, ga, j'.gate);
  }

  lemma {:induction false} RunIsTogether(j: Gated, acts: seq<GatedAction>, j': Gated)
    requires GatedInvariant(j) && GatedRun(j, acts) == Some(j')
    ensures GatedInvariant(j')
    decreases |acts|
  {
    if acts != [] {
      var j1 := GatedStep(j, acts[0]).value;
      match acts[0] {
        case HiveAct(a) => HiveActIsTogether(j, a, j1);
        case SetFlag(n, suspended) => SetFlagIsTogether(j, n, suspended, j1);
        case Resumer(ga) => ResumerIsTogether(j, ga, j1);
        case Worker(ga) => WaiterIsTogether(j, ga, j1);
      }
      RunIsTogether(j1, acts[1..], j');
    }
  }

  /** The at most one action that the hive takes. */
  lemma HiveStepOf(j: Gated, act: GatedAction, j': Gated) returns (actions: seq<Action>)
    requires GatedStep(j, act) == Some(j')
    ensures Run(j.hive, actions) == Some(j'.hive) && |actions| <= 1
  {
    actions := match act
      case HiveAct(a) => [a]
      case SetFlag(_, suspended) => [OfControl(if suspended then Suspend else Resume)]
      case Resumer(_) => []
      case Worker(ga) => if SeesUnset(j.gate, ga) then [OfWorker(ga.w, PassGate)] else [];
    assert actions != [] ==> actions[1..] == [];
  }

  lemma {:induction false} GatedRunIsHiveRun(j: Gated, acts: seq<GatedAction>, j': Gated) returns (actions: seq<Action>)
    requires GatedRun(j, acts) == Some(j')
    ensures Run(j.hive, actions) == Some(j'.hive)
    decreases |acts|
  {
    actions := [];
    if acts != [] {
      var j1 := GatedStep(j, acts[0]).value;
      var rest := GatedRunIsHiveRun(j1, acts[1..], j');
      var first := HiveStepOf(j, acts[0], j1);
      actions := if first == [] then rest else [first[0]] + rest;
      assert first != [] ==> actions[1..] == rest;
    }
  }

  // ------------------------------------------------------------------------------------------
  // No worker is forgotten
  // ------------------------------------------------------------------------------------------

  /** In every run, with any number of workers and of threads that suspend and resume: a worker asleep
      on the resume gate means that the hive is suspended, or that some thread has unset the flag and
      is not through with its `notify_all`; the worker holds no task, and the hive is reachable. */
  lemma SleepingWorkersAreResumed(cfg: Config, n: nat, acts: seq<GatedAction>, j: Gated, w: nat)
    requires GatedRun(InitGated(cfg, n), acts) == Some(j)
    requires w < |j.gate.waiters| && j.gate.waiters[w].Asleep?
    ensures j.hive.flags.suspended || exists k :: 0 <= k < |j.gate.notifiers| && !j.gate.notifiers[k].Quiet?
    ensures w < |j.hive.workers| && j.hive.workers[w] == AtGate && Reachable(j.hive)
  {
    RunIsTogether(InitGated(cfg, n), acts, j);
    var actions := GatedRunIsHiveRun(InitGated(cfg, n), acts, j);
    assert Run(Init(cfg, n), actions) == Some(j.hive);
  }
}
