/** The hive together with its join gate: `join` sleeps on `has_work`, workers notify it after each
    finished task (src/hive/shared.rs, src/hive/gate.rs). `has_work` is three reads, and everything
    else can happen between them. */
module JoinGate {
  import opened Wrappers
  import opened Protocol
  import opened CounterLaw
  import opened Gates
  import Counter
  import Theorems

  /** What `has_work` would say if nothing happened between its reads. */
  predicate HasWork(s: State) {
    !s.flags.poisoned && WorkIf(s, s.flags.suspended)
  }

  /** Whether the counter shows work, for a hive that is suspended or not. */
  predicate WorkIf(s: State, suspended: bool) {
    s.num.Read().1 > 0 || (!suspended && s.num.Read().0 > 0)
  }

  // ------------------------------------------------------------------------------------------
  // Which actions end the work
  // ------------------------------------------------------------------------------------------

  predicate IsFinish(a: WorkerAction) {
    a.FinishTask? || a.SentinelFinish? || a.ExitFinish?
  }

  lemma FinishNotifies(s: State, w: nat, a: WorkerAction, t: State)
    requires WorkerStep(s, w, a, Fine) == Some(t) && IsFinish(a)
    ensures w < |t.workers| && t.workers[w].Notifying?
  {
  }

  /** The totals only shrink by a finish. */
  lemma TotalsReachZero(s: State, a: Action, t: State)
    requires Effect(s, a, Fine) == Some(t)
    requires Queued(s) >= 0 && Active(s) >= 0 && !(a.OfWorker? && IsFinish(a.wa))
    ensures Queued(s) + Active(s) <= Queued(t) + Active(t) && Active(s) <= Active(t)
  {
    EffectTotals(s, a, Fine, t);
  }

  /** A step that leaves the hive orderly made no counter call that failed, and the counter reads the
      totals before and after. */
  lemma OrderlyStep(s: State, a: Action, s': State) returns (t: State)
    requires Theorems.Invariant(s) && Step(s, a) == Some(s') && Orderly(s')
    ensures Effect(s, a, Fine) == Some(t) && t.workers == s'.workers
    ensures s.num.Read() == (Queued(s), Active(s)) && Queued(s) >= 0 && Active(s) >= 0
    ensures s'.num.Read() == (Queued(t), Active(t))
  {
    var reply := ReplyTo(s.num, CallOf(a));
    t := Effect(s, a, reply).value;
    OrderlyMeansFine(s, a, reply, t);
    CounterReads(s);
    ReadsAfter(s, a, s');
    assert Totals(s') == Totals(t);
  }

  lemma ReadsAfter(s: State, a: Action, s': State)
    requires Theorems.Invariant(s) && Step(s, a) == Some(s') && Orderly(s')
    ensures s'.num.Read() == (Queued(s'), Active(s'))
  {
    Theorems.StepKeepsInvariant(s, a, s');
    CounterReads(s');
  }

  /** As long as no clean exit has happened, only a worker's `finish_task` makes the counter show no
      work when it showed some, suspended or not; and that worker notifies next. */
  lemma WorkEndsByFinish(s: State, a: Action, s': State, suspended: bool)
    requires Theorems.Invariant(s) && Step(s, a) == Some(s') && Orderly(s')
    requires WorkIf(s, suspended) && !WorkIf(s', suspended)
    ensures a.OfWorker? && IsFinish(a.wa) && a.w < |s'.workers| && s'.workers[a.w].Notifying?
  {
    var t := OrderlyStep(s, a, s');
    if a.OfWorker? && IsFinish(a.wa) {
      FinishNotifies(s, a.w, a.wa, t);
    } else {
      TotalsReachZero(s, a, t);
    }
  }

  /** An action changes the flags that `has_work` reads only if it suspends, resumes or poisons. */
  lemma FlagsKept(s: State, a: Action, reply: Reply, t: State)
    requires Effect(s, a, reply) == Some(t)
    ensures (a.OfControl? && (a.ca.Suspend? || a.ca.Resume? || a.ca.Poison?)) ||
            (t.flags.suspended == s.flags.suspended && t.flags.poisoned == s.flags.poisoned)
    ensures s.flags.poisoned ==> t.flags.poisoned
    ensures a == OfControl(Resume) ==> !t.flags.suspended
    ensures a == OfControl(Suspend) ==> t.flags.suspended && t.num == s.num
    ensures a == OfControl(Poison) ==> t.flags.poisoned && t.flags.suspended == s.flags.suspended
  {
    match a
    case OfWorker(w, wa) => WorkerKeepsFlags(s, w, wa, reply, t);
    case OfSubmitter(u, ua) => assert t.flags == s.flags;
    case OfControl(_) =>
  }

  lemma WorkerKeepsFlags(s: State, w: nat, a: WorkerAction, reply: Reply, t: State)
    requires WorkerStep(s, w, a, reply) == Some(t)
    ensures t.flags.suspended == s.flags.suspended && t.flags.poisoned == s.flags.poisoned
  {
  }

  /** When an action leaves the hive without work that it had before, the action is a worker's
      `finish_task`, and that worker notifies next; or it suspends or poisons the hive. */
  lemma WhoEndsTheWork(s: State, a: Action, s': State)
    requires Theorems.Invariant(s) && Step(s, a) == Some(s') && Orderly(s')
    requires HasWork(s) && !HasWork(s')
    ensures (a.OfWorker? && IsFinish(a.wa) && a.w < |s'.workers| && s'.workers[a.w].Notifying?) ||
            a == OfControl(Suspend) || a == OfControl(Poison)
  {
    var reply := ReplyTo(s.num, CallOf(a));
    FlagsKept(s, a, reply, Effect(s, a, reply).value);
    if a != OfControl(Suspend) && a != OfControl(Poison) && !(a == OfControl(Resume) && s.flags.suspended) {
      WorkEndsByFinish(s, a, s', s.flags.suspended);
    }
  }

  // ------------------------------------------------------------------------------------------
  // The joint machine
  // ------------------------------------------------------------------------------------------

  /** How far a thread has come with `has_work`: the poison flag was unset; the counter showed no active
      and this many queued tasks, at this moment of the run. */
  datatype Look = NotLooking | PastPoison | PastCounter(queued: nat, moment: nat)

  datatype Reading = GoOn(look: Look) | Answer(busy: bool)

  /** The next read of `has_work`. */
  function NextRead(s: State, look: Look, moment: nat): Reading {
    match look
    case NotLooking => if s.flags.poisoned then Answer(false) else GoOn(PastPoison)
    case PastPoison =>
      var (queued, active) := s.num.Read();
      if active > 0 then Answer(true) else GoOn(PastCounter(queued, moment))
    case PastCounter(queued, _) => Answer(!s.flags.suspended && queued > 0)
  }

  /** The hive and its join gate. The waiters are the threads inside `join`, the notifiers are the
      worker threads, and each of them has a look of its own; the gate's condition field is the answer
      of the latest look. */
  datatype Joint = Joint(hive: State, gate: Gate, joiners: seq<Look>, workers: seq<Look>, moment: nat)

  datatype JointAction =
    | HiveAct(a: Action)      // any action of the hive but the end of a notification
    | JoinerLooks(w: nat)     // the next read of joiner w, on entry or at the head of its loop
    | WorkerLooks(w: nat)     // the next read of worker w in `no_work_notify_all`
    | Broadcast(w: nat)       // worker w gets the gate's mutex and wakes all joiners
    | Join(ga: GateAction)    // any other step of a thread inside `join`

  /** The step of the gate that the answer of a joiner's look brings. */
  function Answered(x: Waiter, w: nat): GateAction {
    if x.Checking? then Check(w) else Enter(w)
  }

  predicate MayLook(g: Gate, w: nat) {
    w < |g.waiters| &&
    var x := g.waiters[w];
    x.Outside? || x.Returned? || (x.Checking? && x.phase == g.phase)
  }

  function JoinerStep(j: Joint, w: nat): Option<Joint> {
    if !MayLook(j.gate, w) || w >= |j.joiners| then None
    else
      match NextRead(j.hive, j.joiners[w], j.moment)
      case GoOn(look) => Some(j.(joiners := j.joiners[w := look]))
      case Answer(busy) =>
        match GateStep(j.gate.(cond := busy), Answered(j.gate.waiters[w], w))
        case None => None
        case Some(g) => Some(j.(gate := g, joiners := j.joiners[w := NotLooking]))
  }

  /** A worker that has seen work is done; one that has not calls `notify_all`. */
  function WorkerLookStep(j: Joint, w: nat): Option<Joint> {
    if w >= |j.gate.notifiers| || !j.gate.notifiers[w].Owing? || w >= |j.workers| then None
    else
      match NextRead(j.hive, j.workers[w], j.moment)
      case GoOn(look) => Some(j.(workers := j.workers[w := look]))
      case Answer(busy) =>
        var j' := j.(workers := j.workers[w := NotLooking]);
        if busy then Finished(j', w, j.gate.(notifiers := j.gate.notifiers[w := Quiet]))
        else Some(j'.(gate := j.gate.(notifiers := j.gate.notifiers[w := Gates.Notifying])))
  }

  /** The worker is done with its notification. */
  function Finished(j: Joint, w: nat, g: Gate): Option<Joint> {
    match Step(j.hive, OfWorker(w, NotifyDone))
    case None => None
    case Some(h) => Some(j.(hive := h, gate := g))
  }

  /** A hive action; a worker that finishes a task has yet to look whether it must notify. */
  function HiveStep(j: Joint, a: Action): Option<Joint> {
    if a.OfWorker? && a.wa.NotifyDone? then None
    else
      match Step(j.hive, a)
      case None => None
      case Some(h) =>
        var g := j.gate;
        if a.OfWorker? && IsFinish(a.wa) && a.w < |h.workers| && h.workers[a.w].Notifying? && a.w < |g.notifiers| then
          Some(j.(hive := h, gate := g.(notifiers := g.notifiers[a.w := Owing])))
        else if a == OfControl(Grow) then
          Some(j.(hive := h, gate := g.(notifiers := g.notifiers + [Quiet]), workers := j.workers + [NotLooking]))
        else Some(j.(hive := h))
  }

  predicate IsJoinerStep(g: Gate, a: GateAction) {
    a.LoadPhase? || a.Lock? || a.Sleep? || a.Wake? || a.Leave? || a.AddWaiter? ||
    (a.Check? && a.w < |g.waiters| && g.waiters[a.w].Checking? && g.waiters[a.w].phase != g.phase)
  }

  function OtherStep(j: Joint, ga: GateAction): Option<Joint> {
    if !IsJoinerStep(j.gate, ga) then None
    else
      match GateStep(j.gate, ga)
      case None => None
      case Some(g) => Some(j.(gate := g, joiners := if ga.AddWaiter? then j.joiners + [NotLooking] else j.joiners))
  }

  function Act(j: Joint, act: JointAction): Option<Joint> {
    match act
    case HiveAct(a) => HiveStep(j, a)
    case JoinerLooks(w) => JoinerStep(j, w)
    case WorkerLooks(w) => WorkerLookStep(j, w)
    case Broadcast(w) =>
      (match GateStep(j.gate, NotifyAll(w))
       case None => None
       case Some(g) => Finished(j, w, g))
    case Join(ga) => OtherStep(j, ga)
  }

  function JointStep(j: Joint, act: JointAction): Option<Joint> {
    match Act(j, act)
    case None => None
    case Some(j') => Some(j'.(moment := j.moment + 1))
  }

  function JointRun(j: Joint, acts: seq<JointAction>): Option<Joint>
    decreases |acts|
  {
    if acts == [] then Some(j)
    else
      match JointStep(j, acts[0])
      case None => None
      case Some(j') => JointRun(j', acts[1..])
  }

  function InitJoint(cfg: Config, n: nat): Joint {
    Joint(Init(cfg, n), Gate(true, false, 0, None, [], seq(n, i => Quiet), []), [], seq(n, i => NotLooking), 0)
  }

  // ------------------------------------------------------------------------------------------
  // What every run keeps
  // ------------------------------------------------------------------------------------------

  ghost predicate Coupled(j: Joint) {
    && j.gate.phased && |j.gate.notifiers| == |j.hive.workers| == |j.workers| && |j.joiners| == |j.gate.waiters|
    && (forall w :: 0 <= w < |j.hive.workers| ==> (j.gate.notifiers[w].Quiet? <==> !j.hive.workers[w].Notifying?))
    && (forall w :: 0 <= w < |j.workers| && !j.workers[w].NotLooking? ==> j.gate.notifiers[w].Owing?)
    && (forall w :: 0 <= w < |j.joiners| && !j.joiners[w].NotLooking? ==> MayLook(j.gate, w))
  }

  ghost predicate Sane(j: Joint) {
    Coupled(j) && MutexHeldByOne(j.gate) && PhasesJustified(j.gate)
  }

  /** A worker starts notifying only by a finish. */
  lemma WorkerNotifying(s: State, w: nat, a: WorkerAction, reply: Reply, t: State)
    requires WorkerStep(s, w, a, reply) == Some(t) && !a.NotifyDone?
    ensures t.workers == s.workers[w := t.workers[w]]
    ensures !s.workers[w].Notifying? && (t.workers[w].Notifying? ==> IsFinish(a))
  {
  }

  lemma OthersNotifying(s: State, a: Action, reply: Reply, t: State)
    requires Effect(s, a, reply) == Some(t) && !a.OfWorker?
    ensures t.workers == if a == OfControl(Grow) then s.workers + [AtGate] else s.workers
  {
  }

  /** What a hive action does to the gate and the looks. */
  lemma HiveActEffect(j: Joint, a: Action, j': Joint)
    requires Coupled(j) && HiveStep(j, a) == Some(j')
    ensures Coupled(j') && j'.joiners == j.joiners && j'.gate.(notifiers := j.gate.notifiers) == j.gate
    ensures |j.gate.notifiers| <= |j'.gate.notifiers|
    ensures forall n :: 0 <= n < |j.gate.notifiers| ==>
              (j'.gate.notifiers[n] == j.gate.notifiers[n] ||
               (j.gate.notifiers[n].Quiet? && j'.gate.notifiers[n].Owing?)) &&
              j'.workers[n] == j.workers[n]
    ensures a.OfWorker? && IsFinish(a.wa) && a.w < |j'.hive.workers| && j'.hive.workers[a.w].Notifying? ==>
              a.w < |j'.gate.notifiers| && j'.gate.notifiers[a.w].Owing? && j'.workers[a.w].NotLooking?
  {
    var reply := ReplyTo(j.hive.num, CallOf(a));
    var t := Effect(j.hive, a, reply).value;
    if a.OfWorker? {
      WorkerNotifying(j.hive, a.w, a.wa, reply, t);
    } else {
      OthersNotifying(j.hive, a, reply, t);
    }
  }

  /** The end of a notification changes nothing that `has_work` reads. */
  lemma NotifyDoneKeepsWork(s: State, w: nat, s': State)
    requires Step(s, OfWorker(w, NotifyDone)) == Some(s')
    ensures s'.num == s.num && s'.hist == s.hist && s'.flags == s.flags
    ensures w < |s.workers| && s'.workers == s.workers[w := s'.workers[w]]
    ensures !s'.workers[w].Notifying?
  {
  }

  lemma JoinerLooksSanely(j: Joint, w: nat, j': Joint)
    requires Sane(j) && JoinerStep(j, w) == Some(j')
    ensures Sane(j')
  {
    if NextRead(j.hive, j.joiners[w], j.moment).Answer? {
      var g := j.gate.(cond := NextRead(j.hive, j.joiners[w], j.moment).busy);
      WaiterKeepsMutex(g, Answered(j.gate.waiters[w], w), j'.gate);
      WaiterKeepsPhases(g, Answered(j.gate.waiters[w], w), j'.gate);
      CheckedByHolder(j, w, j');
    }
  }

  /** The phase stays, and so do the other joiners' places. */
  lemma CheckedByHolder(j: Joint, w: nat, j': Joint)
    requires Coupled(j) && JoinerStep(j, w) == Some(j')
    ensures Coupled(j')
  {
  }

  lemma WorkerLooksSanely(j: Joint, w: nat, j': Joint)
    requires Sane(j) && WorkerLookStep(j, w) == Some(j')
    ensures Sane(j') && j'.gate.waiters == j.gate.waiters && j'.joiners == j.joiners
    ensures j'.hive.num == j.hive.num && j'.hive.flags == j.hive.flags && j'.hive.hist == j.hive.hist
    ensures j'.gate.notifiers == j.gate.notifiers[w := j'.gate.notifiers[w]]
    ensures j'.workers == j.workers[w := j'.workers[w]]
  {
    if NextRead(j.hive, j.workers[w], j.moment) == Answer(true) {
      NotifyDoneKeepsWork(j.hive, w, j'.hive);
    }
  }

  lemma BroadcastsSanely(j: Joint, w: nat, j': Joint)
    requires Sane(j) && Act(j, Broadcast(w)) == Some(j')
    ensures Sane(j') && j'.gate.holder.None? && j'.gate.waiters == WakeAll(j.gate.waiters)
    ensures j'.hive.num == j.hive.num && j'.hive.flags == j.hive.flags && j'.hive.hist == j.hive.hist
  {
    NotifyDoneKeepsWork(j.hive, w, j'.hive);
    NotifierKeepsMutex(j.gate, NotifyAll(w), j'.gate);
    NotifierKeepsPhases(j.gate, NotifyAll(w), j'.gate);
  }

  lemma OthersStepSanely(j: Joint, ga: GateAction, j': Joint)
    requires Sane(j) && OtherStep(j, ga) == Some(j')
    ensures Sane(j')
  {
    if ga.AddWaiter? {
      NotifierKeepsMutex(j.gate, ga, j'.gate);
      NotifierKeepsPhases(j.gate, ga, j'.gate);
    } else {
      WaiterKeepsMutex(j.gate, ga, j'.gate);
      WaiterKeepsPhases(j.gate, ga, j'.gate);
    }
    OthersKeepCoupled(j, ga, j');
  }

  /** A joiner in the middle of a look under the mutex keeps the others from moving the phase. */
  lemma OthersKeepCoupled(j: Joint, ga: GateAction, j': Joint)
    requires Coupled(j) && MutexHeldByOne(j.gate) && OtherStep(j, ga) == Some(j')
    ensures Coupled(j')
  {
    if ga.Leave? {
      assert j.gate.holder == Some(ga.w);
    }
  }

  lemma HiveActsSanely(j: Joint, a: Action, j': Joint)
    requires Sane(j) && HiveStep(j, a) == Some(j')
    ensures Sane(j')
  {
    HiveActEffect(j, a, j');
  }

  lemma StepIsSane(j: Joint, act: JointAction, j': Joint)
    requires Sane(j) && JointStep(j, act) == Some(j')
    ensures Sane(j') && j'.moment == j.moment + 1
  {
    var i := Act(j, act).value;
    match act
    case HiveAct(a) => HiveActsSanely(j, a, i);
    case JoinerLooks(w) => JoinerLooksSanely(j, w, i);
    case WorkerLooks(w) => WorkerLooksSanely(j, w, i);
    case Broadcast(w) => BroadcastsSanely(j, w, i);
    case Join(ga) => OthersStepSanely(j, ga, i);
  }

  lemma {:induction false} RunIsSane(j: Joint, acts: seq<JointAction>, j': Joint)
    requires Sane(j) && JointRun(j, acts) == Some(j')
    ensures Sane(j') && j'.moment == j.moment + |acts|
    decreases |acts|
  {
    if acts != [] {
      var j1 := JointStep(j, acts[0]).value;
      StepIsSane(j, acts[0], j1);
      RunIsSane(j1, acts[1..], j');
    }
  }

  lemma InitIsSane(cfg: Config, n: nat)
    ensures Sane(InitJoint(cfg, n)) && Theorems.Invariant(InitJoint(cfg, n).hive)
  {
    Theorems.InitHolds(cfg, n);
  }

  // ------------------------------------------------------------------------------------------
  // The hive within
  // ------------------------------------------------------------------------------------------

  /** The at most one action that a joint action makes the hive take. */
  function HiveActions(act: JointAction, j: Joint, j': Joint): seq<Action> {
    match act
    case HiveAct(a) => [a]
    case WorkerLooks(w) => if j'.hive == j.hive then [] else [OfWorker(w, NotifyDone)]
    case Broadcast(w) => [OfWorker(w, NotifyDone)]
    case _ => []
  }

  lemma HiveStepOf(j: Joint, act: JointAction, j': Joint)
    requires JointStep(j, act) == Some(j')
    ensures Run(j.hive, HiveActions(act, j, j')) == Some(j'.hive)
  {
    var actions := HiveActions(act, j, j');
    assert actions != [] ==> actions[1..] == [];
  }

  /** Every joint run is a run of the hive. */
  lemma {:induction false} JointRunIsHiveRun(j: Joint, acts: seq<JointAction>, j': Joint) returns (actions: seq<Action>)
    requires JointRun(j, acts) == Some(j')
    ensures Run(j.hive, actions) == Some(j'.hive)
    decreases |acts|
  {
    actions := [];
    if acts != [] {
      var j1 := JointStep(j, acts[0]).value;
      var rest := JointRunIsHiveRun(j1, acts[1..], j');
      HiveStepOf(j, acts[0], j1);
      var first := HiveActions(acts[0], j, j1);
      actions := if first == [] then rest else [first[0]] + rest;
      assert first != [] ==> actions[1..] == rest;
    }
  }

  /** In every joint run the hive is reachable. */
  lemma JointHiveIsReachable(cfg: Config, n: nat, acts: seq<JointAction>, j: Joint)
    requires JointRun(InitJoint(cfg, n), acts) == Some(j)
    ensures Reachable(j.hive)
  {
    var actions := JointRunIsHiveRun(InitJoint(cfg, n), acts, j);
  }
}
