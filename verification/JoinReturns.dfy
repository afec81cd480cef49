/** What a thread that returns from `join` knows: somebody looked at the hive, in two moments. */
module JoinReturns {
  import opened Wrappers
  import opened Protocol
  import opened CounterLaw
  import opened Gates
  import opened JoinGate
  import opened JoinWakeUps
  import opened Service
  import Theorems

  // ------------------------------------------------------------------------------------------
  // Runs and their prefixes
  // ------------------------------------------------------------------------------------------

  lemma {:induction false} JointRunConcat(j: Joint, xs: seq<JointAction>, ys: seq<JointAction>)
    requires JointRun(j, xs).Some?
    ensures JointRun(j, xs + ys) == JointRun(JointRun(j, xs).value, ys)
    decreases |xs|
  {
    if xs == [] {
      assert xs + ys == ys;
    } else {
      assert (xs + ys)[1..] == xs[1..] + ys;
      JointRunConcat(JointStep(j, xs[0]).value, xs[1..], ys);
    }
  }

  lemma {:induction false} PrefixRuns(j: Joint, acts: seq<JointAction>, m: nat)
    requires JointRun(j, acts).Some? && m <= |acts|
    ensures JointRun(j, acts[..m]).Some?
    decreases |acts|
  {
    if m > 0 {
      assert acts[..m][1..] == acts[1..][..m - 1];
      PrefixRuns(JointStep(j, acts[0]).value, acts[1..], m - 1);
    }
  }

  /** The last step of a run. */
  lemma LastStep(j0: Joint, acts: seq<JointAction>, j: Joint) returns (j1: Joint)
    requires JointRun(j0, acts) == Some(j) && acts != []
    ensures JointRun(j0, acts[..|acts| - 1]) == Some(j1) && JointStep(j1, acts[|acts| - 1]) == Some(j)
  {
    var n := |acts| - 1;
    PrefixRuns(j0, acts, n);
    j1 := JointRun(j0, acts[..n]).value;
    assert acts == acts[..n] + [acts[n]];
    JointRunConcat(j0, acts[..n], [acts[n]]);
    assert [acts[n]][1..] == [];
  }

  /** The state before the m-th action. */
  ghost function Before(j0: Joint, acts: seq<JointAction>, m: nat): Joint
    requires m <= |acts| && JointRun(j0, acts).Some?
  {
    PrefixRuns(j0, acts, m);
    JointRun(j0, acts[..m]).value
  }

  lemma BeforeInPrefix(j0: Joint, acts: seq<JointAction>, m: nat)
    requires acts != [] && JointRun(j0, acts).Some? && m < |acts|
    ensures JointRun(j0, acts[..|acts| - 1]).Some?
    ensures Before(j0, acts, m) == Before(j0, acts[..|acts| - 1], m)
  {
    PrefixRuns(j0, acts, |acts| - 1);
    assert acts[..|acts| - 1][..m] == acts[..m];
  }

  // ------------------------------------------------------------------------------------------
  // Who looked, and when
  // ------------------------------------------------------------------------------------------

  /** The look in which joiner v is at the end of the run read the counter at moment m, after the poison
      flag, and v has read nothing else since. It is at the same place of the same call of `join`, and
      if that is under the mutex the gate is still in the same phase. */
  ghost predicate CounterRead(j0: Joint, acts: seq<JointAction>, m: nat, v: nat, queued: nat)
    requires JointRun(j0, acts).Some?
  {
    m < |acts| && acts[m] == JoinerLooks(v) && NoLookSince(acts, m, v) &&
    var was, now := Before(j0, acts, m), JointRun(j0, acts).value;
    && v < |was.joiners| && was.joiners[v].PastPoison? && was.hive.num.Read() == (queued, 0)
    && v < |was.gate.waiters| && v < |now.gate.waiters| && was.gate.waiters[v] == now.gate.waiters[v]
    && (now.gate.waiters[v].Checking? ==> was.gate.phase == now.gate.phase)
  }

  /** Joiner v finished a look without work at moment m2, in this phase of the gate: its read at m2 gave
      the answer. Either it found the poison flag set, or it read the suspension flag, in a look that had
      found no active task at its counter read, at m. */
  ghost predicate LookedIdle(j0: Joint, acts: seq<JointAction>, m: nat, m2: nat, v: nat, phase: nat)
    requires JointRun(j0, acts).Some?
  {
    m2 < |acts| && acts[m2] == JoinerLooks(v) &&
    var b := Before(j0, acts, m2);
    && v < |b.joiners| && NextRead(b.hive, b.joiners[v], b.moment) == Answer(false) && b.gate.phase == phase
    && (b.joiners[v].PastCounter? ==> m < m2 && CounterReadBefore(j0, acts, m, m2, v, b.joiners[v].queued))
  }

  ghost predicate CounterReadBefore(j0: Joint, acts: seq<JointAction>, m: nat, m2: nat, v: nat, queued: nat)
    requires JointRun(j0, acts).Some? && m2 <= |acts|
  {
    PrefixRuns(j0, acts, m2);
    CounterRead(j0, acts[..m2], m, v, queued)
  }

  /** And it finished under the mutex: it had waited in that phase. */
  ghost predicate UnderMutex(j0: Joint, acts: seq<JointAction>, m2: nat, v: nat)
    requires JointRun(j0, acts).Some? && m2 <= |acts|
  {
    v < |Before(j0, acts, m2).gate.waiters| && Before(j0, acts, m2).gate.waiters[v].Checking?
  }

  /** No look of joiner w since. */
  ghost predicate NoLookSince(acts: seq<JointAction>, m: nat, w: nat) {
    forall k :: m < k < |acts| ==> acts[k] != JoinerLooks(w)
  }

  lemma StillNoLook(acts: seq<JointAction>, m: nat, w: nat)
    requires acts != [] && acts[|acts| - 1] != JoinerLooks(w) && NoLookSince(acts[..|acts| - 1], m, w)
    ensures NoLookSince(acts, m, w)
  {
    assert forall k :: m < k < |acts| - 1 ==> acts[k] == acts[..|acts| - 1][k];
  }

  lemma EarlierLook(j0: Joint, acts: seq<JointAction>, m: nat, m2: nat, v: nat, phase: nat)
    requires acts != [] && JointRun(j0, acts).Some? && JointRun(j0, acts[..|acts| - 1]).Some?
    requires LookedIdle(j0, acts[..|acts| - 1], m, m2, v, phase)
    ensures LookedIdle(j0, acts, m, m2, v, phase)
    ensures UnderMutex(j0, acts, m2, v) == UnderMutex(j0, acts[..|acts| - 1], m2, v)
  {
    BeforeInPrefix(j0, acts, m2);
    assert acts[..|acts| - 1][..m2] == acts[..m2];
  }

  /** No other action touches a joiner's look. */
  lemma LookKept(j: Joint, act: JointAction, j': Joint, v: nat)
    requires Sane(j) && JointStep(j, act) == Some(j') && act != JoinerLooks(v) && v < |j'.joiners|
    ensures v < |j.joiners| ==> j'.joiners[v] == j.joiners[v]
    ensures v >= |j.joiners| ==> j'.joiners[v] == NotLooking && j'.gate.waiters[v] == Outside
  {
    match act
    case WorkerLooks(w) => WorkerLooksSanely(j, w, Act(j, act).value);
    case Broadcast(w) => BroadcastsSanely(j, w, Act(j, act).value);
    case HiveAct(a) => HiveActEffect(j, a, Act(j, act).value);
    case _ =>
  }

  /** A joiner in the middle of a look stays where it is; and while it holds the mutex the phase does
      not move. */
  lemma LookingStays(j: Joint, act: JointAction, j': Joint, v: nat)
    requires Sane(j) && JointStep(j, act) == Some(j') && act != JoinerLooks(v)
    requires v < |j.joiners| && !j.joiners[v].NotLooking?
    ensures v < |j.gate.waiters| && v < |j'.gate.waiters| && j'.gate.waiters[v] == j.gate.waiters[v]
    ensures j.gate.waiters[v].Checking? ==> j'.gate.phase == j.gate.phase
  {
    match act
    case WorkerLooks(w) => WorkerLooksSanely(j, w, Act(j, act).value);
    case Broadcast(w) => BroadcastsSanely(j, w, Act(j, act).value);
    case HiveAct(a) => HiveActEffect(j, a, Act(j, act).value);
    case JoinerLooks(w) => OtherLookStays(j, w, Act(j, act).value, v);
    case Join(ga) => OtherStepStays(j, ga, Act(j, act).value, v);
  }

  lemma OtherLookStays(j: Joint, w: nat, j': Joint, v: nat)
    requires Sane(j) && JoinerStep(j, w) == Some(j') && w != v && v < |j.joiners|
    ensures |j'.gate.waiters| == |j.gate.waiters| && j'.gate.waiters[v] == j.gate.waiters[v]
    ensures j'.gate.phase == j.gate.phase
  {
  }

  lemma OtherStepStays(j: Joint, ga: GateAction, j': Joint, v: nat)
    requires Sane(j) && OtherStep(j, ga) == Some(j') && v < |j.joiners| && !j.joiners[v].NotLooking?
    ensures v < |j'.gate.waiters| && j'.gate.waiters[v] == j.gate.waiters[v]
    ensures j.gate.waiters[v].Checking? ==> j'.gate.phase == j.gate.phase
  {
  }

  /** A joiner past the counter did read it in this very look, at the moment that the look names. */
  lemma {:induction false} LookedAtCounter(j0: Joint, acts: seq<JointAction>, j: Joint, v: nat)
    requires Sane(j0) && j0.joiners == [] && j0.moment == 0 && JointRun(j0, acts) == Some(j)
    requires v < |j.joiners| && j.joiners[v].PastCounter?
    ensures CounterRead(j0, acts, j.joiners[v].moment, v, j.joiners[v].queued)
    decreases |acts|
  {
    var n := |acts| - 1;
    var j1 := LastStep(j0, acts, j);
    RunIsSane(j0, acts[..n], j1);
    if acts[n] == JoinerLooks(v) {
      CounterJustRead(j1, v, j);
      assert Before(j0, acts, n) == j1;
    } else {
      LookKept(j1, acts[n], j, v);
      LookedAtCounter(j0, acts[..n], j1, v);
      StillRead(j0, acts, j1, j, j.joiners[v].moment, v, j.joiners[v].queued);
    }
  }

  lemma StillRead(j0: Joint, acts: seq<JointAction>, j1: Joint, j: Joint, m: nat, v: nat, queued: nat)
    requires acts != [] && JointRun(j0, acts) == Some(j) && JointRun(j0, acts[..|acts| - 1]) == Some(j1)
    requires Sane(j1) && JointStep(j1, acts[|acts| - 1]) == Some(j) && acts[|acts| - 1] != JoinerLooks(v)
    requires v < |j1.joiners| && !j1.joiners[v].NotLooking?
    requires CounterRead(j0, acts[..|acts| - 1], m, v, queued)
    ensures CounterRead(j0, acts, m, v, queued)
  {
    BeforeInPrefix(j0, acts, m);
    StillNoLook(acts, m, v);
    LookingStays(j1, acts[|acts| - 1], j, v);
  }

  lemma CounterJustRead(j: Joint, v: nat, j': Joint)
    requires JointStep(j, JoinerLooks(v)) == Some(j') && v < |j'.joiners| && j'.joiners[v].PastCounter?
    ensures v < |j.joiners| && j.joiners[v].PastPoison?
    ensures j.hive.num.Read() == (j'.joiners[v].queued, 0) && j'.joiners[v].moment == j.moment
    ensures j'.gate == j.gate && v < |j.gate.waiters|
  {
  }

  /** The reason of a waiter that has looked itself. */
  predicate OwnReason(x: Waiter) {
    (x.Leaving? || x.Returned?) && !x.why.PhaseMoved?
  }

  predicate LeftItself(j: Joint, w: nat) {
    w < |j.gate.waiters| && w < |j.joiners| && OwnReason(j.gate.waiters[w]) && j.joiners[w].NotLooking?
  }

  /** Whatever else happens, a waiter keeps the reason it has. */
  lemma ReasonKept(j: Joint, act: JointAction, j': Joint, w: nat)
    requires Sane(j) && JointStep(j, act) == Some(j') && LeftItself(j', w) && act != JoinerLooks(w)
    ensures LeftItself(j, w)
    ensures j.gate.waiters[w].why == j'.gate.waiters[w].why
  {
    LookKept(j, act, j', w);
    match act
    case WorkerLooks(v) => WorkerLooksSanely(j, v, Act(j, act).value);
    case Broadcast(v) => BroadcastsSanely(j, v, Act(j, act).value);
    case HiveAct(a) => HiveActEffect(j, a, Act(j, act).value);
    case JoinerLooks(v) => OtherJoinerLooks(j, v, Act(j, act).value, w);
    case Join(ga) => OtherJoinerSteps(j, ga, Act(j, act).value, w);
  }

  lemma OtherJoinerLooks(j: Joint, v: nat, j': Joint, w: nat)
    requires Sane(j) && JoinerStep(j, v) == Some(j') && LeftItself(j', w) && v != w
    ensures w < |j.gate.waiters| && j.gate.waiters[w] == j'.gate.waiters[w]
  {
  }

  lemma OtherJoinerSteps(j: Joint, ga: GateAction, j': Joint, w: nat)
    requires Sane(j) && OtherStep(j, ga) == Some(j') && LeftItself(j', w)
    ensures w < |j.gate.waiters| && OwnReason(j.gate.waiters[w])
    ensures j.gate.waiters[w].why == j'.gate.waiters[w].why
  {
  }

  /** A joiner's own look that ends its wait answered that there is no work. */
  lemma LooksNow(j: Joint, w: nat, j': Joint)
    requires Sane(j) && JointStep(j, JoinerLooks(w)) == Some(j') && LeftItself(j', w)
    ensures w < |j.joiners| && NextRead(j.hive, j.joiners[w], j.moment) == Answer(false)
    ensures j'.gate.waiters[w].why.SawFalse? ==> j'.gate.waiters[w].why.during == j.gate.phase
    ensures j'.gate.waiters[w].why.SawFalse? <==> j.gate.waiters[w].Checking?
  {
  }

  /** A waiter that left for a reason of its own looked in this very call. */
  lemma {:induction false} OwnLook(j0: Joint, acts: seq<JointAction>, j: Joint, w: nat)
    returns (m: nat, m2: nat, phase: nat)
    requires Sane(j0) && j0.joiners == [] && j0.moment == 0 && JointRun(j0, acts) == Some(j) && LeftItself(j, w)
    ensures LookedIdle(j0, acts, m, m2, w, phase) && NoLookSince(acts, m2, w)
    ensures j.gate.waiters[w].why.SawFalse? ==> phase == j.gate.waiters[w].why.during
    ensures j.gate.waiters[w].why.SawFalse? <==> UnderMutex(j0, acts, m2, w)
    decreases |acts|
  {
    var n := |acts| - 1;
    var j1 := LastStep(j0, acts, j);
    RunIsSane(j0, acts[..n], j1);
    if acts[n] == JoinerLooks(w) {
      LooksNow(j1, w, j);
      m, m2, phase := LookEnds(j0, acts, j1, w);
    } else {
      ReasonKept(j1, acts[n], j, w);
      m, m2, phase := OwnLook(j0, acts[..n], j1, w);
      EarlierLook(j0, acts, m, m2, w, phase);
      StillNoLook(acts, m2, w);
    }
  }

  lemma LookEnds(j0: Joint, acts: seq<JointAction>, j: Joint, w: nat) returns (m: nat, m2: nat, phase: nat)
    requires Sane(j0) && j0.joiners == [] && j0.moment == 0 && acts != [] && JointRun(j0, acts).Some?
    requires JointRun(j0, acts[..|acts| - 1]) == Some(j) && acts[|acts| - 1] == JoinerLooks(w)
    requires w < |j.joiners| && NextRead(j.hive, j.joiners[w], j.moment) == Answer(false)
    ensures LookedIdle(j0, acts, m, m2, w, phase) && m2 == |acts| - 1 && phase == j.gate.phase
  {
    m, m2, phase := 0, |acts| - 1, j.gate.phase;
    assert Before(j0, acts, m2) == j;
    if j.joiners[w].PastCounter? {
      m := j.joiners[w].moment;
      LookedAtCounter(j0, acts[..m2], j, w);
    }
  }

  /** A phase step is made by a waiter of that phase, which saw no work during it. */
  lemma PhaseLeftBy(j: Joint, act: JointAction, j': Joint)
    requires Sane(j) && JointStep(j, act) == Some(j') && |j'.gate.steps| > |j.gate.steps|
    ensures act.Join? && act.ga.Leave? && LeftItself(j, act.ga.w)
    ensures |j'.gate.steps| == |j.gate.steps| + 1 && |j.gate.steps| == j.gate.phase
    ensures j.gate.waiters[act.ga.w].why == SawFalse(j.gate.phase)
  {
    match act
    case WorkerLooks(v) => WorkerStepsNoPhase(j, v, Act(j, act).value);
    case Broadcast(_) =>
    case HiveAct(a) => HiveActEffect(j, a, Act(j, act).value);
    case JoinerLooks(v) => JoinerStepsNoPhase(j, v, Act(j, act).value);
    case Join(ga) => WhoLeavesPhase(j, ga, Act(j, act).value);
  }

  lemma WorkerStepsNoPhase(j: Joint, v: nat, j': Joint)
    requires WorkerLookStep(j, v) == Some(j')
    ensures j'.gate.steps == j.gate.steps
  {
  }

  lemma JoinerStepsNoPhase(j: Joint, v: nat, j': Joint)
    requires JoinerStep(j, v) == Some(j')
    ensures j'.gate.steps == j.gate.steps
  {
  }

  lemma WhoLeavesPhase(j: Joint, ga: GateAction, j': Joint)
    requires Sane(j) && OtherStep(j, ga) == Some(j') && |j'.gate.steps| > |j.gate.steps|
    ensures ga.Leave? && LeftItself(j, ga.w)
    ensures |j'.gate.steps| == |j.gate.steps| + 1 && |j.gate.steps| == j.gate.phase
    ensures j.gate.waiters[ga.w].why == SawFalse(j.gate.phase)
  {
  }

  /** Each phase the gate has left was left because a joiner looked during it. */
  lemma {:induction false} PhaseLook(j0: Joint, acts: seq<JointAction>, j: Joint, p: nat)
    returns (m: nat, m2: nat, v: nat)
    requires Sane(j0) && j0.joiners == [] && j0.moment == 0 && j0.gate.steps == [] && JointRun(j0, acts) == Some(j)
    requires p < |j.gate.steps|
    ensures LookedIdle(j0, acts, m, m2, v, p) && UnderMutex(j0, acts, m2, v)
    decreases |acts|
  {
    var n := |acts| - 1;
    var j1 := LastStep(j0, acts, j);
    RunIsSane(j0, acts[..n], j1);
    if p < |j1.gate.steps| {
      m, m2, v := PhaseLook(j0, acts[..n], j1, p);
    } else {
      PhaseLeftBy(j1, acts[n], j);
      v := acts[n].ga.w;
      var phase;
      m, m2, phase := OwnLook(j0, acts[..n], j1, v);
    }
    EarlierLook(j0, acts, m, m2, v, p);
  }

  // ------------------------------------------------------------------------------------------
  // The hive at those moments
  // ------------------------------------------------------------------------------------------

  lemma {:induction false} ServiceAllAlong(s: State, actions: seq<Action>, t: State)
    requires Run(s, actions) == Some(t) && InService(t)
    ensures InService(s)
    decreases |actions|
  {
    if actions != [] {
      var reply := ReplyTo(s.num, CallOf(actions[0]));
      ServiceAllAlong(Step(s, actions[0]).value, actions[1..], t);
      ServiceBackwards(s, actions[0], reply, Effect(s, actions[0], reply).value);
    }
  }

  lemma ServiceBefore(j0: Joint, acts: seq<JointAction>, j: Joint, m: nat)
    requires JointRun(j0, acts) == Some(j) && m <= |acts| && InService(j.hive)
    ensures InService(Before(j0, acts, m).hive)
  {
    RestRuns(j0, acts, j, m);
    ServiceAtFirst(Before(j0, acts, m), acts[m..], j);
  }

  lemma ServiceAtFirst(j0: Joint, acts: seq<JointAction>, j: Joint)
    requires JointRun(j0, acts) == Some(j) && InService(j.hive)
    ensures InService(j0.hive)
  {
    var actions := JointRunIsHiveRun(j0, acts, j);
    ServiceAllAlong(j0.hive, actions, j.hive);
  }

  lemma RestRuns(j0: Joint, acts: seq<JointAction>, j: Joint, m: nat)
    requires JointRun(j0, acts) == Some(j) && m <= |acts|
    ensures JointRun(Before(j0, acts, m), acts[m..]) == Some(j)
  {
    PrefixRuns(j0, acts, m);
    assert acts == acts[..m] + acts[m..];
    JointRunConcat(j0, acts[..m], acts[m..]);
  }

  lemma ReachableBefore(cfg: Config, n: nat, acts: seq<JointAction>, m: nat)
    requires JointRun(InitJoint(cfg, n), acts).Some? && m <= |acts|
    ensures Reachable(Before(InitJoint(cfg, n), acts, m).hive)
  {
    PrefixRuns(InitJoint(cfg, n), acts, m);
    JointHiveIsReachable(cfg, n, acts[..m], Before(InitJoint(cfg, n), acts, m));
  }

  /** Without a suspension in between, a hive that is not suspended stays so. */
  lemma {:induction false} StaysResumed(j0: Joint, acts: seq<JointAction>, m: nat, m2: nat)
    requires JointRun(j0, acts).Some? && m <= m2 <= |acts| && !Before(j0, acts, m).hive.flags.suspended
    requires forall k :: m <= k < m2 ==> acts[k] != HiveAct(OfControl(Suspend))
    ensures !Before(j0, acts, m2).hive.flags.suspended
    decreases m2 - m
  {
    if m < m2 {
      StillResumed(j0, acts, m);
      StaysResumed(j0, acts, m + 1, m2);
    }
  }

  lemma StillResumed(j0: Joint, acts: seq<JointAction>, m: nat)
    requires JointRun(j0, acts).Some? && m < |acts| && acts[m] != HiveAct(OfControl(Suspend))
    requires !Before(j0, acts, m).hive.flags.suspended
    ensures !Before(j0, acts, m + 1).hive.flags.suspended
  {
    StepBetween(j0, acts, m);
    SuspendedKept(Before(j0, acts, m), acts[m], Before(j0, acts, m + 1));
  }

  lemma StepBetween(j0: Joint, acts: seq<JointAction>, m: nat)
    requires JointRun(j0, acts).Some? && m < |acts|
    ensures JointStep(Before(j0, acts, m), acts[m]) == Some(Before(j0, acts, m + 1))
  {
    PrefixRuns(j0, acts, m + 1);
    var j1 := LastStep(j0, acts[..m + 1], Before(j0, acts, m + 1));
    assert acts[..m + 1][..m] == acts[..m];
  }

  /** What `join` promises: no task is being executed, and unless the hive is suspended every index
      issued has ended. */
  ghost predicate PromiseKept(s: State) {
    Active(s) == 0 && (!s.flags.suspended ==> Theorems.EverythingEnded(s))
  }

  /** In service and with nothing active, the promise is broken exactly if the hive is not suspended and
      some index issued is still live. */
  lemma PromiseKeptIff(s: State)
    requires Reachable(s) && InService(s) && Active(s) == 0
    ensures PromiseKept(s) <==> s.flags.suspended || forall i: nat :: i < s.queues.next ==> Live(s, i) == 0
  {
    InServiceIsOrderly(s);
    forall i: nat | i < s.queues.next && Live(s, i) == 0
      ensures Shipped(s.outlet, i) + s.hist.taken[i] + s.hist.panicked[i] == 1
    {
      Theorems.IdleAndNotLive(s, i);
    }
  }

  /** A look without work of a hive in service: at its counter read nothing is active, and unless the
      hive is suspended at its flag read every index issued has ended by then. The promise is kept at
      the counter read, unless some task is queued then and the hive is suspended between the two; and
      it is broken there exactly if the hive is not suspended yet and some index issued is live. */
  lemma LookKeepsPromise(cfg: Config, n: nat, acts: seq<JointAction>, j: Joint, m: nat, m2: nat, v: nat, phase: nat)
    requires JointRun(InitJoint(cfg, n), acts) == Some(j) && InService(j.hive)
    requires LookedIdle(InitJoint(cfg, n), acts, m, m2, v, phase)
    ensures m < m2 <= |acts| && acts[m] == JoinerLooks(v)
    ensures PromiseAtRead(InitJoint(cfg, n), acts, m, m2)
    ensures UnderMutex(InitJoint(cfg, n), acts, m2, v) ==> Before(InitJoint(cfg, n), acts, m).gate.phase == phase
  {
    var j0 := InitJoint(cfg, n);
    ServiceBefore(j0, acts, j, m2);
    ReadOfLook(j0, acts, m, m2, v, phase);
    ServiceBefore(j0, acts, j, m);
    ReachableBefore(cfg, n, acts, m);
    JoinIsSoundInService(Before(j0, acts, m).hive);
    PromiseKeptIff(Before(j0, acts, m).hive);
    if (forall k :: m < k < m2 ==> acts[k] != HiveAct(OfControl(Suspend))) && !Before(j0, acts, m).hive.flags.suspended {
      StaysResumed(j0, acts, m, m2);
    }
  }

  /** What the two moments of such a look say. */
  ghost predicate PromiseAtRead(j0: Joint, acts: seq<JointAction>, m: nat, m2: nat)
    requires JointRun(j0, acts).Some? && m < m2 <= |acts|
  {
    var h := Before(j0, acts, m).hive;
    && Active(h) == 0
    && (!Before(j0, acts, m2).hive.flags.suspended ==> Theorems.EverythingEnded(h))
    && ((forall k :: m < k < m2 ==> acts[k] != HiveAct(OfControl(Suspend))) || h.num.Read().0 == 0 ==> PromiseKept(h))
    && (PromiseKept(h) <==> h.flags.suspended || forall i: nat :: i < h.queues.next ==> Live(h, i) == 0)
  }

  lemma ReadOfLook(j0: Joint, acts: seq<JointAction>, m: nat, m2: nat, v: nat, phase: nat)
    requires JointRun(j0, acts).Some? && LookedIdle(j0, acts, m, m2, v, phase)
    requires !Before(j0, acts, m2).hive.flags.poisoned
    ensures m < m2 && acts[m] == JoinerLooks(v) && Before(j0, acts, m).hive.num.Read().1 == 0
    ensures Before(j0, acts, m2).hive.flags.suspended || Before(j0, acts, m).hive.num.Read().0 == 0
    ensures UnderMutex(j0, acts, m2, v) ==> Before(j0, acts, m).gate.phase == phase
  {
    assert acts[..m2][..m] == acts[..m];
    PrefixRuns(j0, acts, m2);
  }

  /** In every run of a hive in service, with any suspensions: every thread that returned from `join`
      owes it to such a look - its own last one, in this very call, or one that a joiner made under the
      mutex during the phase it waited in, and whose end made it leave. */
  lemma JoinReturnsAfterTheEnd(cfg: Config, n: nat, acts: seq<JointAction>, j: Joint, w: nat)
    returns (m: nat, m2: nat, v: nat, phase: nat)
    requires JointRun(InitJoint(cfg, n), acts) == Some(j) && InService(j.hive)
    requires w < |j.gate.waiters| && w < |j.joiners| && j.gate.waiters[w].Returned? && j.joiners[w].NotLooking?
    ensures LookedIdle(InitJoint(cfg, n), acts, m, m2, v, phase)
    ensures m < m2 <= |acts| && acts[m] == JoinerLooks(v)
    ensures PromiseAtRead(InitJoint(cfg, n), acts, m, m2)
    ensures j.gate.waiters[w].why.PhaseMoved? ==>
              phase == j.gate.waiters[w].phase == Before(InitJoint(cfg, n), acts, m).gate.phase &&
              UnderMutex(InitJoint(cfg, n), acts, m2, v)
    ensures !j.gate.waiters[w].why.PhaseMoved? ==> v == w && NoLookSince(acts, m2, w)
  {
    var j0 := InitJoint(cfg, n);
    InitIsSane(cfg, n);
    RunIsSane(j0, acts, j);
    if j.gate.waiters[w].why.PhaseMoved? {
      phase := j.gate.waiters[w].phase;
      m, m2, v := PhaseLook(j0, acts, j, phase);
    } else {
      v := w;
      m, m2, phase := OwnLook(j0, acts, j, w);
    }
    LookKeepsPromise(cfg, n, acts, j, m, m2, v, phase);
  }
}
