/** `Gate` and `PhasedGate` (src/hive/gate.rs): waiting on a condition with a mutex, a condition
    variable and a phase counter, as a state machine of any number of waiters and notifiers.

    The condition is a flag that other threads change. Whoever makes it false owes a notification:
    it must afterwards either see the condition true again or call `notify_all`. */
module Gates {
  import opened Wrappers

  /** Why a waiter leaves `wait_while`. */
  datatype Reason =
    | FalseOnEntry               // the unlocked check saw the condition false
    | SawFalse(during: nat)      // saw it false under the mutex, in this phase
    | PhaseMoved                 // the phase was no longer the one it had loaded

  datatype Waiter =
    | Outside
    | LoadingPhase                         // saw the condition true without the mutex
    | Locking(phase: nat)                  // the mutex is ahead
    | Checking(phase: nat)                 // holds the mutex, at the head of the loop
    | Dozing(phase: nat)                   // holds the mutex, saw the condition true
    | Asleep(phase: nat)                   // in `condvar.wait`, mutex released
    | Woken(phase: nat)                    // to reacquire the mutex
    | Leaving(phase: nat, why: Reason)     // holds the mutex, `compare_exchange` ahead
    | Returned(phase: nat, why: Reason)

  datatype Notifier =
    | Quiet
    | Owing         // made the condition false, or may have
    | Notifying     // inside `notify_all`, the mutex is ahead

  /** A phase step: the phase left, who made it, and in which phase it had seen the condition false. */
  datatype PhaseStep = PhaseStep(phase: nat, waiter: nat, why: Reason)

  datatype Gate = Gate(
    phased: bool,                // `PhasedGate` or plain `Gate`
    cond: bool,
    phase: nat,
    holder: Option<nat>,         // the waiter that holds the mutex
    waiters: seq<Waiter>,
    notifiers: seq<Notifier>,
    steps: seq<PhaseStep>)       // history

  datatype GateAction =
    | Enter(w: nat) | LoadPhase(w: nat) | Lock(w: nat) | Check(w: nat) | Sleep(w: nat) | Wake(w: nat) | Leave(w: nat)
    | MakeTrue
    | MakeFalse(n: nat)          // the condition becomes false and n owes a notification
    | Owe(n: nat)                // n will look whether a notification is due
    | Skip(n: nat)               // n sees the condition true
    | Announce(n: nat)           // n calls `notify_all`
    | NotifyAll(n: nat)          // n gets the mutex and wakes all sleepers
    | AddWaiter | AddNotifier

  predicate HoldsMutex(x: Waiter) {
    x.Checking? || x.Dozing? || x.Leaving?
  }

  function SetWaiter(g: Gate, w: nat, x: Waiter): Gate
    requires w < |g.waiters|
  {
    g.(waiters := g.waiters[w := x])
  }

  function WaiterStep(g: Gate, a: GateAction): Option<Gate>
    requires a.Enter? || a.LoadPhase? || a.Lock? || a.Check? || a.Sleep? || a.Wake? || a.Leave?
  {
    if a.w >= |g.waiters| then None
    else
      var w, x := a.w, g.waiters[a.w];
      match a
      case Enter(_) =>
        if !x.Outside? && !x.Returned? then None
        else Some(SetWaiter(g, w, if g.cond then LoadingPhase else Returned(g.phase, FalseOnEntry)))
      case LoadPhase(_) =>
        if !x.LoadingPhase? then None else Some(SetWaiter(g, w, Locking(g.phase)))
      case Lock(_) =>
        if !(x.Locking? || x.Woken?) || g.holder.Some? then None
        else Some(SetWaiter(g, w, Checking(x.phase)).(holder := Some(w)))
      case Check(_) =>
        // `while phase == self.phase.load() && condition()`
        if !x.Checking? then None
        else if g.phased && x.phase != g.phase then Some(SetWaiter(g, w, Leaving(x.phase, PhaseMoved)))
        else if !g.cond then Some(SetWaiter(g, w, Leaving(x.phase, SawFalse(g.phase))))
        else Some(SetWaiter(g, w, Dozing(x.phase)))
      case Sleep(_) =>
        if !x.Dozing? then None else Some(SetWaiter(g, w, Asleep(x.phase)).(holder := None))
      case Wake(_) =>
        if !x.Asleep? then None else Some(SetWaiter(g, w, Woken(x.phase)))
      case Leave(_) =>
        if !x.Leaving? then None
        else
          var g' := SetWaiter(g, w, Returned(x.phase, x.why)).(holder := None);
          if g.phased && g.phase == x.phase then
            Some(g'.(phase := g.phase + 1, steps := g.steps + [PhaseStep(g.phase, w, x.why)]))
          else Some(g')
  }

  function WakeAll(waiters: seq<Waiter>): (xs: seq<Waiter>)
    ensures |xs| == |waiters|
    ensures forall w :: 0 <= w < |xs| ==> xs[w] == if waiters[w].Asleep? then Woken(waiters[w].phase) else waiters[w]
  {
    seq(|waiters|, w requires 0 <= w < |waiters| =>
      if waiters[w].Asleep? then Woken(waiters[w].phase) else waiters[w])
  }

  function NotifierStep(g: Gate, a: GateAction): Option<Gate> {
    match a
    case MakeTrue => Some(g.(cond := true))
    case MakeFalse(n) =>
      if n >= |g.notifiers| || !g.notifiers[n].Quiet? then None
      else Some(g.(cond := false, notifiers := g.notifiers[n := Owing]))
    case Owe(n) =>
      if n >= |g.notifiers| || !g.notifiers[n].Quiet? then None
      else Some(g.(notifiers := g.notifiers[n := Owing]))
    case Skip(n) =>
      if n >= |g.notifiers| || !g.notifiers[n].Owing? || !g.cond then None
      else Some(g.(notifiers := g.notifiers[n := Quiet]))
    case Announce(n) =>
      if n >= |g.notifiers| || !g.notifiers[n].Owing? then None
      else Some(g.(notifiers := g.notifiers[n := Notifying]))
    case NotifyAll(n) =>
      if n >= |g.notifiers| || !g.notifiers[n].Notifying? || g.holder.Some? then None
      else Some(g.(notifiers := g.notifiers[n := Quiet], waiters := WakeAll(g.waiters)))
    case AddWaiter => Some(g.(waiters := g.waiters + [Outside]))
    case AddNotifier => Some(g.(notifiers := g.notifiers + [Quiet]))
    case _ => None
  }

  function GateStep(g: Gate, a: GateAction): Option<Gate> {
    if a.Enter? || a.LoadPhase? || a.Lock? || a.Check? || a.Sleep? || a.Wake? || a.Leave? then WaiterStep(g, a)
    else NotifierStep(g, a)
  }

  function NewGate(phased: bool, cond: bool): Gate {
    Gate(phased, cond, 0, None, [], [], [])
  }

  function GateRun(g: Gate, actions: seq<GateAction>): Option<Gate>
    decreases |actions|
  {
    if actions == [] then Some(g)
    else
      match GateStep(g, actions[0])
      case None => None
      case Some(g') => GateRun(g', actions[1..])
  }

  ghost predicate ReachableGate(g: Gate) {
    exists phased, cond, actions :: GateRun(NewGate(phased, cond), actions) == Some(g)
  }

  // ------------------------------------------------------------------------------------------
  // Invariants
  // ------------------------------------------------------------------------------------------

  ghost predicate MutexHeldByOne(g: Gate) {
    && (forall w :: 0 <= w < |g.waiters| ==> (HoldsMutex(g.waiters[w]) <==> g.holder == Some(w)))
    && (g.holder.Some? ==> g.holder.value < |g.waiters|)
  }

  /** Some notifier has yet to look or to notify. */
  ghost predicate NotificationDue(g: Gate) {
    exists n :: 0 <= n < |g.notifiers| && !g.notifiers[n].Quiet?
  }

  ghost predicate NoLostWakeUp(g: Gate) {
    forall w :: 0 <= w < |g.waiters| && (g.waiters[w].Asleep? || g.waiters[w].Dozing?) ==> g.cond || NotificationDue(g)
  }

  /** The phase a waiter has loaded. */
  function LoadedPhase(x: Waiter): Option<nat> {
    match x
    case Outside => None
    case LoadingPhase => None
    case _ => Some(x.phase)
  }

  /** How a reason for leaving is justified. */
  predicate Justified(g: Gate, phase: nat, why: Reason) {
    match why
    case FalseOnEntry => true
    case SawFalse(during) => g.phased ==> during == phase
    case PhaseMoved => g.phased && phase < g.phase
  }

  ghost predicate PhasesJustified(g: Gate) {
    && (forall w :: 0 <= w < |g.waiters| && LoadedPhase(g.waiters[w]).Some? ==>
          LoadedPhase(g.waiters[w]).value <= g.phase)
    && (forall w :: 0 <= w < |g.waiters| && g.waiters[w].Leaving? ==>
          !g.waiters[w].why.FalseOnEntry? && Justified(g, g.waiters[w].phase, g.waiters[w].why))
    && (forall w :: 0 <= w < |g.waiters| && g.waiters[w].Returned? ==>
          Justified(g, g.waiters[w].phase, g.waiters[w].why))
    && |g.steps| == g.phase
    && (forall k :: 0 <= k < |g.steps| ==> g.steps[k].phase == k && g.steps[k].why == SawFalse(k))
  }

  ghost predicate GateInvariant(g: Gate) {
    MutexHeldByOne(g) && NoLostWakeUp(g) && PhasesJustified(g)
  }

  lemma WaiterKeepsMutex(g: Gate, a: GateAction, g': Gate)
    requires MutexHeldByOne(g) && GateStep(g, a) == Some(g')
    requires a.Enter? || a.LoadPhase? || a.Lock? || a.Check? || a.Sleep? || a.Wake? || a.Leave?
    ensures MutexHeldByOne(g')
  {
  }

  lemma NotifierKeepsMutex(g: Gate, a: GateAction, g': Gate)
    requires MutexHeldByOne(g) && NotifierStep(g, a) == Some(g')
    ensures MutexHeldByOne(g')
  {
  }

  lemma WaiterKeepsWakeUp(g: Gate, a: GateAction, g': Gate)
    requires NoLostWakeUp(g) && GateStep(g, a) == Some(g')
    requires a.Enter? || a.LoadPhase? || a.Lock? || a.Check? || a.Sleep? || a.Wake? || a.Leave?
    ensures NoLostWakeUp(g')
  {
    assert g'.notifiers == g.notifiers && g'.cond == g.cond;
    assert NotificationDue(g') == NotificationDue(g);
  }

  lemma NotifierKeepsWakeUp(g: Gate, a: GateAction, g': Gate)
    requires MutexHeldByOne(g) && NoLostWakeUp(g) && NotifierStep(g, a) == Some(g')
    ensures NoLostWakeUp(g')
  {
    if NotificationDue(g) {
      var n :| 0 <= n < |g.notifiers| && !g.notifiers[n].Quiet?;
      assert g'.notifiers[n] == g.notifiers[n] || a.Skip? || a.NotifyAll? || !g'.notifiers[n].Quiet?;
    }
    if a.MakeFalse? {
      assert !g'.notifiers[a.n].Quiet?;
    }
  }

  lemma WaiterKeepsPhases(g: Gate, a: GateAction, g': Gate)
    requires PhasesJustified(g) && GateStep(g, a) == Some(g')
    requires a.Enter? || a.LoadPhase? || a.Lock? || a.Check? || a.Sleep? || a.Wake? || a.Leave?
    ensures PhasesJustified(g')
  {
    assert g'.waiters == g.waiters[a.w := g'.waiters[a.w]];
  }

  lemma NotifierKeepsPhases(g: Gate, a: GateAction, g': Gate)
    requires PhasesJustified(g) && NotifierStep(g, a) == Some(g')
    ensures PhasesJustified(g')
  {
  }

  lemma {:induction false} RunKeepsGate(g: Gate, actions: seq<GateAction>, g': Gate)
    requires GateInvariant(g) && GateRun(g, actions) == Some(g')
    ensures GateInvariant(g')
    decreases |actions|
  {
    if actions != [] {
      var a, h := actions[0], GateStep(g, actions[0]).value;
      StepKeepsGate(g, a, h);
      RunKeepsGate(h, actions[1..], g');
    }
  }

  lemma StepKeepsGate(g: Gate, a: GateAction, g': Gate)
    requires GateInvariant(g) && GateStep(g, a) == Some(g')
    ensures GateInvariant(g')
  {
    if a.Enter? || a.LoadPhase? || a.Lock? || a.Check? || a.Sleep? || a.Wake? || a.Leave? {
      WaiterKeepsMutex(g, a, g');
      WaiterKeepsWakeUp(g, a, g');
      WaiterKeepsPhases(g, a, g');
    } else {
      NotifierKeepsMutex(g, a, g');
      NotifierKeepsWakeUp(g, a, g');
      NotifierKeepsPhases(g, a, g');
    }
  }

  lemma ReachableGateInvariant(g: Gate)
    requires ReachableGate(g)
    ensures GateInvariant(g)
  {
    var phased, cond, actions :| GateRun(NewGate(phased, cond), actions) == Some(g);
    RunKeepsGate(NewGate(phased, cond), actions, g);
  }

  // ------------------------------------------------------------------------------------------
  // Theorems
  // ------------------------------------------------------------------------------------------

  /** No wake-up is lost: while a waiter sleeps, the condition is true or a notification is due. */
  lemma SleepersAreNotForgotten(g: Gate, w: nat)
    requires ReachableGate(g) && w < |g.waiters| && g.waiters[w].Asleep?
    ensures g.cond || NotificationDue(g)
  {
    ReachableGateInvariant(g);
  }

  /** And the notification is never blocked: the notifier that owes it, or the waiter that holds
      the mutex, has a step to take. */
  lemma NotificationIsNotBlocked(g: Gate, w: nat) returns (a: GateAction)
    requires ReachableGate(g) && w < |g.waiters| && g.waiters[w].Asleep? && !g.cond
    ensures GateStep(g, a).Some?
    ensures a.Announce? || a.NotifyAll? || ((a.Check? || a.Sleep? || a.Leave?) && g.holder == Some(a.w))
  {
    ReachableGateInvariant(g);
    var n :| 0 <= n < |g.notifiers| && !g.notifiers[n].Quiet?;
    if g.notifiers[n].Owing? {
      a := Announce(n);
    } else if g.holder.None? {
      a := NotifyAll(n);
    } else {
      var h := g.holder.value;
      a := if g.waiters[h].Checking? then Check(h) else if g.waiters[h].Dozing? then Sleep(h) else Leave(h);
    }
  }

  /** Every return saw the condition false itself - on entry, or under the mutex in the phase it
      had loaded - or left because the phase had moved on; a plain `Gate` never leaves unseen. */
  lemma ReturnsAreJustified(g: Gate, w: nat)
    requires ReachableGate(g) && w < |g.waiters| && g.waiters[w].Returned?
    ensures match g.waiters[w].why
            case FalseOnEntry => true
            case SawFalse(during) => g.phased ==> during == g.waiters[w].phase
            case PhaseMoved => g.phased && g.waiters[w].phase < g.phase
  {
    ReachableGateInvariant(g);
  }

  /** A reason is what the thread has just seen: the condition false, on entry or under the mutex in the
      present phase; or a phase other than its own. */
  lemma ReasonsAreTrue(g: Gate, a: GateAction, g': Gate, w: nat)
    requires ReachableGate(g) && GateStep(g, a) == Some(g') && w < |g.waiters|
    requires g'.waiters[w] != g.waiters[w] && (g'.waiters[w].Leaving? || a == Enter(w)) && !g'.waiters[w].LoadingPhase?
    ensures match g'.waiters[w].why
            case FalseOnEntry => !g.cond && g'.waiters[w].Returned?
            case SawFalse(during) => !g.cond && during == g.phase && g.holder == Some(w)
            case PhaseMoved => g.waiters[w].Checking? && g.waiters[w].phase != g.phase
  {
    ReachableGateInvariant(g);
  }

  /** The k-th phase step is the only one that leaves phase k, and it was made by a waiter of phase
      k that saw the condition false while the phase was k. */
  lemma PhaseStepsAreJustified(g: Gate, k: nat)
    requires ReachableGate(g) && k < |g.steps|
    ensures |g.steps| == g.phase
    ensures g.steps[k].phase == k && g.steps[k].why == SawFalse(k)
    ensures forall j :: 0 <= j < |g.steps| && g.steps[j].phase == k ==> j == k
  {
    ReachableGateInvariant(g);
  }

  /** A waiter that left because the phase moved owes it to some step of its own phase, whose
      maker saw the condition false. */
  lemma PhaseMovedHasWitness(g: Gate, w: nat)
    requires ReachableGate(g) && w < |g.waiters|
    requires g.waiters[w].Returned? && g.waiters[w].why.PhaseMoved?
    ensures var p := g.waiters[w].phase;
            p < |g.steps| && g.steps[p].phase == p && g.steps[p].why == SawFalse(p)
  {
    ReachableGateInvariant(g);
  }

  // ------------------------------------------------------------------------------------------
  // The resume gate
  // ------------------------------------------------------------------------------------------

  /** The resume gate: a plain `Gate` whose condition is the `suspended` flag, whose waiters are the
      workers at the head of `next_task` and whose notifiers are threads inside `set_suspended`. */
  datatype ResumeAction =
    | Swap(n: nat, suspended: bool)      // `suspended.set(..)`, which returns the old value
    | Other(ga: GateAction)

  function ResumeStep(g: Gate, a: ResumeAction): Option<Gate> {
    match a
    case Swap(n, suspended) =>
      if n >= |g.notifiers| || !g.notifiers[n].Quiet? then None
      else if suspended == g.cond then Some(g)              // unchanged: returns false
      else if suspended then Some(g.(cond := true))         // suspending notifies nobody
      else Some(g.(cond := false, notifiers := g.notifiers[n := Owing]))
    case Other(ga) =>
      if ga.MakeTrue? || ga.MakeFalse? || ga.Owe? || ga.Skip? then None else GateStep(g, ga)
  }

  lemma ResumeStepKeepsGate(g: Gate, a: ResumeAction, g': Gate)
    requires GateInvariant(g) && ResumeStep(g, a) == Some(g')
    ensures GateInvariant(g')
  {
    if a.Other? {
      StepKeepsGate(g, a.ga, g');
    } else if a.suspended && !g.cond {
      StepKeepsGate(g, MakeTrue, g');
    } else if g' != g {
      StepKeepsGate(g, MakeFalse(a.n), g');
    }
  }

  // ------------------------------------------------------------------------------------------
  // The methods as programs
  // ------------------------------------------------------------------------------------------

  /** An action that waiter w does not take itself. */
  predicate ByOthers(a: GateAction, w: nat) {
    match a
    case Enter(v) => v != w
    case LoadPhase(v) => v != w
    case Lock(v) => v != w
    case Check(v) => v != w
    case Sleep(v) => v != w
    case Leave(v) => v != w
    case _ => true
  }

  lemma {:induction false} RunConcat(g: Gate, xs: seq<GateAction>, ys: seq<GateAction>)
    requires GateRun(g, xs).Some?
    ensures GateRun(g, xs + ys) == GateRun(GateRun(g, xs).value, ys)
    decreases |xs|
  {
    if xs == [] {
      assert xs + ys == ys;
    } else {
      assert (xs + ys)[1..] == xs[1..] + ys;
      RunConcat(GateStep(g, xs[0]).value, xs[1..], ys);
    }
  }

  /** Other threads can wake waiter w, and change nothing else about it. */
  lemma {:induction false} OthersOnlyWake(g: Gate, actions: seq<GateAction>, g': Gate, w: nat)
    requires GateRun(g, actions) == Some(g') && w < |g.waiters|
    requires forall k :: 0 <= k < |actions| ==> ByOthers(actions[k], w)
    ensures w < |g'.waiters|
    ensures g'.waiters[w] == g.waiters[w] || (g.waiters[w].Asleep? && g'.waiters[w] == Woken(g.waiters[w].phase))
    decreases |actions|
  {
    if actions != [] {
      var h := GateStep(g, actions[0]).value;
      assert w < |h.waiters|;
      forall k | 0 <= k < |actions[1..]|
        ensures ByOthers(actions[1..][k], w)
      {
        assert actions[1..][k] == actions[k + 1];
      }
      OthersOnlyWake(h, actions[1..], g', w);
    }
  }

  /** A gate shared by threads. The ghost trace records the machine actions that its methods and
      the other threads have taken, so every execution of a method is a run of the machine. */
  class SharedGate {
    var phased: bool
    var cond: bool
    var phase: nat
    var holder: Option<nat>
    var waiters: seq<Waiter>
    var notifiers: seq<Notifier>
    ghost var steps: seq<PhaseStep>
    ghost var trace: seq<GateAction>
    ghost const origin: Gate

    ghost function View(): Gate
      reads this
    {
      Gate(phased, cond, phase, holder, waiters, notifiers, steps)
    }

    ghost predicate Valid()
      reads this
    {
      GateRun(origin, trace) == Some(View()) && exists p, c :: origin == NewGate(p, c)
    }

    constructor (phased: bool, cond: bool)
      ensures Valid() && View() == NewGate(phased, cond)
    {
      this.phased, this.cond, phase, holder, waiters, notifiers := phased, cond, 0, None, [], [];
      steps, trace, origin := [], [], NewGate(phased, cond);
    }

    lemma IsReachable()
      requires Valid()
      ensures ReachableGate(View())
    {
      var p, c :| origin == NewGate(p, c);
      assert GateRun(NewGate(p, c), trace) == Some(View());
    }

    /** One atomic action. */
    method Take(a: GateAction)
      requires Valid() && GateStep(View(), a).Some?
      modifies this
      ensures Valid() && View() == GateStep(old(View()), a).value && trace == old(trace) + [a]
    {
      RunConcat(origin, trace, [a]);
      if a.Enter? || a.LoadPhase? || a.Lock? || a.Check? || a.Sleep? || a.Wake? || a.Leave? {
        TakeAsWaiter(a);
      } else {
        TakeAsOther(a);
      }
      trace := trace + [a];
    }

    method TakeAsWaiter(a: GateAction)
      requires GateStep(View(), a).Some?
      requires a.Enter? || a.LoadPhase? || a.Lock? || a.Check? || a.Sleep? || a.Wake? || a.Leave?
      modifies this`waiters, this`holder, this`steps, this`phase
      ensures View() == GateStep(old(View()), a).value
    {
      var x := waiters[a.w];
      match a
      case Enter(w) => waiters := waiters[w := if cond then LoadingPhase else Returned(phase, FalseOnEntry)];
      case LoadPhase(w) => waiters := waiters[w := Locking(phase)];
      case Lock(w) => waiters, holder := waiters[w := Checking(x.phase)], Some(w);
      case Check(w) =>
        if phased && x.phase != phase { waiters := waiters[w := Leaving(x.phase, PhaseMoved)]; }
        else if !cond { waiters := waiters[w := Leaving(x.phase, SawFalse(phase))]; }
        else { waiters := waiters[w := Dozing(x.phase)]; }
      case Sleep(w) => waiters, holder := waiters[w := Asleep(x.phase)], None;
      case Wake(w) => waiters := waiters[w := Woken(x.phase)];
      case Leave(w) =>
        waiters, holder := waiters[w := Returned(x.phase, x.why)], None;
        if phased && phase == x.phase {
          steps := steps + [PhaseStep(phase, w, x.why)];
          phase := phase + 1;
        }
    }

    method TakeAsOther(a: GateAction)
      requires GateStep(View(), a).Some?
      requires !(a.Enter? || a.LoadPhase? || a.Lock? || a.Check? || a.Sleep? || a.Wake? || a.Leave?)
      modifies this`cond, this`notifiers, this`waiters
      ensures View() == GateStep(old(View()), a).value
    {
      match a
      case MakeTrue => cond := true;
      case MakeFalse(n) => cond, notifiers := false, notifiers[n := Owing];
      case Owe(n) => notifiers := notifiers[n := Owing];
      case Skip(n) => notifiers := notifiers[n := Quiet];
      case Announce(n) => notifiers := notifiers[n := Notifying];
      case NotifyAll(n) => notifiers, waiters := notifiers[n := Quiet], WakeAll(waiters);
      case AddWaiter => waiters := waiters + [Outside];
      case AddNotifier => notifiers := notifiers + [Quiet];
      case _ =>
    }

    /** Whatever the other threads do between two atomic actions of waiter w: its callers know only
        that they took machine actions, none of them on behalf of w. */
    method Interfere(ghost w: nat)
      requires Valid()
      modifies this
      ensures Valid() && old(trace) <= trace
      ensures forall k :: |old(trace)| <= k < |trace| ==> ByOthers(trace[k], w)
    {
    }

    /** The same, with what it means for waiter w. */
    method Yield(ghost w: nat)
      requires Valid() && w < |waiters|
      modifies this
      ensures Valid() && old(trace) <= trace
      ensures w < |waiters|
      ensures waiters[w] == old(waiters[w]) || (old(waiters[w].Asleep?) && waiters[w] == Woken(old(waiters[w].phase)))
    {
      ghost var g, before := View(), trace;
      Interfere(w);
      ghost var others := trace[|before|..];
      assert trace == before + others;
      RunConcat(origin, before, others);
      OthersOnlyWake(g, others, View(), w);
    }

    /** A waiter inside the loop of `wait_while`: outside the mutex, or asleep. */
    predicate Waiting(w: nat)
      reads this
    {
      w < |waiters| && (waiters[w].Locking? || waiters[w].Asleep? || waiters[w].Woken?)
    }

    /** It is asleep, or another thread has the mutex that it needs. */
    predicate Blocked(w: nat)
      reads this
    {
      w < |waiters| && (waiters[w].Asleep? || (Waiting(w) && holder.Some?))
    }

    /** The loop condition, with the mutex held. */
    method CheckCondition(w: nat)
      requires Valid() && w < |waiters| && waiters[w].Checking?
      modifies this
      ensures Valid() && old(trace) <= trace
      ensures w < |waiters| && (waiters[w].Leaving? || waiters[w].Dozing?)
    {
      Take(Check(w));
      Yield(w);
    }

    /** Out of the loop, or to sleep; either way the mutex is released. */
    method LeaveOrSleep(w: nat)
      requires Valid() && w < |waiters| && (waiters[w].Leaving? || waiters[w].Dozing?)
      modifies this
      ensures Valid() && old(trace) <= trace
      ensures w < |waiters| && (waiters[w].Returned? || waiters[w].Asleep?) && holder.None?
    {
      if waiters[w].Leaving? {
        Take(Leave(w));
      } else {
        Take(Sleep(w));
      }
    }

    /** One look of the loop: if the waiter is not asleep and the mutex is free, check the phase
        and the condition, and leave or sleep. */
    method Look(w: nat)
      requires Valid() && Waiting(w)
      modifies this
      ensures Valid() && old(trace) <= trace
      ensures w < |waiters| && (waiters[w].Returned? || Blocked(w))
    {
      Yield(w);
      if waiters[w].Asleep? || holder.Some? {
        return;
      }
      Take(Lock(w));
      Yield(w);
      CheckCondition(w);
      LeaveOrSleep(w);
    }

    /** `wait_while`: the unlocked check, then the loop under the mutex. A thread can block forever
        on the mutex or asleep, so the method gives up after `patience` looks, if it is blocked then;
        so it has not returned. When it has, its reason for leaving this call is justified. */
    method WaitWhile(w: nat, patience: nat) returns (returned: bool, ghost entered: nat)
      requires Valid() && w < |waiters| && (waiters[w].Outside? || waiters[w].Returned?)
      modifies this
      ensures Valid() && old(trace) <= trace && w < |waiters|
      ensures returned ==> waiters[w].Returned? && Justified(View(), waiters[w].phase, waiters[w].why)
      ensures |old(trace)| <= entered < |trace| && trace[entered] == Enter(w)
      ensures !returned ==> if patience == 0 then Waiting(w) else Blocked(w)
    {
      entered := EnterGate(w);
      var looks := patience;
      while looks > 0 && !waiters[w].Returned?
        invariant Valid() && old(trace) <= trace
        invariant |old(trace)| <= entered < |trace| && trace[entered] == Enter(w)
        invariant w < |waiters| && (waiters[w].Returned? || if looks == patience then Waiting(w) else Blocked(w))
      {
        looks := looks - 1;
        Look(w);
      }
      returned := waiters[w].Returned?;
      if returned {
        IsReachable();
        ReturnsAreJustified(View(), w);
      }
    }

    /** The unlocked check, and the phase if that has seen the condition true. */
    method EnterGate(w: nat) returns (ghost entered: nat)
      requires Valid() && w < |waiters| && (waiters[w].Outside? || waiters[w].Returned?)
      modifies this
      ensures Valid() && old(trace) <= trace && w < |waiters| && (waiters[w].Returned? || Waiting(w))
      ensures |old(trace)| <= entered < |trace| && trace[entered] == Enter(w)
    {
      Yield(w);
      entered := |trace|;
      Take(Enter(w));
      if waiters[w].LoadingPhase? {
        Yield(w);
        Take(LoadPhase(w));
      }
    }

    /** `notify_all` by notifier n: once it holds the mutex, nobody is asleep. */
    method NotifyAllWaiters(n: nat) returns (done: bool)
      requires Valid() && n < |notifiers| && notifiers[n].Notifying?
      modifies this
      ensures Valid() && old(trace) <= trace
      ensures done == old(holder.None?)
      ensures done ==> forall w :: 0 <= w < |waiters| ==> !waiters[w].Asleep?
      ensures !done ==> View() == old(View())
    {
      if holder.Some? {
        return false;
      }
      Take(NotifyAll(n));
      return true;
    }
  }
}
