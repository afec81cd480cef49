/** A hive in service: what a thread that holds a handle can see of it, and what it can rely on. */
module Service {
  import opened Wrappers
  import opened Protocol
  import opened CounterLaw
  import Counter
  import Theorems

  /** The hive is not poisoned and some task sender is alive, as long as a handle is; no submitting
      call or retry has panicked for a full counter; and there are at most 65535 worker threads. */
  predicate InService(s: State) {
    !s.flags.poisoned && s.flags.connected && !s.hist.overflowed && |s.workers| <= MAX_WORKERS
  }

  /** In service no worker is on its way out, and every finish had its own transfer. */
  ghost predicate Tidy(s: State) {
    InService(s) ==> s.hist.unmatched == 0 && forall w :: 0 <= w < |s.workers| ==> !s.workers[w].Exiting?
  }

  lemma FetchKeepsTidy(s: State, w: nat, a: WorkerAction, reply: Reply, t: State)
    requires w < |s.workers| && FetchStep(s, w, a, reply) == Some(t) && InService(t) && (a.TransferTask? ==> reply.Fine?)
    requires forall v :: 0 <= v < |s.workers| ==> !s.workers[v].Exiting?
    ensures t.hist == s.hist && forall v :: 0 <= v < |t.workers| ==> !t.workers[v].Exiting?
  {
  }

  lemma RestKeepsTidy(s: State, w: nat, a: WorkerAction, reply: Reply, t: State)
    requires WorkerStep(s, w, a, reply) == Some(t) && !IsFetch(a) && AllCounted(s)
    requires forall v :: 0 <= v < |s.workers| ==> !s.workers[v].Exiting?
    ensures t.hist.unmatched == s.hist.unmatched && forall v :: 0 <= v < |t.workers| ==> !t.workers[v].Exiting?
  {
    assert t.workers == s.workers[w := t.workers[w]];
  }

  lemma OthersKeepTidy(s: State, a: Action, reply: Reply, t: State)
    requires Effect(s, a, reply) == Some(t) && !a.OfWorker?
    requires forall v :: 0 <= v < |s.workers| ==> !s.workers[v].Exiting?
    ensures t.hist.unmatched == s.hist.unmatched && forall v :: 0 <= v < |t.workers| ==> !t.workers[v].Exiting?
  {
  }

  lemma WorkerKeepsService(s: State, w: nat, a: WorkerAction, reply: Reply, t: State)
    requires WorkerStep(s, w, a, reply) == Some(t) && InService(t)
    ensures InService(s)
  {
  }

  lemma OthersKeepService(s: State, a: Action, reply: Reply, t: State)
    requires Effect(s, a, reply) == Some(t) && !a.OfWorker? && InService(t)
    ensures InService(s)
  {
  }

  /** Leaving service is for good. */
  lemma ServiceBackwards(s: State, a: Action, reply: Reply, t: State)
    requires Effect(s, a, reply) == Some(t) && InService(t)
    ensures InService(s)
  {
    if a.OfWorker? {
      WorkerKeepsService(s, a.w, a.wa, reply, t);
    } else {
      OthersKeepService(s, a, reply, t);
    }
  }

  lemma StepKeepsTidy(s: State, a: Action, s': State)
    requires Theorems.Invariant(s) && Tidy(s) && Step(s, a) == Some(s')
    ensures Tidy(s')
  {
    var reply := ReplyTo(s.num, CallOf(a));
    var t := Effect(s, a, reply).value;
    if InService(t) {
      ServiceBackwards(s, a, reply, t);
      if MovesActive(a) {
        EffectEnabled(s, a, reply);
        ActiveCallsSucceed(s, a);
      }
      match a
      case OfWorker(w, wa) =>
        if IsFetch(wa) { FetchKeepsTidy(s, w, wa, reply, t); }
        else { RestKeepsTidy(s, w, wa, reply, t); }
      case OfSubmitter(_, _) => OthersKeepTidy(s, a, reply, t);
      case OfControl(_) => OthersKeepTidy(s, a, reply, t);
    }
  }

  lemma {:induction false} RunKeepsTidy(s: State, actions: seq<Action>, s': State)
    requires Theorems.Invariant(s) && Tidy(s) && Run(s, actions) == Some(s')
    ensures Tidy(s')
    decreases |actions|
  {
    if actions != [] {
      var t := Step(s, actions[0]).value;
      Theorems.StepKeepsInvariant(s, actions[0], t);
      StepKeepsTidy(s, actions[0], t);
      RunKeepsTidy(t, actions[1..], s');
    }
  }

  /** A hive in service is orderly: no clean exit has happened. */
  lemma InServiceIsOrderly(s: State)
    requires Reachable(s) && InService(s)
    ensures Orderly(s)
  {
    var cfg, n, actions :| Run(Init(cfg, n), actions) == Some(s);
    Theorems.InitHolds(cfg, n);
    RunKeepsTidy(Init(cfg, n), actions, s);
  }

  // ------------------------------------------------------------------------------------------
  // The main results for a hive in service
  // ------------------------------------------------------------------------------------------

  /** In service the counter reads exactly the queued and the active totals, and when it reads (0, 0)
      every index ever issued has ended. */
  lemma JoinIsSoundInService(s: State)
    requires Reachable(s) && InService(s)
    ensures s.num.Read() == (Queued(s), Active(s))
    ensures s.num.Read() == (0, 0) ==> Theorems.EverythingEnded(s)
  {
    InServiceIsOrderly(s);
    Theorems.ExactCounterLaw(s);
    if s.num.Read() == (0, 0) {
      Theorems.JoinSeesEverythingEnded(s);
    }
  }

  lemma NoExitInService(s: State, a: Action)
    requires Tidy(s) && InService(s) && Step(s, a).Some?
    ensures !(a.OfWorker? && a.wa.ExitFinish?)
  {
  }

  /** In service no `transfer` and no `finish_task` reports an error - a cancelled sentinel's is not
      reached at all - and an increment does exactly when the left half is full. */
  lemma CountsInService(s: State, a: Action)
    requires Reachable(s) && InService(s) && CallOf(a).Some? && Step(s, a).Some?
    ensures CallOf(a).value.IncrementLeft? ==>
              (ReplyTo(s.num, CallOf(a)).Fine? <==> Queued(s) + CallOf(a).value.n <= Counter.LMax(s.num.bits))
    ensures !CallOf(a).value.IncrementLeft? ==> ReplyTo(s.num, CallOf(a)).Fine?
    ensures !(a.OfWorker? && a.wa.ExitFinish?)
  {
    var cfg, n, actions :| Run(Init(cfg, n), actions) == Some(s);
    Theorems.InitHolds(cfg, n);
    RunKeepsTidy(Init(cfg, n), actions, s);
    assert Tidy(s);
    NoExitInService(s, a);
    if CallOf(a).value.IncrementLeft? {
      Theorems.IncrementFailsIffFull(s, a);
    } else {
      Theorems.NoCounterErrors(s, a);
    }
  }
}
