/** Properties of every task and of every outcome in the hive, wherever it is, and what an action
    must establish to keep them. */
module Places {
  import opened Wrappers
  import opened Tasks
  import opened Protocol

  ghost predicate EveryTask(s: State, p: Task -> bool) {
    && (forall u, k :: 0 <= u < |s.subs| && 0 <= k < |s.subs[u].ready| ==> p(s.subs[u].ready[k]))
    && (forall k :: 0 <= k < |s.queues.channel| ==> p(s.queues.channel[k]))
    && (forall k :: 0 <= k < |s.queues.retry| ==> p(s.queues.retry[k].task))
    && (forall w :: 0 <= w < |s.workers| && HoldsTask(s.workers[w]) ==> p(s.workers[w].task))
    && (InHand(s.drainer).Some? ==> p(InHand(s.drainer).value))
  }

  /** The tasks an action creates: new ones, or one that goes round again. */
  ghost predicate NewTasksFit(s: State, a: Action, s': State, p: Task -> bool) {
    && (a.OfWorker? && a.wa.ApplyReturns? && a.w < |s'.workers| && s'.workers[a.w].Requeueing? ==>
          p(s'.workers[a.w].task))
    && (a.OfSubmitter? && a.ua.TakeIndices? && a.u < |s.subs| ==>
          forall t :: t in NewTasks(s.queues.next, s.subs[a.u].counted, s.subs[a.u].tx) ==> p(t))
  }

  /** What no worker touches. */
  lemma WorkerFrame(s: State, w: nat, a: WorkerAction, reply: Reply, s': State)
    requires WorkerStep(s, w, a, reply) == Some(s')
    ensures s'.hist.log == s.hist.log && s'.hist.taken == s.hist.taken && s'.hist.everDrained == s.hist.everDrained
    ensures s'.queues.next == s.queues.next && s'.outlet.hungUp == s.outlet.hungUp
    ensures s'.subs == s.subs && s'.drainer == s.drainer && s'.flags.poisoned == s.flags.poisoned && s'.cfg == s.cfg
  {
  }

  lemma FetchKeepsTasks(s: State, w: nat, a: WorkerAction, reply: Reply, s': State, p: Task -> bool)
    requires EveryTask(s, p)
    requires w < |s.workers| && FetchStep(s, w, a, reply) == Some(s')
    ensures EveryTask(s', p)
  {
  }

  lemma RetryKeepsTasks(s: State, w: nat, a: WorkerAction, s': State, p: Task -> bool)
    requires EveryTask(s, p)
    requires w < |s.workers| && RetryStep(s, w, a) == Some(s')
    ensures EveryTask(s', p)
  {
  }

  lemma ExecuteKeepsTasks(s: State, w: nat, a: WorkerAction, reply: Reply, s': State, p: Task -> bool)
    requires EveryTask(s, p)
    requires w < |s.workers| && ExecuteStep(s, w, a, reply) == Some(s')
    requires NewTasksFit(s, OfWorker(w, a), s', p)
    ensures EveryTask(s', p)
  {
  }

  lemma FinishKeepsTasks(s: State, w: nat, a: WorkerAction, reply: Reply, s': State, p: Task -> bool)
    requires EveryTask(s, p)
    requires w < |s.workers| && FinishStep(s, w, a, reply) == Some(s')
    ensures EveryTask(s', p)
  {
  }

  lemma SubmitterKeepsTasks(s: State, u: nat, a: SubmitterAction, reply: Reply, s': State, p: Task -> bool)
    requires EveryTask(s, p)
    requires SubmitterStep(s, u, a, reply) == Some(s')
    requires NewTasksFit(s, OfSubmitter(u, a), s', p)
    ensures EveryTask(s', p)
  {
  }

  lemma ControlKeepsTasks(s: State, a: ControlAction, s': State, p: Task -> bool)
    requires EveryTask(s, p)
    requires ControlStep(s, a) == Some(s')
    ensures EveryTask(s', p)
  {
  }

  lemma EffectKeepsTasks(s: State, a: Action, reply: Reply, s': State, p: Task -> bool)
    requires EveryTask(s, p)
    requires Effect(s, a, reply) == Some(s')
    requires NewTasksFit(s, a, s', p)
    ensures EveryTask(s', p)
  {
    match a
    case OfWorker(w, wa) =>
      if IsFetch(wa) { FetchKeepsTasks(s, w, wa, reply, s', p); }
      else if IsRetry(wa) { RetryKeepsTasks(s, w, wa, s', p); }
      else if IsExecute(wa) { ExecuteKeepsTasks(s, w, wa, reply, s', p); }
      else { FinishKeepsTasks(s, w, wa, reply, s', p); }
    case OfSubmitter(u, ua) => SubmitterKeepsTasks(s, u, ua, reply, s', p);
    case OfControl(ca) => ControlKeepsTasks(s, ca, s', p);
  }

  // ------------------------------------------------------------------------------------------
  // Outcomes
  // ------------------------------------------------------------------------------------------

  /** A property of outcomes: of one on its way with its sender, of one sent, of one stored. */
  datatype Rule = Rule(onWay: (Outcome, Option<nat>) -> bool, sent: Parcel -> bool, stored: Outcome -> bool)

  ghost predicate EveryOutcome(s: State, r: Rule) {
    && (forall w :: 0 <= w < |s.workers| && s.workers[w].Delivering? ==>
          r.onWay(s.workers[w].outcome, s.workers[w].tx))
    && (forall k :: 0 <= k < |s.outlet.sent| ==> r.sent(s.outlet.sent[k]))
    && (forall i :: i in s.outlet.store.Keys ==> s.outlet.store[i].index == i && r.stored(s.outlet.store[i]))
  }

  /** Delivering an outcome keeps the rule. */
  ghost predicate Deliverable(s: State, r: Rule, o: Outcome, tx: Option<nat>) {
    if tx.Some? && tx.value !in s.outlet.hungUp then r.sent(Parcel(tx.value, o)) else r.stored(o)
  }

  /** The task that an action turns into an Unprocessed outcome. */
  function TurnedUnprocessed(s: State, a: Action): Option<Task> {
    if a.OfSubmitter? && a.ua.RejectTask? && a.u < |s.subs| && s.subs[a.u].ready != [] then
      Some(s.subs[a.u].ready[0])
    else if a.OfControl? && a.ca.DrainDeliver? then InHand(s.drainer)
    else None
  }

  ghost predicate NewOutcomesFit(s: State, a: Action, s': State, r: Rule) {
    && (a.OfWorker? && a.wa.ApplyReturns? && a.w < |s'.workers| && s'.workers[a.w].Delivering? ==>
          r.onWay(s'.workers[a.w].outcome, s'.workers[a.w].tx))
    && (forall o, tx :: r.onWay(o, tx) ==> Deliverable(s, r, o, tx))
    && (TurnedUnprocessed(s, a).Some? ==>
          var t := TurnedUnprocessed(s, a).value; Deliverable(s, r, IntoUnprocessed(t), t.tx))
  }

  lemma WorkerKeepsOutcomes(s: State, w: nat, a: WorkerAction, reply: Reply, s': State, r: Rule)
    requires EveryOutcome(s, r)
    requires WorkerStep(s, w, a, reply) == Some(s')
    requires NewOutcomesFit(s, OfWorker(w, a), s', r)
    ensures EveryOutcome(s', r)
  {
    assert s'.workers == s.workers[w := s'.workers[w]];
    if a.DeliverOutcome? {
      assert Deliverable(s, r, s.workers[w].outcome, s.workers[w].tx);
    }
  }

  lemma SubmitterKeepsOutcomes(s: State, u: nat, a: SubmitterAction, reply: Reply, s': State, r: Rule)
    requires EveryOutcome(s, r)
    requires SubmitterStep(s, u, a, reply) == Some(s')
    requires NewOutcomesFit(s, OfSubmitter(u, a), s', r)
    ensures EveryOutcome(s', r)
  {
  }

  lemma ControlKeepsOutcomes(s: State, a: ControlAction, s': State, r: Rule)
    requires EveryOutcome(s, r)
    requires ControlStep(s, a) == Some(s')
    requires NewOutcomesFit(s, OfControl(a), s', r)
    ensures EveryOutcome(s', r)
  {
  }

  lemma EffectKeepsOutcomes(s: State, a: Action, reply: Reply, s': State, r: Rule)
    requires EveryOutcome(s, r)
    requires Effect(s, a, reply) == Some(s')
    requires NewOutcomesFit(s, a, s', r)
    ensures EveryOutcome(s', r)
  {
    match a
    case OfWorker(w, wa) => WorkerKeepsOutcomes(s, w, wa, reply, s', r);
    case OfSubmitter(u, ua) => SubmitterKeepsOutcomes(s, u, ua, reply, s', r);
    case OfControl(ca) => ControlKeepsOutcomes(s, ca, s', r);
  }
}
