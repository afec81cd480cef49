/** Where tasks and outcomes come from: every task and outcome carries the sender its index was
    issued with, and is stored only if it has no living receiver. */
module Provenance {
  import opened Wrappers
  import opened Tasks
  import opened Protocol
  import opened Places

  /** The sender recorded when the index was issued. */
  function TaskRule(log: seq<Issue>): Task -> bool {
    (t: Task) => t.index < |log| && log[t.index].tx == t.tx
  }

  /** No outcome channel to send to: none was given, or its receiver is gone. */
  predicate Homeless(log: seq<Issue>, hungUp: set<nat>, i: nat) {
    i < |log| && (log[i].tx.None? || log[i].tx.value in hungUp)
  }

  function OutcomeRule(log: seq<Issue>, hungUp: set<nat>): Rule {
    Rule((o: Outcome, tx: Option<nat>) => o.index < |log| && log[o.index].tx == tx,
         (p: Parcel) => p.outcome.index < |log| && log[p.outcome.index].tx == Some(p.tx),
         (o: Outcome) => Homeless(log, hungUp, o.index))
  }

  ghost predicate Traced(s: State) {
    && |s.hist.log| == s.queues.next
    && EveryTask(s, TaskRule(s.hist.log))
    && EveryOutcome(s, OutcomeRule(s.hist.log, s.outlet.hungUp))
    && (forall i :: i in s.hist.taken ==> Homeless(s.hist.log, s.outlet.hungUp, i))
  }

  lemma WorkerKeepsTrace(s: State, w: nat, a: WorkerAction, reply: Reply, s': State)
    requires Traced(s) && WorkerStep(s, w, a, reply) == Some(s')
    ensures s'.hist.log == s.hist.log && s'.outlet.hungUp == s.outlet.hungUp
    ensures s'.queues.next == s.queues.next && s'.hist.taken == s.hist.taken
    ensures NewTasksFit(s, OfWorker(w, a), s', TaskRule(s.hist.log))
    ensures NewOutcomesFit(s, OfWorker(w, a), s', OutcomeRule(s.hist.log, s.outlet.hungUp))
  {
    WorkerFrame(s, w, a, reply, s');
    if a.ApplyReturns? {
      ApplyKeepsTrace(s, w, a, reply, s');
    }
  }

  /** What comes out of an execution has the index and the sender of the task. */
  lemma ApplyKeepsTrace(s: State, w: nat, a: WorkerAction, reply: Reply, s': State)
    requires a.ApplyReturns? && w < |s.workers| && ExecuteStep(s, w, a, reply) == Some(s')
    requires HoldsTask(s.workers[w]) ==> TaskRule(s.hist.log)(s.workers[w].task)
    ensures s'.workers[w].Requeueing? ==> TaskRule(s.hist.log)(s'.workers[w].task)
    ensures s'.workers[w].Delivering? ==>
              OutcomeRule(s.hist.log, s.outlet.hungUp).onWay(s'.workers[w].outcome, s'.workers[w].tx)
  {
  }

  lemma SubmitterKeepsTrace(s: State, u: nat, a: SubmitterAction, reply: Reply, s': State)
    requires Traced(s) && SubmitterStep(s, u, a, reply) == Some(s')
    ensures s.hist.log <= s'.hist.log && s'.outlet.hungUp == s.outlet.hungUp
    ensures |s'.hist.log| == s'.queues.next && s'.hist.taken == s.hist.taken
    ensures NewTasksFit(s, OfSubmitter(u, a), s', TaskRule(s'.hist.log))
    ensures NewOutcomesFit(s, OfSubmitter(u, a), s', OutcomeRule(s.hist.log, s.outlet.hungUp))
  {
  }

  lemma ControlKeepsTrace(s: State, a: ControlAction, s': State)
    requires Traced(s) && ControlStep(s, a) == Some(s')
    ensures s'.hist.log == s.hist.log && s.outlet.hungUp <= s'.outlet.hungUp
    ensures s'.queues.next == s.queues.next
    ensures forall i :: i in s'.hist.taken ==> Homeless(s.hist.log, s.outlet.hungUp, i)
    ensures NewOutcomesFit(s, OfControl(a), s', OutcomeRule(s.hist.log, s.outlet.hungUp))
  {
    TurnedFit(s, OfControl(a));
    ControlTakes(s, a, s');
  }

  lemma ControlTakes(s: State, a: ControlAction, s': State)
    requires Traced(s) && ControlStep(s, a) == Some(s')
    ensures forall i :: i in s'.hist.taken ==> Homeless(s.hist.log, s.outlet.hungUp, i)
  {
  }

  /** The task in hand of a drain carries its sender. */
  lemma TurnedFit(s: State, a: Action)
    requires Traced(s) && a.OfControl?
    ensures var r := OutcomeRule(s.hist.log, s.outlet.hungUp);
            (forall o, tx :: r.onWay(o, tx) ==> Deliverable(s, r, o, tx)) &&
            (TurnedUnprocessed(s, a).Some? ==>
               var t := TurnedUnprocessed(s, a).value; Deliverable(s, r, IntoUnprocessed(t), t.tx))
  {
  }

  lemma LongerLogKeepsTasks(s: State, log: seq<Issue>, log': seq<Issue>)
    requires EveryTask(s, TaskRule(log)) && log <= log'
    ensures EveryTask(s, TaskRule(log'))
  {
  }

  lemma LongerLogKeepsOutcomes(s: State, log: seq<Issue>, log': seq<Issue>, hungUp: set<nat>, hungUp': set<nat>)
    requires EveryOutcome(s, OutcomeRule(log, hungUp)) && log <= log' && hungUp <= hungUp'
    ensures EveryOutcome(s, OutcomeRule(log', hungUp'))
  {
  }

  lemma EffectKeepsTrace(s: State, a: Action, reply: Reply, s': State)
    requires Traced(s) && Effect(s, a, reply) == Some(s')
    ensures Traced(s')
  {
    match a {
      case OfWorker(w, wa) => WorkerKeepsTrace(s, w, wa, reply, s');
      case OfSubmitter(u, ua) => SubmitterKeepsTrace(s, u, ua, reply, s');
      case OfControl(ca) => ControlKeepsTrace(s, ca, s');
    }
    LongerLogKeepsTasks(s, s.hist.log, s'.hist.log);
    EffectKeepsTasks(s, a, reply, s', TaskRule(s'.hist.log));
    EffectKeepsOutcomes(s, a, reply, s', OutcomeRule(s.hist.log, s.outlet.hungUp));
    LongerLogKeepsOutcomes(s', s.hist.log, s'.hist.log, s.outlet.hungUp, s'.outlet.hungUp);
  }
}
