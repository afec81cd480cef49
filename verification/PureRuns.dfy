/** With a pure worker, retrying through the queue gives the result of a sequential retry loop. */
module PureRuns {
  import opened Wrappers
  import opened Tasks
  import opened Protocol
  import opened Places
  import opened Attempts

  /** A worker whose result depends only on the input and the attempt number. */
  type PureWorker = (Input, nat) -> ApplyResult

  /** The specification: apply the worker to one input, again and again, until the result is not
      retryable or the retries are used up. */
  function RetryLoop(f: PureWorker, cfg: Config, input: Input, attempt: nat, index: nat): Outcome
    decreases Limit(cfg) - attempt
  {
    var r := f(input, attempt);
    if r.Retryable? && CanRetry(cfg, attempt) then RetryLoop(f, cfg, r.retryInput, attempt + 1, index)
    else FromWorkerResult(r, index)
  }

  /** What the loop makes of the input that was issued with index i. */
  function Expected(f: PureWorker, cfg: Config, log: seq<Issue>, i: nat): Outcome
    requires i < |log|
  {
    RetryLoop(f, cfg, log[i].input, 0, i)
  }

  /** A live task is a loop in the middle of its run. */
  function PureTask(f: PureWorker, cfg: Config, log: seq<Issue>): Task -> bool {
    (t: Task) => t.index < |log| && RetryLoop(f, cfg, t.input, t.attempt, t.index) == Expected(f, cfg, log, t.index)
  }

  /** An outcome that a drain made of a task: its input resumes the loop where it stopped. */
  ghost predicate Interrupted(f: PureWorker, cfg: Config, log: seq<Issue>, o: Outcome) {
    o.Unprocessed? && o.index < |log| &&
    exists attempt: nat :: RetryLoop(f, cfg, o.input, attempt, o.index) == Expected(f, cfg, log, o.index)
  }

  ghost predicate PureOutcome(f: PureWorker, cfg: Config, log: seq<Issue>, drained: bool, o: Outcome) {
    o.index < |log| && (o == Expected(f, cfg, log, o.index) || (drained && Interrupted(f, cfg, log, o)))
  }

  ghost function PureRule(f: PureWorker, cfg: Config, log: seq<Issue>, drained: bool): Rule {
    Rule((o: Outcome, tx: Option<nat>) => PureOutcome(f, cfg, log, false, o),
         (p: Parcel) => PureOutcome(f, cfg, log, drained, p.outcome),
         (o: Outcome) => PureOutcome(f, cfg, log, drained, o))
  }

  ghost predicate Pure(s: State, f: PureWorker) {
    && |s.hist.log| == s.queues.next
    && EveryTask(s, PureTask(f, s.cfg, s.hist.log))
    && EveryOutcome(s, PureRule(f, s.cfg, s.hist.log, s.hist.everDrained))
    && (!s.hist.everDrained ==> s.drainer.Resting? && !s.flags.poisoned && NobodyRejects(s))
  }

  ghost predicate NobodyRejects(s: State) {
    forall u :: 0 <= u < |s.subs| ==> !s.subs[u].mode.Rejecting?
  }

  /** The action is one that the pure worker can take. */
  predicate ActsPurely(s: State, a: Action, f: PureWorker) {
    a.OfWorker? && a.wa.ApplyReturns? && a.w < |s.workers| && s.workers[a.w].Executing? ==>
      a.wa.result == f(s.workers[a.w].task.input, s.workers[a.w].task.attempt)
  }

  lemma WorkerActsPurely(s: State, w: nat, a: WorkerAction, reply: Reply, s': State, f: PureWorker)
    requires Pure(s, f) && ActsPurely(s, OfWorker(w, a), f) && WorkerStep(s, w, a, reply) == Some(s')
    ensures s'.hist.log == s.hist.log && s'.hist.everDrained == s.hist.everDrained
    ensures s'.subs == s.subs && s'.drainer == s.drainer && s'.flags.poisoned == s.flags.poisoned
    ensures s'.queues.next == s.queues.next && s'.cfg == s.cfg
    ensures NewTasksFit(s, OfWorker(w, a), s', PureTask(f, s.cfg, s.hist.log))
    ensures NewOutcomesFit(s, OfWorker(w, a), s', PureRule(f, s.cfg, s.hist.log, s.hist.everDrained))
  {
    WorkerFrame(s, w, a, reply, s');
    if a.ApplyReturns? {
      ApplyIsPure(s, w, a, reply, s', f);
    }
  }

  /** One turn of the loop. */
  lemma ApplyIsPure(s: State, w: nat, a: WorkerAction, reply: Reply, s': State, f: PureWorker)
    requires ActsPurely(s, OfWorker(w, a), f)
    requires a.ApplyReturns? && w < |s.workers| && ExecuteStep(s, w, a, reply) == Some(s')
    requires HoldsTask(s.workers[w]) ==> PureTask(f, s.cfg, s.hist.log)(s.workers[w].task)
    ensures s'.workers[w].Requeueing? ==> PureTask(f, s.cfg, s.hist.log)(s'.workers[w].task)
    ensures s'.workers[w].Delivering? ==> PureOutcome(f, s.cfg, s.hist.log, false, s'.workers[w].outcome)
  {
  }

  lemma SubmitterLeavesRest(s: State, u: nat, a: SubmitterAction, reply: Reply, s': State)
    requires SubmitterStep(s, u, a, reply) == Some(s') && |s.hist.log| == s.queues.next
    ensures s.hist.log <= s'.hist.log && s'.hist.everDrained == s.hist.everDrained
    ensures s'.drainer == s.drainer && s'.flags.poisoned == s.flags.poisoned
    ensures |s'.hist.log| == s'.queues.next && s'.cfg == s.cfg
    ensures !s.flags.poisoned && NobodyRejects(s) ==> NobodyRejects(s')
  {
  }

  lemma NewTasksArePure(s: State, u: nat, a: SubmitterAction, reply: Reply, s': State, f: PureWorker)
    requires SubmitterStep(s, u, a, reply) == Some(s') && |s.hist.log| == s.queues.next
    ensures NewTasksFit(s, OfSubmitter(u, a), s', PureTask(f, s.cfg, s'.hist.log))
  {
    if a.TakeIndices? {
      var sub := s.subs[u];
      var log' := s.hist.log + Issues(sub.counted, sub.tx);
      var ts := NewTasks(s.queues.next, sub.counted, sub.tx);
      assert s'.hist.log == log';
      forall t | t in ts
        ensures PureTask(f, s.cfg, log')(t)
      {
        var k :| 0 <= k < |ts| && ts[k] == t;
        assert log'[t.index] == Issue(sub.counted[k], sub.tx);
      }
    }
  }

  lemma SubmitterActsPurely(s: State, u: nat, a: SubmitterAction, reply: Reply, s': State, f: PureWorker)
    requires Pure(s, f) && SubmitterStep(s, u, a, reply) == Some(s')
    ensures NewOutcomesFit(s, OfSubmitter(u, a), s', PureRule(f, s.cfg, s.hist.log, s.hist.everDrained))
  {
  }

  lemma ControlActsPurely(s: State, a: ControlAction, s': State, f: PureWorker)
    requires Pure(s, f) && ControlStep(s, a) == Some(s')
    ensures s'.hist.log == s.hist.log && (s.hist.everDrained ==> s'.hist.everDrained)
    ensures s'.queues.next == s.queues.next && s'.cfg == s.cfg
    ensures !s'.hist.everDrained ==> s'.drainer.Resting? && !s'.flags.poisoned && NobodyRejects(s')
    ensures NewOutcomesFit(s, OfControl(a), s', PureRule(f, s.cfg, s.hist.log, s.hist.everDrained))
  {
  }

  lemma LongerLogKeepsPureTasks(s: State, f: PureWorker, cfg: Config, log: seq<Issue>, log': seq<Issue>)
    requires EveryTask(s, PureTask(f, cfg, log)) && log <= log'
    ensures EveryTask(s, PureTask(f, cfg, log'))
  {
  }

  lemma LongerLogKeepsPureOutcome(
    f: PureWorker, cfg: Config, log: seq<Issue>, log': seq<Issue>, b: bool, b': bool, o: Outcome)
    requires PureOutcome(f, cfg, log, b, o) && log <= log' && (b ==> b')
    ensures PureOutcome(f, cfg, log', b', o)
  {
  }

  lemma LongerLogKeepsPureOutcomes(
    s: State, f: PureWorker, cfg: Config, log: seq<Issue>, log': seq<Issue>, b: bool, b': bool)
    requires EveryOutcome(s, PureRule(f, cfg, log, b)) && log <= log' && (b ==> b')
    ensures EveryOutcome(s, PureRule(f, cfg, log', b'))
  {
    forall o | PureOutcome(f, cfg, log, b, o)
      ensures PureOutcome(f, cfg, log', b', o)
    {
      LongerLogKeepsPureOutcome(f, cfg, log, log', b, b', o);
    }
    forall o | PureOutcome(f, cfg, log, false, o)
      ensures PureOutcome(f, cfg, log', false, o)
    {
      LongerLogKeepsPureOutcome(f, cfg, log, log', false, false, o);
    }
  }

  lemma EffectKeepsPure(s: State, a: Action, reply: Reply, s': State, f: PureWorker)
    requires Pure(s, f) && ActsPurely(s, a, f) && Effect(s, a, reply) == Some(s')
    ensures Pure(s', f)
  {
    match a {
      case OfWorker(w, wa) => WorkerActsPurely(s, w, wa, reply, s', f);
      case OfSubmitter(u, ua) =>
        SubmitterLeavesRest(s, u, ua, reply, s');
        NewTasksArePure(s, u, ua, reply, s', f);
        SubmitterActsPurely(s, u, ua, reply, s', f);
      case OfControl(ca) => ControlActsPurely(s, ca, s', f);
    }
    LongerLogKeepsPureTasks(s, f, s.cfg, s.hist.log, s'.hist.log);
    EffectKeepsTasks(s, a, reply, s', PureTask(f, s.cfg, s'.hist.log));
    EffectKeepsOutcomes(s, a, reply, s', PureRule(f, s.cfg, s.hist.log, s.hist.everDrained));
    LongerLogKeepsPureOutcomes(s', f, s.cfg, s.hist.log, s'.hist.log, s.hist.everDrained, s'.hist.everDrained);
  }
}
