/** The branches of `Protocol.Step`, one lemma each.

    Each says what one action does to the whole state when its thread stands where the code has it.
    They follow from the definition alone; the programs in `Hive` use them so that no proof about a
    program unfolds the whole step function. */
module Steps {
  import opened Wrappers
  import opened Tasks
  import opened Protocol
  import opened Counter

  lemma UpdateStep(s: State, w: nat, task: Task, next: Option<nat>)
    requires w < |s.workers| && s.workers[w] == Popped(task) && next == Earliest(s.queues.retry) && !s.flags.aborted
    ensures Step(s, OfWorker(w, UpdateAfterPop)) == Some(
              s.(workers := s.workers[w := Holding(task)],
                 queues := s.queues.(cached := Publish(s.queues.cached, next), owner := None)))
  {
  }

  lemma PublishStep(s: State, w: nat, until: nat)
    requires w < |s.workers| && s.workers[w] == RetryPushed(until) && !s.flags.aborted
    ensures Step(s, OfWorker(w, PublishRetry)) == Some(
              s.(workers := s.workers[w := Delivered],
                 queues := s.queues.(cached := Publish(s.queues.cached, Some(until)), owner := None)))
  {
  }

  lemma ReturnStep(s: State, w: nat, task: Task, result: ApplyResult)
    requires w < |s.workers| && s.workers[w] == Executing(task) && !s.flags.aborted
    ensures var (after, lost) := AfterApply(s.cfg, task, result);
            Step(s, OfWorker(w, ApplyReturns(result))) == Some(
              s.(workers := s.workers[w := after],
                 hist := s.hist.(
                   applies := s.hist.applies + multiset{task.index},
                   panicked := s.hist.panicked + if lost then multiset{task.index} else multiset{})))
  {
  }

  lemma TransferStepOf(s: State, w: nat, task: Task)
    requires w < |s.workers| && !s.flags.aborted && s.workers[w] == Holding(task)
    ensures var num, fine := s.num.After(Call.Transfer(1)), !s.num.Fails(Call.Transfer(1));
            Step(s, OfWorker(w, TransferTask)) == Some(
              if fine then s.(num := num, workers := s.workers[w := Executing(task)])
              else
                s.(num := num, workers := s.workers[w := Exiting],
                   hist := s.hist.(failed := s.hist.failed + 1, dropped := s.hist.dropped + multiset{task.index})))
  {
  }

  lemma CountRetryStepOf(s: State, w: nat, task: Task, delay: nat) returns (hist: History)
    requires w < |s.workers| && !s.flags.aborted && s.workers[w] == Requeueing(task, delay) && s.queues.owner.None?
    ensures var num, fine := s.num.After(Call.IncrementLeft(1)), !s.num.Fails(Call.IncrementLeft(1));
            Step(s, OfWorker(w, CountRetry)) == Some(
              if fine then
                s.(num := num, workers := s.workers[w := RetryCounted(task, delay)],
                   queues := s.queues.(owner := Some(WorkerOwner(w))))
              else s.(num := num, workers := s.workers[w := Unwinding(true)], hist := hist))
    ensures hist.overflowed
  {
    hist := s.hist.(
      leaked := s.hist.leaked + (if ReplyTo(s.num, Some(Call.IncrementLeft(1))).Wrong? then 1 else 0),
      overflowed := true,
      panicked := s.hist.panicked + multiset{task.index});
  }

  lemma PanicStep(s: State, w: nat, task: Task)
    requires w < |s.workers| && !s.flags.aborted && s.workers[w] == Executing(task)
    ensures Step(s, OfWorker(w, ApplyPanics)) == Some(
              s.(workers := s.workers[w := Unwinding(true)],
                 hist := s.hist.(
                   applies := s.hist.applies + multiset{task.index},
                   panicked := s.hist.panicked + multiset{task.index})))
  {
  }

  lemma PushStep(s: State, w: nat, task: Task, delay: nat)
    requires w < |s.workers| && !s.flags.aborted && s.workers[w] == RetryCounted(task, delay)
    ensures var until := s.flags.now + delay;
            Step(s, OfWorker(w, PushRetry)) == Some(
              s.(workers := s.workers[w := RetryPushed(until)],
                 queues := s.queues.(retry := s.queues.retry + [Delayed(task, until)])))
  {
  }

  lemma SpawnStep(s: State, w: nat, spawned: bool)
    requires w < |s.workers| && !s.flags.aborted && s.workers[w] == Respawning && (spawned ==> !s.flags.poisoned)
    ensures Step(s, OfWorker(w, SentinelSpawn(spawned))) == Some(
              s.(workers := s.workers[w := if spawned then AtGate else Dead]))
  {
  }

  /** Where a worker goes after a notification. */
  function PcAfter(after: After): Worker {
    match after case Loop => AtGate case Respawn => Respawning case Die => Dead
  }

  lemma NotifyStep(s: State, w: nat, after: After)
    requires w < |s.workers| && !s.flags.aborted && s.workers[w] == Notifying(after)
    ensures Step(s, OfWorker(w, NotifyDone)) == Some(s.(workers := s.workers[w := PcAfter(after)]))
  {
  }

  lemma ReceiveSteps(s: State, w: nat)
    requires w < |s.workers| && !s.flags.aborted && s.workers[w] == Receiving
    ensures s.queues.channel != [] ==>
              Step(s, OfWorker(w, Receive)) == Some(
                s.(workers := s.workers[w := Holding(s.queues.channel[0])],
                   queues := s.queues.(channel := s.queues.channel[1..])))
    ensures s.queues.channel == [] && !s.flags.connected ==>
              Step(s, OfWorker(w, ReceiveDisconnected)) == Some(s.(workers := s.workers[w := Exiting]))
    ensures Step(s, OfWorker(w, ReceiveTimeout)) == Some(s.(workers := s.workers[w := AtGate]))
  {
  }

  lemma DeliverStepOf(s: State, w: nat, o: Outcome, tx: Option<nat>)
    requires w < |s.workers| && !s.flags.aborted && s.workers[w] == Delivering(o, tx)
    ensures Step(s, OfWorker(w, DeliverOutcome)) == Some(
              s.(workers := s.workers[w := Delivered], outlet := Deliver(s.outlet, o, tx)))
  {
  }

  lemma FinishStepOf(s: State, w: nat, a: WorkerAction)
    requires w < |s.workers| && !s.flags.aborted
    requires (a == FinishTask && s.workers[w].Delivered?) || (a == ExitFinish && s.workers[w].Exiting?)
    ensures var num, fine := s.num.After(DecrementRight(1)), !s.num.Fails(DecrementRight(1));
            Step(s, OfWorker(w, a)) == Some(
              if a.FinishTask? then
                s.(num := num, workers := s.workers[w := if fine then Notifying(Loop) else Unwinding(false)])
              else
                s.(num := num, workers := s.workers[w := if fine then Notifying(Die) else Dead],
                   hist := s.hist.(unmatched := s.hist.unmatched + 1)))
  {
  }

  lemma SentinelStepOf(s: State, w: nat, counted: bool) returns (t: State)
    requires w < |s.workers| && !s.flags.aborted && s.workers[w] == Unwinding(counted)
    ensures Step(s, OfWorker(w, SentinelFinish)) == Some(t)
    ensures var fine := !s.num.Fails(DecrementRight(1));
            t == s.(
              num := s.num.After(DecrementRight(1)),
              workers := s.workers[w := if fine then Notifying(Respawn) else Dead],
              hist := t.hist,
              flags := if fine then s.flags.(numPanics := s.flags.numPanics + 1) else s.flags.(aborted := true))
  {
    t := Step(s, OfWorker(w, SentinelFinish)).value;
  }

  lemma CountStep(s: State, u: nat, n: nat)
    requires u < |s.subs| && !s.flags.aborted && !s.subs[u].mode.Broken? && n <= |s.subs[u].later|
    requires s.subs[u].counted == [] && s.subs[u].ready == []
    ensures var sub, call := s.subs[u], Call.IncrementLeft(n);
            Step(s, OfSubmitter(u, CountInputs(n, false))) == Some(
              if s.num.Fails(call) then
                s.(num := s.num.After(call),
                   subs := s.subs[u := sub.(later := [], mode := Mode.Broken)],
                   hist := s.hist.(
                     leaked := s.hist.leaked + (if ReplyTo(s.num, Some(call)).Wrong? then n else 0),
                     overflowed := true))
              else
                s.(num := s.num.After(call),
                   subs := s.subs[u := sub.(counted := sub.later[..n], later := sub.later[n..], mode := Undecided)]))
  {
  }

  lemma IndicesStep(s: State, u: nat)
    requires u < |s.subs| && !s.flags.aborted
    ensures var sub, n := s.subs[u], |s.subs[u].counted|;
            Step(s, OfSubmitter(u, TakeIndices)) == Some(
              s.(queues := s.queues.(next := s.queues.next + n),
                 hist := s.hist.(log := s.hist.log + Issues(sub.counted, sub.tx)),
                 subs := s.subs[u := sub.(
                   counted := [],
                   ready := sub.ready + NewTasks(s.queues.next, sub.counted, sub.tx),
                   issued := sub.issued + IndicesFrom(s.queues.next, n))]))
  {
  }

  lemma SendStep(s: State, u: nat)
    requires u < |s.subs| && !s.flags.aborted && s.subs[u].mode.Sending? && s.subs[u].ready != []
    ensures Step(s, OfSubmitter(u, SendTask)) == Some(
              s.(queues := s.queues.(channel := s.queues.channel + [s.subs[u].ready[0]]),
                 subs := s.subs[u := s.subs[u].(ready := s.subs[u].ready[1..])]))
  {
  }

  lemma RejectStep(s: State, u: nat)
    requires u < |s.subs| && !s.flags.aborted && s.subs[u].mode.Rejecting? && s.subs[u].ready != []
    ensures var task := s.subs[u].ready[0];
            Step(s, OfSubmitter(u, RejectTask)) == Some(
              s.(hist := s.hist.(drained := s.hist.drained + 1),
                 outlet := Deliver(s.outlet, IntoUnprocessed(task), task.tx),
                 subs := s.subs[u := s.subs[u].(ready := s.subs[u].ready[1..])]))
  {
  }

  lemma TakeStep(s: State, keys: set<nat>)
    requires !s.flags.aborted
    ensures Step(s, OfControl(TakeStored(keys))) == Some(
              s.(outlet := s.outlet.(store := s.outlet.store - keys),
                 hist := s.hist.(taken := s.hist.taken + multiset(s.outlet.store.Keys * keys))))
  {
  }

  lemma DrainDeliverStep(s: State, task: Task)
    requires !s.flags.aborted && InHand(s.drainer) == Some(task)
    ensures Step(s, OfControl(DrainDeliver)) == Some(
              s.(hist := s.hist.(drained := s.hist.drained + 1),
                 outlet := Deliver(s.outlet, IntoUnprocessed(task), task.tx),
                 drainer := s.drainer.(hand := None)))
  {
  }

  lemma DrainEmptyStep(s: State)
    requires !s.flags.aborted && s.drainer == DrainingChannel(None) && s.queues.channel == []
    ensures Step(s, OfControl(DrainChannelEmpty)) == Some(s.(drainer := LockingRetryQueue))
  {
  }

  lemma DrainReceiveStep(s: State, task: Task)
    requires !s.flags.aborted && s.drainer == DrainingChannel(None) && s.queues.channel != []
    requires s.queues.channel[0] == task
    ensures Step(s, OfControl(DrainReceive)) == Some(
              s.(queues := s.queues.(channel := s.queues.channel[1..]), drainer := DrainingChannel(Some(task))))
  {
  }

  lemma DrainLockStep(s: State)
    requires !s.flags.aborted && s.drainer == LockingRetryQueue && s.queues.owner.None?
    ensures Step(s, OfControl(DrainLock)) == Some(
              s.(queues := s.queues.(owner := Some(DrainOwner)), drainer := DrainingRetry(None)))
  {
  }

  lemma DrainEndStep(s: State)
    requires !s.flags.aborted && s.drainer == DrainingRetry(None) && s.queues.retry == []
    ensures Step(s, OfControl(DrainRetryEmpty)) == Some(s.(queues := s.queues.(owner := None), drainer := Resting))
  {
  }

  lemma DrainPopStep(s: State, at: nat)
    requires !s.flags.aborted && s.drainer == DrainingRetry(None) && at < |s.queues.retry|
    ensures Step(s, OfControl(DrainPop(at))) == Some(
              s.(queues := s.queues.(retry := WithoutAt(s.queues.retry, at)),
                 drainer := DrainingRetry(Some(s.queues.retry[at].task))))
  {
  }
}
