/** What one thread can rely on while the others run. */
module Threads {
  import opened Wrappers
  import opened Tasks
  import opened Protocol
  import RetryCache
  import Theorems
  import opened Progress

  /** The thread whose program is looked at. A submitting thread owns a task sender, so nobody else
      can drop the last one. */
  datatype Me = AWorker(w: nat) | ASubmitter(u: nat) | ADrain

  predicate ByOthers(a: Action, me: Me) {
    match me
    case AWorker(w) => a.OfWorker? ==> a.w != w
    case ASubmitter(u) => (a.OfSubmitter? ==> a.u != u) && a != OfControl(Disconnect)
    case ADrain => a.OfControl? ==> !IsDrain(a.ca)
  }

  /** The thread is where it was; and nobody else touches a retry queue that it has locked. */
  predicate SamePlace(s: State, t: State, me: Me) {
    match me
    case AWorker(w) =>
      w < |s.workers| ==>
        && w < |t.workers| && t.workers[w] == s.workers[w]
        && (RetryCache.HoldsRetryLock(s.workers[w]) ==> t.queues.retry == s.queues.retry)
    case ASubmitter(u) =>
      (u < |s.subs| ==> u < |t.subs| && t.subs[u] == s.subs[u]) && t.flags.connected == s.flags.connected
    case ADrain => t.drainer == s.drainer && (s.drainer.DrainingRetry? ==> t.queues.retry == s.queues.retry)
  }

  /** What no step ever takes back. */
  predicate Sticky(s: State, t: State) {
    && t.cfg == s.cfg
    && (s.flags.poisoned ==> t.flags.poisoned) && (t.flags.connected ==> s.flags.connected)
    && s.queues.next <= t.queues.next && s.hist.log <= t.hist.log
    && s.flags.now <= t.flags.now && s.outlet.hungUp <= t.outlet.hungUp
  }

  lemma WorkerLeavesOthers(s: State, w: nat, a: WorkerAction, reply: Reply, t: State, me: Me)
    requires RetryCache.Locked(s)
    requires WorkerStep(s, w, a, reply) == Some(t) && ByOthers(OfWorker(w, a), me)
    ensures SamePlace(s, t, me) && Sticky(s, t)
  {
  }

  lemma SubmitterLeavesOthers(s: State, u: nat, a: SubmitterAction, reply: Reply, t: State, me: Me)
    requires RetryCache.Locked(s)
    requires SubmitterStep(s, u, a, reply) == Some(t) && ByOthers(OfSubmitter(u, a), me)
    ensures SamePlace(s, t, me) && Sticky(s, t)
  {
  }

  lemma ControlLeavesOthers(s: State, a: ControlAction, t: State, me: Me)
    requires RetryCache.Locked(s)
    requires ControlStep(s, a) == Some(t) && ByOthers(OfControl(a), me)
    ensures SamePlace(s, t, me) && Sticky(s, t)
  {
  }

  lemma StepLeavesOthers(s: State, a: Action, t: State, me: Me)
    requires RetryCache.Locked(s)
    requires Step(s, a) == Some(t) && ByOthers(a, me)
    ensures SamePlace(s, t, me) && Sticky(s, t)
  {
    var reply := ReplyTo(s.num, CallOf(a));
    var h := Effect(s, a, reply).value;
    match a
    case OfWorker(w, wa) => WorkerLeavesOthers(s, w, wa, reply, h, me);
    case OfSubmitter(u, ua) => SubmitterLeavesOthers(s, u, ua, reply, h, me);
    case OfControl(ca) => ControlLeavesOthers(s, ca, h, me);
  }

  // ------------------------------------------------------------------------------------------
  // Chronicles
  // ------------------------------------------------------------------------------------------

  /** The states of a run, one before and one after each action. */
  ghost predicate Chronicle(past: seq<State>, trace: seq<Action>) {
    && |past| == |trace| + 1
    && (exists cfg, n :: past[0] == Init(cfg, n))
    && forall k :: 0 <= k < |trace| ==> Step(past[k], trace[k]) == Some(past[k + 1])
  }

  lemma ChronicleGrows(past: seq<State>, trace: seq<Action>, a: Action, t: State)
    requires Chronicle(past, trace) && Step(past[|trace|], a) == Some(t)
    ensures Chronicle(past + [t], trace + [a])
  {
    assert (past + [t])[0] == past[0];
  }

  /** While the other threads act, a thread stays where it is. */
  lemma {:induction false} OthersLeaveMe(past: seq<State>, trace: seq<Action>, i: nat, j: nat, me: Me)
    requires Chronicle(past, trace) && i <= j <= |trace|
    requires forall k :: i <= k < j ==> ByOthers(trace[k], me)
    ensures SamePlace(past[i], past[j], me) && Sticky(past[i], past[j])
    decreases j
  {
    if i < j {
      OthersLeaveMe(past, trace, i, j - 1, me);
      ChronicleIsReachable(past, trace, j - 1);
      Theorems.ReachableInvariant(past[j - 1]);
      StepLeavesOthers(past[j - 1], trace[j - 1], past[j], me);
    }
  }

  lemma {:induction false} NothingTakenBack(past: seq<State>, trace: seq<Action>, i: nat, j: nat)
    requires Chronicle(past, trace) && i <= j <= |trace|
    ensures Sticky(past[i], past[j])
    decreases j
  {
    if i < j {
      var k := j - 1;
      NothingTakenBack(past, trace, i, k);
      StepTakesNothingBack(past, trace, k);
      StickyTwice(past[i], past[k], past[j]);
    }
  }

  lemma StickyTwice(s: State, t: State, u: State)
    requires Sticky(s, t) && Sticky(t, u)
    ensures Sticky(s, u)
  {
  }

  lemma StepTakesNothingBack(past: seq<State>, trace: seq<Action>, k: nat)
    requires Chronicle(past, trace) && k < |trace|
    ensures Sticky(past[k], past[k + 1])
  {
    ChronicleIsReachable(past, trace, k);
    Theorems.ReachableInvariant(past[k]);
    StepLeavesOthers(past[k], trace[k], past[k + 1], if trace[k].OfControl? then AWorker(0) else ADrain);
  }

  lemma {:induction false} ChronicleIsRun(past: seq<State>, trace: seq<Action>, k: nat)
    requires Chronicle(past, trace) && k <= |trace|
    ensures Run(past[k], trace[k..]) == Some(past[|trace|])
    decreases |trace| - k
  {
    if k < |trace| {
      ChronicleIsRun(past, trace, k + 1);
      assert trace[k..][1..] == trace[k + 1..];
    }
  }

  lemma ChroniclePrefix(past: seq<State>, trace: seq<Action>, k: nat)
    requires Chronicle(past, trace) && k <= |trace|
    ensures Chronicle(past[..k + 1], trace[..k])
  {
    assert past[..k + 1][0] == past[0];
  }

  /** Every state of a chronicle is reachable. */
  lemma ChronicleIsReachable(past: seq<State>, trace: seq<Action>, k: nat)
    requires Chronicle(past, trace) && k <= |trace|
    ensures Reachable(past[k])
  {
    ChroniclePrefix(past, trace, k);
    ChronicleIsRun(past[..k + 1], trace[..k], 0);
    assert trace[..k][0..] == trace[..k];
    var cfg, n :| past[0] == Init(cfg, n);
    assert Run(Init(cfg, n), trace[..k]) == Some(past[k]);
  }

  // ------------------------------------------------------------------------------------------
  // What a worker has been answered
  // ------------------------------------------------------------------------------------------

  /** The answer of `apply` that an action of worker w receives; None is a panic. */
  function AnswerOf(a: Action, w: nat): seq<Option<ApplyResult>> {
    if a.OfWorker? && a.w == w && a.wa.ApplyReturns? then [Some(a.wa.result)]
    else if a.OfWorker? && a.w == w && a.wa.ApplyPanics? then [None]
    else []
  }

  /** The answers of all executions of worker w, in order. */
  function Answers(trace: seq<Action>, w: nat): seq<Option<ApplyResult>> {
    if trace == [] then [] else Answers(trace[..|trace| - 1], w) + AnswerOf(trace[|trace| - 1], w)
  }

  lemma AnswersAppend(trace: seq<Action>, a: Action, w: nat)
    ensures Answers(trace + [a], w) == Answers(trace, w) + AnswerOf(a, w)
  {
    assert (trace + [a])[..|trace|] == trace;
  }

  // ------------------------------------------------------------------------------------------
  // How often a worker has waited for a message in vain
  // ------------------------------------------------------------------------------------------

  function Timeouts(trace: seq<Action>, w: nat): nat {
    if trace == [] then 0
    else Timeouts(trace[..|trace| - 1], w) + if trace[|trace| - 1] == OfWorker(w, ReceiveTimeout) then 1 else 0
  }

  /** And how often the channel was empty then. */
  function EmptyTimeouts(start: State, trace: seq<Action>, w: nat): nat {
    if trace == [] then 0
    else
      var n := |trace| - 1;
      EmptyTimeouts(start, trace[..n], w) +
      if trace[n] == OfWorker(w, ReceiveTimeout) && EmptyAfter(start, trace[..n]) then 1 else 0
  }

  predicate EmptyAfter(start: State, trace: seq<Action>) {
    Run(start, trace).Some? && Run(start, trace).value.queues.channel == []
  }

  /** How many of the first n rounds have a message that comes too late. */
  function LateRounds(late: nat -> bool, n: nat): nat {
    if n == 0 then 0 else LateRounds(late, n - 1) + if late(n - 1) then 1 else 0
  }

  lemma {:induction false} TimeoutsGrow(start: State, before: seq<Action>, later: seq<Action>, w: nat)
    requires before <= later
    ensures Timeouts(before, w) <= Timeouts(later, w)
    ensures EmptyTimeouts(start, before, w) <= EmptyTimeouts(start, later, w)
    decreases |later|
  {
    if |before| < |later| {
      TimeoutsGrow(start, before, later[..|later| - 1], w);
    } else {
      assert before == later;
    }
  }

  /** Between two moments of a run worker w has waited in vain at least so often, and all but so many times
      at an empty channel. */
  ghost predicate WaitedInVain(start: State, before: seq<Action>, now: seq<Action>, w: nat, rounds: int, lateOnes: int) {
    && before <= now && Timeouts(now, w) >= Timeouts(before, w) + rounds
    && EmptyTimeouts(start, now, w) + lateOnes >= EmptyTimeouts(start, before, w) + rounds
  }

  lemma NothingInVain(start: State, before: seq<Action>, now: seq<Action>, w: nat)
    requires before <= now
    ensures WaitedInVain(start, before, now, w, 0, 0)
  {
    TimeoutsGrow(start, before, now, w);
  }

  lemma VainAdds(start: State, a: seq<Action>, b: seq<Action>, c: seq<Action>, w: nat, r: int, l: int, r': int, l': int)
    requires WaitedInVain(start, a, b, w, r, l) && WaitedInVain(start, b, c, w, r', l')
    ensures WaitedInVain(start, a, c, w, r + r', l + l')
  {
  }

  lemma TimeoutCounts(past: seq<State>, trace: seq<Action>, w: nat)
    requires Chronicle(past, trace)
    ensures var more := trace + [OfWorker(w, ReceiveTimeout)];
            Timeouts(more, w) == Timeouts(trace, w) + 1 &&
            EmptyTimeouts(past[0], more, w) ==
              EmptyTimeouts(past[0], trace, w) + if past[|trace|].queues.channel == [] then 1 else 0
  {
    var more := trace + [OfWorker(w, ReceiveTimeout)];
    assert more[..|trace|] == trace;
    ChronicleIsRun(past, trace, 0);
    assert trace[0..] == trace;
  }

  lemma NothingAnswered(trace: seq<Action>, a: Action)
    requires !Applies(a)
    ensures forall w: nat :: Answers(trace + [a], w) == Answers(trace, w)
  {
    forall w: nat
      ensures Answers(trace + [a], w) == Answers(trace, w)
    {
      AnswersAppend(trace, a, w);
    }
  }

  lemma {:induction false} OthersGetTheirOwn(before: seq<Action>, trace: seq<Action>, w: nat)
    requires before <= trace
    requires forall k :: |before| <= k < |trace| ==> ByOthers(trace[k], AWorker(w))
    ensures Answers(trace, w) == Answers(before, w)
    decreases |trace|
  {
    if |before| < |trace| {
      OthersGetTheirOwn(before, trace[..|trace| - 1], w);
    } else {
      assert trace == before;
    }
  }
}
