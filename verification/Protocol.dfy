/** The hive as a state machine (src/hive/shared.rs, src/hive/hive.rs, `retry` build).

    One action is one atomic access to shared state by a worker thread, a submitting thread or a
    controlling thread; thread-local computation is merged into the action before it, and taking
    a lock is merged with the first access made under it. Atomics are sequentially consistent. */
module Protocol {
  import opened Wrappers
  import opened Tasks
  import opened Sums
  import Backoff
  import Counter

  const LEFT_BITS: Counter.Width := 48

  const MAX_WORKERS: nat := 65535

  datatype Config = Config(maxRetries: Option<nat>, retryFactor: Option<nat>)

  datatype Delayed = Delayed(task: Task, until: nat)

  /** Where a worker thread stands in `next_task`, `execute`, `finish_task` and its sentinel. */
  datatype Worker =
    | Dead
    | AtGate                                          // loop head: `resume_gate.wait_while`
    | CheckingPoison
    | CheckingRetry                                   // about to read `next_retry`
    | LockingRetry                                    // a retry looked due
    | Popped(task: Task)                              // retry lock held, `next_retry` not updated
    | Receiving                                       // about to `recv_timeout`
    | Holding(task: Task)                             // task in hand, `transfer(1)` ahead
    | Executing(task: Task)                           // inside `worker.apply`
    | Requeueing(task: Task, delay: nat)              // retry lock ahead
    | RetryCounted(task: Task, delay: nat)            // lock held, queued half incremented
    | RetryPushed(until: nat)                         // lock held, `next_retry` not updated
    | Delivering(outcome: Outcome, tx: Option<nat>)   // outcome made, not yet sent or stored
    | Delivered                                       // `finish_task(false)` ahead
    | Unwinding(counted: bool)                        // panicking; `counted` in the active half
    | Exiting                                         // `next_task` failed; `cancel` ahead
    | Notifying(after: After)                         // decremented; `no_work_notify_all` ahead
    | Respawning                                      // sentinel about to re-spawn the thread

  datatype After = Loop | Respawn | Die

  /** A submitting thread inside `send_one` or `send_batch`: inputs not yet counted, inputs
      counted but without index, tasks with index but not yet sent. `given` is the whole input of
      the current call and `issued` the indices it collects. */
  datatype Submitter = Submitter(
    tx: Option<nat>,
    given: seq<Input>,
    later: seq<Input>,
    counted: seq<Input>,
    ready: seq<Task>,
    mode: Mode,
    issued: seq<nat>)

  datatype Mode = Undecided | Sending | Rejecting | Broken

  /** `drain_tasks_into_unprocessed`, with the task it has taken and not yet delivered. */
  datatype Drainer =
    | Resting
    | DrainingChannel(hand: Option<Task>)
    | LockingRetryQueue                     // found the channel empty, retry lock ahead
    | DrainingRetry(hand: Option<Task>)

  datatype Owner = WorkerOwner(w: nat) | DrainOwner

  datatype Parcel = Parcel(tx: nat, outcome: Outcome)

  /** What `prepare_task` recorded for an index: history, not program state. */
  datatype Issue = Issue(input: Input, tx: Option<nat>)

  /** The queues through which tasks reach the workers. */
  datatype Queues = Queues(
    next: nat,                     // next_task_index
    channel: seq<Task>,            // task_tx / task_rx
    retry: seq<Delayed>,           // retry_queue, as a bag
    owner: Option<Owner>,          // holder of the retry_queue lock
    cached: Option<nat>)           // next_retry

  /** Where outcomes go. */
  datatype Outlet = Outlet(
    sent: seq<Parcel>,             // outcomes sent to outcome channels, oldest first
    store: map<nat, Outcome>,      // outcomes
    hungUp: set<nat>)              // outcome channels whose receiver is gone

  datatype Flags = Flags(
    suspended: bool,
    poisoned: bool,
    connected: bool,               // some task sender is alive
    aborted: bool,                 // a panic while unwinding ended the process
    now: nat,
    numPanics: nat)

  /** What happened so far; no step depends on it. */
  datatype History = History(
    log: seq<Issue>,               // one entry per index issued
    applies: multiset<nat>,        // indices, once per call of `apply`
    taken: multiset<nat>,          // indices whose stored outcome a client removed
    panicked: multiset<nat>,       // tasks lost to a panic
    dropped: multiset<nat>,        // tasks lost to a failed transfer
    drained: nat,                  // outcomes made Unprocessed without leaving the queued half
    leaked: nat,                   // counted by an increment that then panicked
    failed: nat,                   // failed transfers
    unmatched: nat,                // `finish_task` calls with no transfer of their own
    overflowed: bool,              // some increment of the queued half failed
    everDrained: bool)

  datatype State = State(
    cfg: Config,
    num: Counter.Cell,             // num_tasks: DualCounter<48>
    queues: Queues,
    outlet: Outlet,
    flags: Flags,
    workers: seq<Worker>,
    subs: seq<Submitter>,
    drainer: Drainer,
    hist: History)

  // ------------------------------------------------------------------------------------------
  // Actions
  // ------------------------------------------------------------------------------------------

  datatype WorkerAction =
    | PassGate | CheckPoison | CheckRetry
    | PopRetry(head: Option<nat>) | UpdateAfterPop
    | Receive | ReceiveTimeout | ReceiveDisconnected
    | TransferTask
    | ApplyReturns(result: ApplyResult) | ApplyPanics
    | CountRetry | PushRetry | PublishRetry
    | DeliverOutcome
    | FinishTask | SentinelFinish | ExitFinish
    | NotifyDone | SentinelSpawn(spawned: bool)

  datatype SubmitterAction =
    | Submit(tx: Option<nat>, inputs: seq<Input>)
    | CountInputs(size: nat, keepDecision: bool)
    | TakeIndices
    | Decide
    | SendTask
    | RejectTask

  datatype ControlAction =
    | Suspend | Resume
    | Poison | StartHusk
    | DrainReceive | DrainChannelEmpty | DrainLock | DrainPop(at: nat) | DrainRetryEmpty | DrainDeliver
    | Disconnect
    | Tick
    | Grow | NewSubmitter
    | HangUp(tx: nat)
    | TakeStored(keys: set<nat>)

  datatype Action =
    | OfWorker(w: nat, wa: WorkerAction)
    | OfSubmitter(u: nat, ua: SubmitterAction)
    | OfControl(ca: ControlAction)

  // ------------------------------------------------------------------------------------------
  // Pieces of shared state
  // ------------------------------------------------------------------------------------------

  /** `send_or_store_outcome`: to the channel if its receiver is alive, else into the map. */
  function Deliver(out: Outlet, o: Outcome, tx: Option<nat>): Outlet {
    if tx.Some? && tx.value !in out.hungUp then out.(sent := out.sent + [Parcel(tx.value, o)])
    else out.(store := out.store[o.index := o])
  }

  /** `update_next_retry`: an earlier time replaces the cached one, no time clears it. */
  function Publish(cached: Option<nat>, instant: Option<nat>): (p: Option<nat>)
    ensures p.None? <==> instant.None?
    ensures p.Some? ==> p.value <= instant.value && (cached.Some? ==> p.value <= cached.value)
    ensures p == instant || p == cached
  {
    match instant
    case None => None
    case Some(t) => if cached.None? || t < cached.value then Some(t) else cached
  }

  function Earliest(retry: seq<Delayed>): (t: Option<nat>)
    ensures t.None? <==> retry == []
  {
    if retry == [] then None
    else
      var rest := Earliest(retry[1..]);
      if rest.None? || retry[0].until <= rest.value then Some(retry[0].until) else rest
  }

  lemma {:induction false} EarliestIsLeast(retry: seq<Delayed>)
    requires retry != []
    ensures forall d :: d in retry ==> Earliest(retry).value <= d.until
    ensures exists d :: d in retry && d.until == Earliest(retry).value
  {
    if |retry| > 1 {
      EarliestIsLeast(retry[1..]);
      assert forall d :: d in retry ==> d == retry[0] || d in retry[1..];
      var e :| e in retry[1..] && e.until == Earliest(retry[1..]).value;
      assert e in retry;
    }
    assert retry[0] in retry;
  }

  function WithoutAt(retry: seq<Delayed>, k: nat): seq<Delayed>
    requires k < |retry|
  {
    retry[..k] + retry[k + 1..]
  }

  /** `can_retry`. */
  predicate CanRetry(cfg: Config, attempt: nat) {
    cfg.maxRetries.Some? && attempt < cfg.maxRetries.value
  }

  /** The counter call that an action makes, if any. */
  function CallOf(a: Action): Option<Counter.Call> {
    match a
    case OfWorker(_, TransferTask) => Some(Counter.Transfer(1))
    case OfWorker(_, CountRetry) => Some(Counter.IncrementLeft(1))
    case OfWorker(_, FinishTask) => Some(Counter.DecrementRight(1))
    case OfWorker(_, SentinelFinish) => Some(Counter.DecrementRight(1))
    case OfWorker(_, ExitFinish) => Some(Counter.DecrementRight(1))
    case OfSubmitter(_, CountInputs(size, _)) => Some(Counter.IncrementLeft(size))
    case _ => None
  }

  /** How that call ends: in order, rejected by its size check with the word untouched, or with an
      error after the word has changed. */
  datatype Reply = Fine | Rejected | Wrong

  function ReplyTo(num: Counter.Cell, call: Option<Counter.Call>): Reply {
    if call.None? || !num.Fails(call.value) then Fine
    else if Counter.Guard(num.bits, call.value).Some? then Rejected
    else Wrong
  }

  function NumAfter(num: Counter.Cell, call: Option<Counter.Call>): Counter.Cell {
    if call.None? then num else num.After(call.value)
  }

  // ------------------------------------------------------------------------------------------
  // Worker threads
  // ------------------------------------------------------------------------------------------

  /** `next_task`: the loop up to and including `transfer`, without its look at the retry queue. */
  function FetchStep(s: State, w: nat, a: WorkerAction, reply: Reply): Option<State>
    requires w < |s.workers|
  {
    var x := s.workers[w];
    var q := s.queues;
    match a
    case PassGate =>
      if !x.AtGate? || s.flags.suspended then None
      else Some(s.(workers := s.workers[w := CheckingPoison]))
    case CheckPoison =>
      if !x.CheckingPoison? then None
      else Some(s.(workers := s.workers[w := if s.flags.poisoned then Exiting else CheckingRetry]))
    case Receive =>
      if !x.Receiving? || q.channel == [] then None
      else
        Some(s.(workers := s.workers[w := Holding(q.channel[0])], queues := q.(channel := q.channel[1..])))
    case ReceiveTimeout =>
      if !x.Receiving? then None
      else Some(s.(workers := s.workers[w := AtGate]))
    case ReceiveDisconnected =>
      if !x.Receiving? || s.flags.connected || q.channel != [] then None
      else Some(s.(workers := s.workers[w := Exiting]))
    case TransferTask =>
      if !x.Holding? then None
      else if reply.Fine? then Some(s.(workers := s.workers[w := Executing(x.task)]))
      else
        Some(s.(workers := s.workers[w := Exiting],
             hist := s.hist.(failed := s.hist.failed + 1, dropped := s.hist.dropped + multiset{x.task.index})))
    case _ => None
  }

  /** The part of the `next_task` loop that looks at the retry queue. */
  function RetryStep(s: State, w: nat, a: WorkerAction): Option<State>
    requires w < |s.workers|
  {
    var x := s.workers[w];
    var q := s.queues;
    match a
    case CheckRetry =>
      if !x.CheckingRetry? then None
      else
        var due := q.cached.Some? && q.cached.value <= s.flags.now;
        Some(s.(workers := s.workers[w := if due then LockingRetry else Receiving]))
    case PopRetry(head) =>
      if !x.LockingRetry? || q.owner.Some? then None
      else if head.None? then
        // `try_pop` finds nothing due and the lock is released at once
        if q.retry == [] || Earliest(q.retry).value > s.flags.now then
          Some(s.(workers := s.workers[w := Receiving]))
        else None
      else
        var k := head.value;
        if k < |q.retry| && q.retry[k].until == Earliest(q.retry).value && q.retry[k].until <= s.flags.now then
          Some(s.(workers := s.workers[w := Popped(q.retry[k].task)],
               queues := q.(retry := WithoutAt(q.retry, k), owner := Some(WorkerOwner(w)))))
        else None
    case UpdateAfterPop =>
      if !x.Popped? then None
      else
        Some(s.(workers := s.workers[w := Holding(x.task)],
             queues := q.(cached := Publish(q.cached, Earliest(q.retry)), owner := None)))
    case _ => None
  }

  /** `execute`, with `queue_retry` and `send_or_store_outcome`. */
  function ExecuteStep(s: State, w: nat, a: WorkerAction, reply: Reply): Option<State>
    requires w < |s.workers|
  {
    var x := s.workers[w];
    var q := s.queues;
    match a
    case ApplyReturns(result) =>
      if !x.Executing? then None
      else
        var (after, lost) := AfterApply(s.cfg, x.task, result);
        Some(s.(workers := s.workers[w := after],
             hist := s.hist.(
               applies := s.hist.applies + multiset{x.task.index},
               panicked := s.hist.panicked + if lost then multiset{x.task.index} else multiset{})))
    case ApplyPanics =>
      if !x.Executing? then None
      else
        Some(s.(workers := s.workers[w := Unwinding(true)],
             hist := s.hist.(
               applies := s.hist.applies + multiset{x.task.index},
               panicked := s.hist.panicked + multiset{x.task.index})))
    case CountRetry =>
      if !x.Requeueing? || q.owner.Some? then None
      else if reply.Fine? then
        Some(s.(workers := s.workers[w := RetryCounted(x.task, x.delay)],
             queues := q.(owner := Some(WorkerOwner(w)))))
      else
        Some(s.(workers := s.workers[w := Unwinding(true)],
             hist := s.hist.(
               leaked := s.hist.leaked + (if reply.Wrong? then 1 else 0),
               overflowed := true,
               panicked := s.hist.panicked + multiset{x.task.index})))
    case PushRetry =>
      if !x.RetryCounted? then None
      else
        var until := s.flags.now + x.delay;
        Some(s.(workers := s.workers[w := RetryPushed(until)],
             queues := q.(retry := q.retry + [Delayed(x.task, until)])))
    case PublishRetry =>
      if !x.RetryPushed? then None
      else
        Some(s.(workers := s.workers[w := Delivered],
             queues := q.(cached := Publish(q.cached, Some(x.until)), owner := None)))
    case DeliverOutcome =>
      if !x.Delivering? then None
      else Some(s.(workers := s.workers[w := Delivered], outlet := Deliver(s.outlet, x.outcome, x.tx)))
    case _ => None
  }

  /** The thread-local part of `execute` after `apply` has returned: retry, or make an outcome. The
      flag says that computing the delay panicked and the task is lost. */
  function AfterApply(cfg: Config, task: Task, result: ApplyResult): (Worker, bool) {
    if result.Retryable? && CanRetry(cfg, task.attempt) then
      var again := Task(result.retryInput, task.index, task.attempt + 1, task.tx);
      match Backoff.Delay(cfg.retryFactor, again.attempt)
      case Some(delay) => (Requeueing(again, delay), false)
      case None => (Unwinding(true), true)
    else
      (Delivering(FromWorkerResult(result, task.index), task.tx), false)
  }

  /** `finish_task`, called by the loop, by an unwinding sentinel or by a cancelled one, and what
      follows it. */
  function FinishStep(s: State, w: nat, a: WorkerAction, reply: Reply): Option<State>
    requires w < |s.workers|
  {
    var x := s.workers[w];
    match a
    case FinishTask =>
      if !x.Delivered? then None
      else Some(s.(workers := s.workers[w := if reply.Fine? then Notifying(Loop) else Unwinding(false)]))
    case SentinelFinish =>
      if !x.Unwinding? then None
      else
        Some(s.(workers := s.workers[w := if reply.Fine? then Notifying(Respawn) else Dead],
             hist := s.hist.(unmatched := s.hist.unmatched + if x.counted then 0 else 1),
             flags := if reply.Fine? then s.flags.(numPanics := s.flags.numPanics + 1)
                      else s.flags.(aborted := true)))
    case ExitFinish =>
      if !x.Exiting? then None
      else
        Some(s.(workers := s.workers[w := if reply.Fine? then Notifying(Die) else Dead],
             hist := s.hist.(unmatched := s.hist.unmatched + 1)))
    case NotifyDone =>
      if !x.Notifying? then None
      else
        var after := match x.after case Loop => AtGate case Respawn => Respawning case Die => Dead;
        Some(s.(workers := s.workers[w := after]))
    case SentinelSpawn(spawned) =>
      if !x.Respawning? || (spawned && s.flags.poisoned) then None
      else Some(s.(workers := s.workers[w := if spawned then AtGate else Dead]))
    case _ => None
  }

  predicate IsFetch(a: WorkerAction) {
    a.PassGate? || a.CheckPoison? || a.Receive? || a.ReceiveTimeout? || a.ReceiveDisconnected? || a.TransferTask?
  }

  predicate IsRetry(a: WorkerAction) {
    a.CheckRetry? || a.PopRetry? || a.UpdateAfterPop?
  }

  predicate IsExecute(a: WorkerAction) {
    a.ApplyReturns? || a.ApplyPanics? || a.CountRetry? || a.PushRetry? || a.PublishRetry? || a.DeliverOutcome?
  }

  function WorkerStep(s: State, w: nat, a: WorkerAction, reply: Reply): Option<State> {
    if w >= |s.workers| then None
    else if IsFetch(a) then FetchStep(s, w, a, reply)
    else if IsRetry(a) then RetryStep(s, w, a)
    else if IsExecute(a) then ExecuteStep(s, w, a, reply)
    else FinishStep(s, w, a, reply)
  }

  // ------------------------------------------------------------------------------------------
  // Submitting threads
  // ------------------------------------------------------------------------------------------

  predicate Idle(u: Submitter) {
    u.later == [] && u.counted == [] && u.ready == []
  }

  function NewTasks(start: nat, inputs: seq<Input>, tx: Option<nat>): (ts: seq<Task>)
    ensures |ts| == |inputs|
    ensures forall i :: 0 <= i < |ts| ==> ts[i] == Task(inputs[i], start + i, 0, tx)
  {
    seq(|inputs|, i requires 0 <= i < |inputs| => Task(inputs[i], start + i, 0, tx))
  }

  function IndicesFrom(start: nat, n: nat): (xs: seq<nat>)
    ensures |xs| == n && forall i :: 0 <= i < n ==> xs[i] == start + i
  {
    seq(n, i requires 0 <= i < n => start + i)
  }

  function Issues(inputs: seq<Input>, tx: Option<nat>): (es: seq<Issue>)
    ensures |es| == |inputs| && forall i :: 0 <= i < |es| ==> es[i] == Issue(inputs[i], tx)
  {
    seq(|inputs|, i requires 0 <= i < |inputs| => Issue(inputs[i], tx))
  }

  /** `send_one` counts one input at a time and decides each time; `send_batch` counts the whole
      batch, decides once, and counts surplus inputs one at a time under the same decision. */
  function SubmitterStep(s: State, u: nat, a: SubmitterAction, reply: Reply): Option<State> {
    if u >= |s.subs| then None
    else
      var sub := s.subs[u];
      var q := s.queues;
      match a
      case Submit(tx, inputs) =>
        if !Idle(sub) || sub.mode.Broken? || !s.flags.connected then None
        else Some(s.(subs := s.subs[u := Submitter(tx, inputs, inputs, [], [], Undecided, [])]))
      case CountInputs(size, keepDecision) =>
        if sub.counted != [] || sub.ready != [] || size > |sub.later| || sub.mode.Broken? then None
        else if reply.Fine? then
          Some(s.(subs := s.subs[u := sub.(
            counted := sub.later[..size],
            later := sub.later[size..],
            mode := if keepDecision then sub.mode else Undecided)]))
        else
          Some(s.(subs := s.subs[u := sub.(later := [], mode := Broken)],
               hist := s.hist.(
                 leaked := s.hist.leaked + (if reply.Wrong? then size else 0),
                 overflowed := true)))
      case TakeIndices =>
        var n := |sub.counted|;
        Some(s.(queues := q.(next := q.next + n),
             hist := s.hist.(log := s.hist.log + Issues(sub.counted, sub.tx)),
             subs := s.subs[u := sub.(
               counted := [],
               ready := sub.ready + NewTasks(q.next, sub.counted, sub.tx),
               issued := sub.issued + IndicesFrom(q.next, n))]))
      case Decide =>
        if !sub.mode.Undecided? || sub.counted != [] then None
        else Some(s.(subs := s.subs[u := sub.(mode := if s.flags.poisoned then Rejecting else Sending)]))
      case SendTask =>
        if !sub.mode.Sending? || sub.ready == [] then None
        else
          Some(s.(queues := q.(channel := q.channel + [sub.ready[0]]),
               subs := s.subs[u := sub.(ready := sub.ready[1..])]))
      case RejectTask =>
        if !sub.mode.Rejecting? || sub.ready == [] then None
        else
          Some(s.(hist := s.hist.(drained := s.hist.drained + 1),
               outlet := Deliver(s.outlet, IntoUnprocessed(sub.ready[0]), sub.ready[0].tx),
               subs := s.subs[u := sub.(ready := sub.ready[1..])]))
  }

  // ------------------------------------------------------------------------------------------
  // Controlling threads
  // ------------------------------------------------------------------------------------------

  predicate NoThreads(s: State) {
    (forall w :: 0 <= w < |s.workers| ==> s.workers[w].Dead?) &&
    (forall u :: 0 <= u < |s.subs| ==> Idle(s.subs[u]))
  }

  /** `poison` and `try_into_husk` end in the same two drains. */
  function DrainStep(s: State, a: ControlAction): Option<State> {
    var q := s.queues;
    match a
    case Poison =>
      if !s.drainer.Resting? then None
      else
        Some(s.(flags := s.flags.(poisoned := true), hist := s.hist.(everDrained := true),
             drainer := DrainingChannel(None)))
    case StartHusk =>
      if !s.drainer.Resting? || !NoThreads(s) then None
      else Some(s.(hist := s.hist.(everDrained := true), drainer := DrainingChannel(None)))
    case DrainReceive =>
      if s.drainer != DrainingChannel(None) || q.channel == [] then None
      else Some(s.(queues := q.(channel := q.channel[1..]), drainer := DrainingChannel(Some(q.channel[0]))))
    case DrainChannelEmpty =>
      if s.drainer != DrainingChannel(None) || q.channel != [] then None
      else Some(s.(drainer := LockingRetryQueue))
    case DrainLock =>
      if s.drainer != LockingRetryQueue || q.owner.Some? then None
      else Some(s.(queues := q.(owner := Some(DrainOwner)), drainer := DrainingRetry(None)))
    case DrainPop(at) =>
      if s.drainer != DrainingRetry(None) || at >= |q.retry| then None
      else
        Some(s.(queues := q.(retry := WithoutAt(q.retry, at)), drainer := DrainingRetry(Some(q.retry[at].task))))
    case DrainRetryEmpty =>
      if s.drainer != DrainingRetry(None) || q.retry != [] then None
      else Some(s.(queues := q.(owner := None), drainer := Resting))
    case DrainDeliver =>
      if InHand(s.drainer).None? then None
      else
        var task := InHand(s.drainer).value;
        Some(s.(hist := s.hist.(drained := s.hist.drained + 1),
             outlet := Deliver(s.outlet, IntoUnprocessed(task), task.tx),
             drainer := s.drainer.(hand := None)))
    case _ => None
  }

  predicate IsDrain(a: ControlAction) {
    a.Poison? || a.StartHusk? || a.DrainReceive? || a.DrainChannelEmpty? || a.DrainLock? || a.DrainPop? ||
    a.DrainRetryEmpty? || a.DrainDeliver?
  }

  function ControlStep(s: State, a: ControlAction): Option<State> {
    if IsDrain(a) then DrainStep(s, a)
    else
      match a
      case Suspend => Some(s.(flags := s.flags.(suspended := true)))
      case Resume => Some(s.(flags := s.flags.(suspended := false)))
      case Disconnect =>
        if exists u :: 0 <= u < |s.subs| && !Idle(s.subs[u]) then None
        else Some(s.(flags := s.flags.(connected := false)))
      case Tick => Some(s.(flags := s.flags.(now := s.flags.now + 1)))
      case Grow => Some(s.(workers := s.workers + [AtGate]))
      case NewSubmitter => Some(s.(subs := s.subs + [NO_CALL]))
      case HangUp(tx) => Some(s.(outlet := s.outlet.(hungUp := s.outlet.hungUp + {tx})))
      case TakeStored(keys) =>
        Some(s.(outlet := s.outlet.(store := s.outlet.store - keys),
             hist := s.hist.(taken := s.hist.taken + multiset(s.outlet.store.Keys * keys))))
      case _ => None
  }

  const NO_CALL: Submitter := Submitter(None, [], [], [], [], Undecided, [])

  // ------------------------------------------------------------------------------------------
  // Runs
  // ------------------------------------------------------------------------------------------

  /** Everything an action does except to the task counter, given the counter's reply. */
  function Effect(s: State, a: Action, reply: Reply): Option<State> {
    if s.flags.aborted then None
    else
      match a
      case OfWorker(w, wa) => WorkerStep(s, w, wa, reply)
      case OfSubmitter(u, ua) => SubmitterStep(s, u, ua, reply)
      case OfControl(ca) => ControlStep(s, ca)
  }

  function Step(s: State, a: Action): Option<State> {
    match Effect(s, a, ReplyTo(s.num, CallOf(a)))
    case None => None
    case Some(s') => Some(s'.(num := NumAfter(s.num, CallOf(a))))
  }

  /** A new hive with n worker threads. */
  function Init(cfg: Config, n: nat): State {
    State(cfg, Counter.Cell(LEFT_BITS, 0), Queues(0, [], [], None, None), Outlet([], map[], {}),
          Flags(false, false, true, false, 0, 0), seq(n, i => AtGate), [], Resting,
          History([], multiset{}, multiset{}, multiset{}, multiset{}, 0, 0, 0, 0, false, false))
  }

  function Run(s: State, actions: seq<Action>): Option<State>
    decreases |actions|
  {
    if actions == [] then Some(s)
    else
      match Step(s, actions[0])
      case None => None
      case Some(s') => Run(s', actions[1..])
  }

  /** Every state some schedule of some hive can reach. */
  ghost predicate Reachable(s: State) {
    exists cfg, n, actions :: Run(Init(cfg, n), actions) == Some(s)
  }

  // ------------------------------------------------------------------------------------------
  // What the state holds
  // ------------------------------------------------------------------------------------------

  function WorkerQueued(x: Worker): int {
    if x.Popped? || x.Holding? || x.RetryCounted? then 1 else 0
  }

  function WorkerActive(x: Worker): int {
    if x.Executing? || x.Requeueing? || x.RetryCounted? || x.RetryPushed? || x.Delivering? || x.Delivered? then 1
    else if x.Unwinding? && x.counted then 1
    else 0
  }

  predicate HoldsTask(x: Worker) {
    x.Popped? || x.Holding? || x.Executing? || x.Requeueing? || x.RetryCounted?
  }

  function One(b: bool): int {
    if b then 1 else 0
  }

  function WorkerLive(x: Worker, i: nat): int {
    One(HoldsTask(x) && x.task.index == i)
  }

  function WorkerSettled(x: Worker, i: nat): int {
    One(x.Delivering? && x.outcome.index == i)
  }

  function SubmitterQueued(u: Submitter): int {
    |u.counted| + |u.ready|
  }

  function TaskLive(t: Task, i: nat): int {
    One(t.index == i)
  }

  function SubmitterLive(u: Submitter, i: nat): int {
    Count(u.ready, TaskLive, i)
  }

  function DelayedLive(d: Delayed, i: nat): int {
    One(d.task.index == i)
  }

  function ParcelSettled(p: Parcel, i: nat): int {
    One(p.outcome.index == i)
  }

  function InHand(d: Drainer): Option<Task> {
    if d.DrainingChannel? || d.DrainingRetry? then d.hand else None
  }

  function HandLive(d: Drainer, i: nat): int {
    One(InHand(d).Some? && InHand(d).value.index == i)
  }

  /** How many tasks with index i are still somewhere in the hive: with a submitter, in the
      channel, in the retry queue, with a worker or in the hand of a drain. */
  function Live(s: State, i: nat): int {
    Count(s.subs, SubmitterLive, i) + Count(s.queues.channel, TaskLive, i) + Count(s.queues.retry, DelayedLive, i) +
    Count(s.workers, WorkerLive, i) + HandLive(s.drainer, i)
  }

  /** How many outcomes with index i were sent or are stored. */
  function Shipped(out: Outlet, i: nat): int {
    Count(out.sent, ParcelSettled, i) + One(i in out.store.Keys)
  }

  /** How many times index i has ended: its outcome is on its way, was sent, is stored or was
      removed from the store by a client, or its task was lost to a panic or a failed transfer. */
  function Settled(s: State, i: nat): int {
    Count(s.workers, WorkerSettled, i) + Shipped(s.outlet, i) +
    s.hist.taken[i] + s.hist.panicked[i] + s.hist.dropped[i]
  }

  /** What the queued half of the counter should read. */
  function Queued(s: State): int {
    Sum(s.subs, SubmitterQueued) + |s.queues.channel| + |s.queues.retry| + Sum(s.workers, WorkerQueued) +
    (if InHand(s.drainer).Some? then 1 else 0) + s.hist.drained + s.hist.leaked
  }

  /** What the active half of the counter should read. */
  function Active(s: State): int {
    Sum(s.workers, WorkerActive) + s.hist.failed - s.hist.unmatched
  }
}
