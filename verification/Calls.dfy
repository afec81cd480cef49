/** What a submitting call has done so far: the indices it collects name its inputs, in order. */
module Calls {
  import opened Wrappers
  import opened Tasks
  import opened Protocol

  /** The inputs already issued, then those counted, then those still to come, are the inputs
      given; the indices collected are strictly increasing and were issued for these inputs. */
  ghost predicate CallTraced(log: seq<Issue>, sub: Submitter) {
    && |sub.issued| <= |sub.given|
    && (!sub.mode.Broken? ==> sub.given[|sub.issued|..] == sub.counted + sub.later)
    && (sub.mode.Broken? ==> sub.counted == [] && sub.later == [])
    && (forall k :: 0 <= k < |sub.issued| ==>
          sub.issued[k] < |log| && log[sub.issued[k]] == Issue(sub.given[k], sub.tx))
    && (forall j, k :: 0 <= j < k < |sub.issued| ==> sub.issued[j] < sub.issued[k])
  }

  ghost predicate AllCallsTraced(s: State) {
    |s.hist.log| == s.queues.next && forall u :: 0 <= u < |s.subs| ==> CallTraced(s.hist.log, s.subs[u])
  }

  lemma LongerLogKeepsCall(log: seq<Issue>, log': seq<Issue>, sub: Submitter)
    requires CallTraced(log, sub) && log <= log'
    ensures CallTraced(log', sub)
  {
  }

  /** Taking indices for the counted inputs continues the call's index list. */
  lemma TakeIndicesTraced(log: seq<Issue>, sub: Submitter, sub': Submitter)
    requires CallTraced(log, sub)
    requires sub' == sub.(counted := [], ready := sub'.ready,
                          issued := sub.issued + IndicesFrom(|log|, |sub.counted|))
    ensures CallTraced(log + Issues(sub.counted, sub.tx), sub')
  {
    var log' := log + Issues(sub.counted, sub.tx);
    var m := |sub.issued|;
    if !sub.mode.Broken? {
      assert sub.given[m + |sub.counted|..] == sub.given[m..][|sub.counted|..];
      forall k | m <= k < |sub'.issued|
        ensures log'[sub'.issued[k]] == Issue(sub.given[k], sub.tx)
      {
        assert sub.given[k] == sub.given[m..][k - m] == sub.counted[k - m];
      }
    }
  }

  lemma SubmitterKeepsCalls(s: State, u: nat, a: SubmitterAction, reply: Reply, s': State)
    requires AllCallsTraced(s) && SubmitterStep(s, u, a, reply) == Some(s')
    ensures AllCallsTraced(s')
  {
    var sub, sub' := s.subs[u], s'.subs[u];
    assert s'.subs == s.subs[u := sub'];
    if a.TakeIndices? {
      TakeIndicesTraced(s.hist.log, sub, sub');
    } else if a.CountInputs? && reply.Fine? {
      assert sub.later[..a.size] + sub.later[a.size..] == sub.later;
    }
    forall v | 0 <= v < |s'.subs|
      ensures CallTraced(s'.hist.log, s'.subs[v])
    {
      if v != u {
        LongerLogKeepsCall(s.hist.log, s'.hist.log, s.subs[v]);
      }
    }
  }

  lemma WorkerLeavesCalls(s: State, w: nat, a: WorkerAction, reply: Reply, s': State)
    requires WorkerStep(s, w, a, reply) == Some(s')
    ensures s'.subs == s.subs && s'.hist.log == s.hist.log && s'.queues.next == s.queues.next
  {
  }

  lemma ControlLeavesCalls(s: State, a: ControlAction, s': State)
    requires ControlStep(s, a) == Some(s')
    ensures s'.subs == if a.NewSubmitter? then s.subs + [NO_CALL] else s.subs
    ensures s'.hist.log == s.hist.log && s'.queues.next == s.queues.next
  {
  }

  lemma EffectKeepsCalls(s: State, a: Action, reply: Reply, s': State)
    requires AllCallsTraced(s) && Effect(s, a, reply) == Some(s')
    ensures AllCallsTraced(s')
  {
    match a
    case OfWorker(w, wa) => WorkerLeavesCalls(s, w, wa, reply, s');
    case OfSubmitter(u, ua) => SubmitterKeepsCalls(s, u, ua, reply, s');
    case OfControl(ca) =>
      ControlLeavesCalls(s, ca, s');
      assert CallTraced(s.hist.log, NO_CALL);
  }
}
