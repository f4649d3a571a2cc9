/** Retrying failed channels is fair, in closed form: the pending queue is served round by round. */
module ConsumerFairness {
  import opened HareErrors
  import opened Bindings
  import opened Connection
  import opened ConsumerProtocol
  import opened ConsumerSafety
  import opened ConsumerTheorems

  /** A stretch of a run that starts at the head of the worker's loop, with no reconnect and no
      Stop. Any number of Subscribe calls may run beside it. */
  ghost predicate Stretch(states: seq<State>, actions: seq<Action>) {
    && IsPath(states, actions)
    && Reachable(states[0]) && states[0].worker.LoopTest? && states[0].running && states[0].control.Idle?
    && forall i {:trigger actions[i]} :: 0 <= i < |actions| ==>
         && !(actions[i].Work? && states[i].worker.Connecting?)
         && (actions[i].Call? ==> actions[i].call.Start?)
  }

  /** No Subscribe pushes during the stretch. */
  ghost predicate NoNewSubscription(states: seq<State>, actions: seq<Action>) {
    IsPath(states, actions) &&
    forall i {:trigger actions[i]} :: 0 <= i < |actions| && actions[i].ContinueSubscribe? ==>
      !states[i].subscribers[actions[i].id].Pushing?
  }

  // ---- What a stretch preserves, relative to its first state ----

  /** The worker has popped this iteration's channel, or is between iterations. */
  predicate PastPop(w: WorkerPc) {
    w.LoopTest? || w.Setting? || w.PushingBack?
  }

  ghost predicate Progress(s0: State, s: State) {
    && s.running && s.control.Idle?
    && !s.worker.NoThread? && !s.worker.Returned? && !InStartUp(s.worker) && !s.worker.Aborting?
    && s0.mon.pushed <= s.mon.pushed && s0.mon.popped <= s.mon.popped
    && s.mon.pushed == s.mon.popped + s.pending
    && s.mon.attempted == s0.mon.attempted + s.mon.popped[|s0.mon.popped|..]
    && s0.mon.iterations <= s.mon.iterations
  }

  /** One pop per iteration, as long as the channels that were pending at the start last. */
  ghost predicate InPace(s0: State, s: State)
    requires Progress(s0, s)
  {
    var started := s.mon.iterations - s0.mon.iterations;
    var popped := |s.mon.popped| - |s0.mon.popped|;
    && (started <= |s0.pending| ==> popped == if PastPop(s.worker) then started else started - 1)
    && (started > |s0.pending| ==> popped >= |s0.pending|)
    && (s.worker.Popping? ==> s.pending != [])
    && !s.worker.Faulted?
  }

  lemma PopProgresses(s0: State, s: State, o: Outcome)
    requires Progress(s0, s) && s.worker.Popping?
    ensures Progress(s0, WorkerStep(s, o))
  {
    if s.pending != [] {
      var k, popped := |s0.mon.popped|, s.mon.popped;
      assert s.mon.pushed == (popped + [s.pending[0]]) + s.pending[1..];
      assert (popped + [s.pending[0]])[k..] == popped[k..] + [s.pending[0]];
    }
  }

  lemma PushProgresses(s0: State, s: State, o: Outcome)
    requires Progress(s0, s) && s.worker.PushingBack?
    ensures Progress(s0, WorkerStep(s, o))
  {
    assert WorkerStep(s, o).mon.pushed == s.mon.popped + (s.pending + [s.worker.channel]);
  }

  lemma CallProgresses(s0: State, s: State, o: Outcome)
    requires Progress(s0, s) && s.worker.Setting?
    ensures Progress(s0, WorkerStep(s, o))
  {
  }

  lemma WorkerProgresses(s0: State, s: State, o: Outcome)
    requires Progress(s0, s) && WorkerEnabled(s, o) && !s.worker.Connecting?
    ensures Progress(s0, WorkerStep(s, o))
  {
    match s.worker {
      case Popping => PopProgresses(s0, s, o);
      case PushingBack(_, _, _) => PushProgresses(s0, s, o);
      case Setting(_, _, _) => CallProgresses(s0, s, o);
      case _ =>
    }
  }

  lemma WorkerKeepsPace(s0: State, s: State, o: Outcome)
    requires Progress(s0, s) && InPace(s0, s) && WorkerEnabled(s, o) && !s.worker.Connecting?
    requires s0.mon.pushed == s0.mon.popped + s0.pending
    requires Progress(s0, WorkerStep(s, o))
    ensures InPace(s0, WorkerStep(s, o))
  {
  }

  lemma OthersProgress(s0: State, s: State, a: Action)
    requires Progress(s0, s) && Enabled(s, a) && !a.Work? && (a.Call? ==> a.call.Start?)
    ensures Progress(s0, Step(s, a))
    ensures InPace(s0, s) ==> InPace(s0, Step(s, a))
  {
  }

  lemma {:induction false} StretchProgress(states: seq<State>, actions: seq<Action>, i: nat)
    requires Stretch(states, actions) && i <= |actions|
    ensures Progress(states[0], states[i]) && InPace(states[0], states[i])
  {
    if i == 0 {
      InvHolds(states[0]);
    } else {
      StretchProgress(states, actions, i - 1);
      InvHolds(states[0]);
      var s, a := states[i - 1], actions[i - 1];
      if a.Work? {
        WorkerProgresses(states[0], s, a.outcome);
        WorkerKeepsPace(states[0], s, a.outcome);
      } else {
        OthersProgress(states[0], s, a);
      }
    }
  }

  // ---- The closed form ----

  /** With n channels pending, the j-th of the next n iterations attempts exactly the channel that
      was at position j: whenever the worker is back at its loop head after at most n iterations,
      what it attempted is that prefix of the queue, however many subscriptions arrived. */
  lemma RetriesInOrder(states: seq<State>, actions: seq<Action>)
    requires Stretch(states, actions)
    requires var s0, s := states[0], states[|actions|];
             s.worker.LoopTest? && s.mon.iterations - s0.mon.iterations <= |s0.pending|
    ensures var s0, s := states[0], states[|actions|];
            var done := s.mon.iterations - s0.mon.iterations;
            && 0 <= done
            && s.mon.attempted == s0.mon.attempted + s0.pending[..done]
            && s0.pending[done..] <= s.pending
  {
    var s0, s := states[0], states[|actions|];
    StretchProgress(states, actions, |actions|);
    InvHolds(s0);
    var done, k := s.mon.iterations - s0.mon.iterations, |s0.mon.popped|;
    var all := s.mon.pushed;
    assert all[k..k + done] == s0.pending[..done] by {
      assert all[..|s0.mon.pushed|] == s0.mon.pushed;
    }
    assert s.mon.popped == all[..k + done];
    assert s.pending == all[k + done..];
    forall i | 0 <= i < |s0.pending| - done ensures s0.pending[done..][i] == s.pending[i] {
      assert all[k + done + i] == s0.mon.pushed[k + done + i];
    }
  }

  function Failed(outcomes: seq<(int, bool)>): seq<int> {
    if outcomes == [] then []
    else
      var (c, good) := outcomes[|outcomes| - 1];
      Failed(outcomes[..|outcomes| - 1]) + (if good then [] else [c])
  }

  function Channels(outcomes: seq<(int, bool)>): (cs: seq<int>)
    ensures |cs| == |outcomes|
    ensures forall i :: 0 <= i < |cs| ==> cs[i] == outcomes[i].0
  {
    seq(|outcomes|, i requires 0 <= i < |outcomes| => outcomes[i].0)
  }

  /** With no new subscription, the queue's traffic is the retries and nothing else. */
  ghost predicate OnlyRetries(s0: State, s: State) {
    && s0.mon.retried <= s.mon.retried && s0.mon.popped <= s.mon.popped
    && (s.worker.Setting? || s.worker.PushingBack? ==> s.worker.caller.Retry?)
    && var outcomes := s.mon.retried[|s0.mon.retried|..];
       && s.mon.pushed == s0.mon.pushed + Failed(outcomes)
       && s.mon.popped[|s0.mon.popped|..] ==
            Channels(outcomes) + (if s.worker.Setting? || s.worker.PushingBack? then [s.worker.channel] else [])
  }

  lemma OneMoreOutcome(outcomes: seq<(int, bool)>, c: int, good: bool)
    ensures Failed(outcomes + [(c, good)]) == Failed(outcomes) + (if good then [] else [c])
    ensures Channels(outcomes + [(c, good)]) == Channels(outcomes) + [c]
  {
    assert (outcomes + [(c, good)])[..|outcomes|] == outcomes;
  }

  /** What one call of setupAndConsume does to the queue's traffic: a success ends the retry. */
  lemma CallFrame(s: State, o: Outcome)
    requires s.worker.Setting? && s.worker.caller.Retry?
    ensures var s' := WorkerStep(s, o);
            && s'.mon.pushed == s.mon.pushed && s'.mon.popped == s.mon.popped
            && (if s'.worker.Setting? || s'.worker.PushingBack?
                then s'.mon.retried == s.mon.retried && s'.worker.channel == s.worker.channel && s'.worker.caller.Retry?
                else s'.mon.retried == s.mon.retried + [(s.worker.channel, true)])
  {
  }

  lemma CallOnlyRetries(s0: State, s: State, o: Outcome)
    requires OnlyRetries(s0, s) && s.worker.Setting?
    ensures OnlyRetries(s0, WorkerStep(s, o))
  {
    hide WorkerStep;
    CallFrame(s, o);
    var s', k, c := WorkerStep(s, o), |s0.mon.retried|, s.worker.channel;
    if !s'.worker.Setting? && !s'.worker.PushingBack? {
      assert s'.mon.retried[k..] == s.mon.retried[k..] + [(c, true)];
      OneMoreOutcome(s.mon.retried[k..], c, true);
    }
  }

  lemma PushOnlyRetries(s0: State, s: State, o: Outcome)
    requires OnlyRetries(s0, s) && s.worker.PushingBack?
    ensures OnlyRetries(s0, WorkerStep(s, o))
  {
    hide Failed, Channels, SetupStep;
    var k, c := |s0.mon.retried|, s.worker.channel;
    assert WorkerStep(s, o).mon.retried[k..] == s.mon.retried[k..] + [(c, false)];
    OneMoreOutcome(s.mon.retried[k..], c, false);
  }

  lemma LoopOnlyRetries(s0: State, s: State, o: Outcome)
    requires OnlyRetries(s0, s) && WorkerEnabled(s, o) && !s.worker.Setting? && !s.worker.PushingBack?
    requires !InStartUp(s.worker) && !s.worker.Connecting?
    ensures OnlyRetries(s0, WorkerStep(s, o))
  {
    if s.worker.Popping? && s.pending != [] {
      var k := |s0.mon.popped|;
      assert (s.mon.popped + [s.pending[0]])[k..] == s.mon.popped[k..] + [s.pending[0]];
    }
  }

  lemma OthersOnlyRetry(s0: State, s: State, a: Action)
    requires OnlyRetries(s0, s) && Progress(s0, s) && Enabled(s, a) && !a.Work? && (a.Call? ==> a.call.Start?)
    requires a.ContinueSubscribe? ==> !s.subscribers[a.id].Pushing?
    ensures OnlyRetries(s0, Step(s, a))
  {
  }

  lemma {:induction false} StretchOnlyRetries(states: seq<State>, actions: seq<Action>, i: nat)
    requires Stretch(states, actions) && NoNewSubscription(states, actions) && i <= |actions|
    ensures OnlyRetries(states[0], states[i])
  {
    if i > 0 {
      StretchOnlyRetries(states, actions, i - 1);
      StretchProgress(states, actions, i - 1);
      var s, a := states[i - 1], actions[i - 1];
      if !a.Work? {
        OthersOnlyRetry(states[0], s, a);
      } else if s.worker.Setting? {
        CallOnlyRetries(states[0], s, a.outcome);
      } else if s.worker.PushingBack? {
        PushOnlyRetries(states[0], s, a.outcome);
      } else {
        LoopOnlyRetries(states[0], s, a.outcome);
      }
    }
  }

  /** With n channels pending and no new subscription, n iterations retry each of them once, in
      order, and leave in the queue exactly the failed ones, in their original order. So the queue
      never grows over a round, and once every set-up succeeds it is drained. */
  lemma RoundLeavesFailed(states: seq<State>, actions: seq<Action>)
    requires Stretch(states, actions) && NoNewSubscription(states, actions)
    requires var s0, s := states[0], states[|actions|];
             s.worker.LoopTest? && s.mon.iterations - s0.mon.iterations == |s0.pending|
    ensures var s0, s := states[0], states[|actions|];
            && s0.mon.retried <= s.mon.retried
            && var outcomes := s.mon.retried[|s0.mon.retried|..];
            && Channels(outcomes) == s0.pending
            && s.pending == Failed(outcomes)
            && |s.pending| <= |s0.pending|
            && ((forall i :: 0 <= i < |outcomes| ==> outcomes[i].1) ==> s.pending == [])
  {
    var s0, s := states[0], states[|actions|];
    StretchProgress(states, actions, |actions|);
    StretchOnlyRetries(states, actions, |actions|);
    InvHolds(s0);
    var outcomes := s.mon.retried[|s0.mon.retried|..];
    var k := |s0.mon.popped|;
    assert s0.mon.pushed == s0.mon.popped + s0.pending;
    assert s.mon.pushed == s0.mon.popped + (s0.pending + Failed(outcomes));
    assert s.mon.popped == s0.mon.popped + Channels(outcomes);
    assert s0.mon.popped + Channels(outcomes) + s.pending == s0.mon.popped + s0.pending + Failed(outcomes);
    assert (s0.mon.popped + Channels(outcomes) + s.pending)[k..k + |s0.pending|] == Channels(outcomes);
    assert (s0.mon.popped + s0.pending + Failed(outcomes))[k..k + |s0.pending|] == s0.pending;
    assert (s0.mon.popped + Channels(outcomes) + s.pending)[k + |s0.pending|..] == s.pending;
    assert (s0.mon.popped + s0.pending + Failed(outcomes))[k + |s0.pending|..] == Failed(outcomes);
    FailedAreFew(outcomes);
  }

  /** The end of it all: after a round in which every set-up succeeds, on a connection that is still
      up, with no subscription under way, every registered channel is consuming. */
  lemma GoodRoundSetsUpAll(states: seq<State>, actions: seq<Action>, channel: int)
    requires Stretch(states, actions) && NoNewSubscription(states, actions)
    requires var s0, s := states[0], states[|actions|];
             && s.worker.LoopTest? && s.mon.iterations - s0.mon.iterations == |s0.pending|
             && (forall i :: |s0.mon.retried| <= i < |s.mon.retried| ==> s.mon.retried[i].1)
             && s.conn.connected && Registered(s.table, channel)
             && (forall id :: id in s.subscribers ==>
                   s.subscribers[id].Begun? || s.subscribers[id].Adding? || s.subscribers[id].Done?)
    ensures channel in states[|actions|].mon.consuming
  {
    hide Step, Reachable;
    RoundLeavesFailed(states, actions);
    StretchProgress(states, actions, |actions|);
    ReachAlong(states, actions, |actions|);
    LoopHeadCovers(states[|actions|], channel);
  }

  lemma {:induction false} FailedAreFew(outcomes: seq<(int, bool)>)
    ensures |Failed(outcomes)| <= |outcomes|
    ensures (forall i :: 0 <= i < |outcomes| ==> outcomes[i].1) ==> Failed(outcomes) == []
  {
    if outcomes != [] {
      FailedAreFew(outcomes[..|outcomes| - 1]);
    }
  }
}
