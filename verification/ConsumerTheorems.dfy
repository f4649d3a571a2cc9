/** Theorems about every run of the consumer. */
module ConsumerTheorems {
  import opened HareErrors
  import opened Bindings
  import opened Connection
  import opened ConsumerProtocol
  import opened ConsumerSafety

  lemma StepOfRun(states: seq<State>, actions: seq<Action>, i: nat)
    requires IsRun(states, actions) && i < |actions|
    ensures |states| == |actions| + 1
    ensures Enabled(states[i], actions[i]) && states[i + 1] == Step(states[i], actions[i])
  {
    hide Enabled, Step;
    assert actions[i] == actions[i];
  }

  lemma InvAtStart(states: seq<State>, actions: seq<Action>)
    requires IsRun(states, actions)
    ensures Inv(states[0])
  {
    assert IsChannelList([], 0);
    assert Inv(INITIAL);
  }

  lemma {:induction false} InvAlongRun(states: seq<State>, actions: seq<Action>, i: nat)
    requires IsRun(states, actions) && i <= |actions|
    ensures Inv(states[i])
  {
    hide *;
    if i == 0 {
      InvAtStart(states, actions);
    } else {
      StepOfRun(states, actions, i - 1);
      InvAlongRun(states, actions, i - 1);
      InvKept(states[i - 1], actions[i - 1]);
    }
  }

  lemma InvHolds(s: State)
    requires Reachable(s)
    ensures Inv(s)
  {
    var states, actions :| IsRun(states, actions) && states[|actions|] == s;
    InvAlongRun(states, actions, |actions|);
  }

  lemma RunExtends(states: seq<State>, actions: seq<Action>, a: Action)
    requires IsRun(states, actions) && Enabled(states[|actions|], a)
    ensures IsRun(states + [Step(states[|actions|], a)], actions + [a])
  {
    hide Step;
    var states', actions' := states + [Step(states[|actions|], a)], actions + [a];
    forall i | 0 <= i < |actions'|
      ensures Enabled(states'[i], actions'[i]) && states'[i + 1] == Step(states'[i], actions'[i])
    {
      if i < |actions| {
        assert actions'[i] == actions[i];
      }
    }
  }

  lemma ReachStep(s: State, a: Action)
    requires Reachable(s) && Enabled(s, a)
    ensures Reachable(Step(s, a))
  {
    hide Step, Enabled;
    var states, actions :| IsRun(states, actions) && states[|actions|] == s;
    RunExtends(states, actions, a);
    assert (states + [Step(s, a)])[|actions + [a]|] == Step(s, a);
  }

  lemma {:induction false} ReachAlong(states: seq<State>, actions: seq<Action>, i: nat)
    requires IsPath(states, actions) && Reachable(states[0]) && i <= |actions|
    ensures Reachable(states[i])
  {
    if i > 0 {
      hide Step, Enabled, Reachable;
      ReachAlong(states, actions, i - 1);
      assert actions[i - 1] == actions[i - 1];
      ReachStep(states[i - 1], actions[i - 1]);
    }
  }

  // ---- No subscription is lost ----

  /** While the consumer runs, is connected and is not inside Stop, every registered channel is
      somewhere, whatever other threads do. */
  lemma NoSubscriptionLost(s: State, channel: int)
    requires Reachable(s) && Registered(s.table, channel)
    requires s.running && s.conn.connected && !InStop(s.control)
    ensures Accounted(s, channel)
  {
    InvHolds(s);
  }

  /** At the head of the worker's loop, with no Subscribe under way, it is consuming or will be
      retried. */
  lemma LoopHeadCovers(s: State, channel: int)
    requires Reachable(s) && Registered(s.table, channel)
    requires s.running && s.conn.connected && !InStop(s.control)
    requires s.worker.LoopTest?
    requires forall id :: id in s.subscribers ==> s.subscribers[id].Begun? || s.subscribers[id].Adding? || s.subscribers[id].Done?
    ensures channel in s.mon.consuming || channel in s.pending
  {
    NoSubscriptionLost(s, channel);
  }

  /** A consuming channel was opened, had a queue declared, was bound to exactly the pair it is
      registered under and was then consumed, in that order and on the live connection, and no call
      on the channel came after. */
  lemma ConsumingWasSetUp(s: State, channel: int)
    requires Reachable(s) && channel in s.mon.consuming
    ensures s.conn.connected && Registered(s.table, channel)
    ensures exists i: nat :: SetUpFrom(s.mon.calls, s.table, channel, i)
  {
    InvHolds(s);
  }

  // ---- Connection epochs ----

  /** Connect is only called while disconnected, so established connections never overlap, and each
      one but the live one was destroyed exactly once. After the destructor none is live. */
  lemma ConnectionsNeverOverlap(s: State)
    requires Reachable(s)
    ensures s.worker.Connecting? ==> !s.conn.connected
    ensures WellBracketed(s.conn)
    ensures s.control.Gone? ==> s.conn.closed == UpTo(s.conn.established)
  {
    InvHolds(s);
  }

  // ---- Start-up passes ----

  /** On a live connection whose start-up pass is over, the pass attempted every channel that was
      registered when it took its list, in list order and before anything else. */
  lemma StartUpAttemptsAll(s: State)
    requires Reachable(s) && s.conn.connected && !InStartUp(s.worker) && !s.worker.Aborting?
    ensures IsChannelList(s.mon.listed, s.mon.known) && s.mon.listed <= s.mon.attempted
    ensures forall c :: 1 <= c <= s.mon.known ==> c in s.mon.attempted
  {
    InvHolds(s);
    forall c | 1 <= c <= s.mon.known ensures c in s.mon.attempted {
      assert c in s.mon.listed;
    }
  }

  // ---- Stop ----

  /** Stop on a running consumer ends neither running nor connected, whatever the other threads do
      meanwhile and whatever the broker answers to the close. */
  lemma {:induction false} StopEndsDisconnected(states: seq<State>, actions: seq<Action>)
    requires IsPath(states, actions) && |actions| > 0
    requires Reachable(states[0]) && states[0].running && actions[0] == Call(Stop)
    requires forall i :: 0 < i < |actions| ==> InStop(states[i].control)
    requires !InStop(states[|actions|].control)
    ensures !states[|actions|].running && !states[|actions|].conn.connected && states[|actions|].worker.NoThread?
  {
    var n := |actions|;
    assert InStop(states[1].control) by {
      assert actions[0] == Call(Stop);
    }
    hide Step;
    StopUnderWay(states, actions, n - 1);
    assert actions[n - 1] == actions[n - 1];
    StopStepEnds(states[n - 1], actions[n - 1]);
  }

  /** Stop, once begun on a running consumer, can only end by closing the connection. */
  lemma StopStepEnds(s: State, a: Action)
    requires Inv(s) && Enabled(s, a) && InStop(s.control) && (s.control.StopTesting? ==> s.running)
    ensures var s' := Step(s, a);
            if InStop(s'.control) then s'.control.StopTesting? ==> s'.running
            else !s'.running && !s'.conn.connected && s'.worker.NoThread?
  {
    if a.Work? {
      hide WorkerStep;
      WorkerTouchesNoTable(s, a.outcome);
    }
  }

  lemma {:induction false} StopUnderWay(states: seq<State>, actions: seq<Action>, k: nat)
    requires IsPath(states, actions) && 0 < k < |actions|
    requires Reachable(states[0]) && states[0].running && actions[0] == Call(Stop)
    requires forall i :: 0 < i < |actions| ==> InStop(states[i].control)
    ensures Inv(states[k])
    ensures states[k].control.StopTesting? ==> states[k].running
  {
    assert actions[k - 1] == actions[k - 1];
    if k == 1 {
      InvHolds(states[0]);
      InvKept(states[0], actions[0]);
    } else {
      hide Step;
      StopUnderWay(states, actions, k - 1);
      StopStepEnds(states[k - 1], actions[k - 1]);
      InvKept(states[k - 1], actions[k - 1]);
    }
  }

  /** How much of its current iteration the worker has left, once the running flag is clear. */
  function Phase(w: WorkerPc): nat {
    match w
    case LoopTest => 1
    case Setting(_, next, Retry) => 3 + CallsLeft(next)
    case PushingBack(_, _, Retry) => 2
    case Popping => 8
    case SizeTest => 9
    case PullClosing => 10
    case PullFailed => 11
    case Aborting => 12
    case Pulling => 12
    case NextChannel(_, _) => 13
    case Setting(_, _, StartUp(_)) => 13
    case PushingBack(_, _, StartUp(_)) => 13
    case Listing => 14
    case Emptying => 15
    case Locking => 16
    case Connecting => 17
    case ConnectedTest => 18
    case _ => 0
  }

  function CallsLeft(next: SetupCall): nat {
    match next case Open => 3 case Declare => 2 case Bind => 1 case Consume => 0
  }

  function VisitsLeft(w: WorkerPc): nat {
    6 * |Rest(w)| + (if w.Setting? then 2 + CallsLeft(w.next) else if w.PushingBack? then 1 else 0)
  }

  /** After Stop clears the flag the worker finishes at most its current iteration: no step starts
      another, every step brings the end of the iteration nearer, a step is always possible until
      the thread returns (or has popped an emptied queue), and no other thread's step undoes this. */
  lemma WorkerWindsDown(s: State, a: Action)
    requires Reachable(s) && s.control.Joining? && Enabled(s, a)
    ensures var s' := Step(s, a);
            && s'.mon.iterations == s.mon.iterations
            && (s'.control.Joining? ==> !s'.running)
            && (a.Work? ==> Phase(s'.worker) < Phase(s.worker)
                            || (Phase(s'.worker) == Phase(s.worker) && VisitsLeft(s'.worker) < VisitsLeft(s.worker)))
            && (!a.Work? ==> s'.worker == s.worker || (s.worker.Returned? && s'.control.Closing?))
    ensures s.worker.Returned? || s.worker.Faulted? || exists o :: WorkerEnabled(s, o)
  {
    InvHolds(s);
    ChannelListExists(|s.table|);
    assert s.worker.Returned? || s.worker.Faulted? || WorkerEnabled(s, Outcome(AllGood, UpTo(|s.table|)));
    if a.Work? {
      WorkerDescends(s, a.outcome);
    }
  }

  lemma WorkerDescends(s: State, o: Outcome)
    requires WorkerEnabled(s, o) && !s.running
    ensures var w' := WorkerStep(s, o).worker;
            Phase(w') < Phase(s.worker) || (Phase(w') == Phase(s.worker) && VisitsLeft(w') < VisitsLeft(s.worker))
    ensures WorkerStep(s, o).mon.iterations == s.mon.iterations
  {
    match s.worker {
      case NextChannel(rest, _) => assert rest != [] ==> |rest[1..]| == |rest| - 1;
      case Setting(_, next, caller) =>
        match next {
          case _ =>
        }
      case _ =>
    }
  }

  lemma ChannelListExists(n: nat)
    ensures IsChannelList(UpTo(n), n)
  {
    forall c | 1 <= c <= n ensures c in UpTo(n) {
      assert UpTo(n)[c - 1] == c;
    }
  }

  // ---- Popping an empty queue ----

  predicate EmptiesPending(s: State, a: Action) {
    a.Call? && (a.call.Stop? || a.call.Restart? || (a.call.Destroy? && s.running))
  }

  /** The window between the worker's size test and its pop: emptying the queue there, with no
      Subscribe pushing in between, makes the worker pop an empty queue. */
  lemma EmptyingInWindowFaults(s: State, call: ApiCall, o: Outcome)
    requires Reachable(s) && s.worker.Popping? && s.control.Idle? && EmptiesPending(s, Call(call))
    ensures Enabled(s, Call(call)) && Enabled(Step(s, Call(call)), Work(o))
    ensures Step(Step(s, Call(call)), Work(o)).worker.Faulted?
  {
  }

  predicate Pushes(s: State, a: Action) {
    a.ContinueSubscribe? && a.id in s.subscribers && s.subscribers[a.id].Pushing?
  }

  /** At step j the queue was emptied between the worker's size test and its pop, and up to step i the
      worker has not popped and no Subscribe has pushed. */
  ghost predicate EmptiedSince(states: seq<State>, actions: seq<Action>, j: nat, i: nat)
    requires j < i <= |actions| && |states| == |actions| + 1
  {
    && states[j].worker.Popping? && EmptiesPending(states[j], actions[j])
    && forall k {:trigger actions[k]} :: j < k < i ==> !actions[k].Work? && !Pushes(states[k], actions[k])
  }

  /** The queue was emptied in that window, and nothing has been pushed since. */
  ghost predicate Emptied(states: seq<State>, actions: seq<Action>, i: nat)
    requires i <= |actions| && |states| == |actions| + 1
  {
    exists j: nat :: j < i && EmptiedSince(states, actions, j, i)
  }

  /** What a step does to the queue of a worker about to pop. */
  lemma StepInWindow(s: State, a: Action)
    requires Enabled(s, a)
    ensures Step(s, a).worker.Popping? && !s.worker.Popping? ==> a.Work? && Step(s, a).pending != []
    ensures s.worker.Popping? && a.Work? ==> !Step(s, a).worker.Popping?
    ensures !a.Work? && EmptiesPending(s, a) ==> Step(s, a).pending == []
    ensures !a.Work? && Pushes(s, a) ==> Step(s, a).pending != []
    ensures !a.Work? && !EmptiesPending(s, a) && !Pushes(s, a) ==> Step(s, a).pending == s.pending
  {
    if !a.Work? {
      OthersTouchPending(s, a);
      hide Step;
      OthersOnlyPush(s, a);
    }
  }

  lemma OthersTouchPending(s: State, a: Action)
    requires Enabled(s, a) && !a.Work?
    ensures EmptiesPending(s, a) ==> Step(s, a).pending == []
    ensures Pushes(s, a) ==> Step(s, a).pending != []
    ensures !EmptiesPending(s, a) && !Pushes(s, a) ==> Step(s, a).pending == s.pending
  {
    hide AddProcessor, WithProperties;
  }

  /** A worker about to pop finds the queue empty if and only if some Stop emptied it since the
      worker's size test and no Subscribe has pushed since. */
  lemma {:induction false} EmptyIffEmptied(states: seq<State>, actions: seq<Action>, i: nat)
    requires IsRun(states, actions) && i <= |actions| && states[i].worker.Popping?
    ensures states[i].pending == [] <==> Emptied(states, actions, i)
  {
    hide Step, Enabled, EmptiesPending, Pushes;
    if i > 0 {
      var k, s, a := i - 1, states[i - 1], actions[i - 1];
      StepOfRun(states, actions, k);
      StepInWindow(s, a);
      if s.worker.Popping? {
        EmptyIffEmptied(states, actions, k);
        if EmptiesPending(s, a) {
          assert EmptiedSince(states, actions, k, i);
        } else {
          EmptiedStays(states, actions, k);
        }
      } else {
        forall j: nat | j < i ensures !EmptiedSince(states, actions, j, i) {
          assert j < k ==> actions[k].Work?;
        }
      }
    }
  }

  /** A step that neither empties nor pops leaves it so, unless it pushes. */
  lemma EmptiedStays(states: seq<State>, actions: seq<Action>, k: nat)
    requires k < |actions| && |states| == |actions| + 1
    requires !EmptiesPending(states[k], actions[k]) && !actions[k].Work?
    ensures Emptied(states, actions, k + 1) <==> Emptied(states, actions, k) && !Pushes(states[k], actions[k])
  {
    hide EmptiesPending, Pushes;
    if Emptied(states, actions, k + 1) {
      var i := k + 1;
      var j: nat :| j < i && EmptiedSince(states, actions, j, i);
      assert j != k;
      assert actions[k] == actions[k];
      assert EmptiedSince(states, actions, j, k);
    }
    if Emptied(states, actions, k) && !Pushes(states[k], actions[k]) {
      var j: nat :| j < k && EmptiedSince(states, actions, j, k);
      assert EmptiedSince(states, actions, j, k + 1);
    }
  }

  /** Exactly when the worker pops an empty queue: in every run, if and only if a Stop, a Restart or
      the destructor emptied it after the worker's size test, and no Subscribe pushed before the pop. */
  lemma PopFaultsIff(states: seq<State>, actions: seq<Action>, i: nat)
    requires IsRun(states, actions) && i < |actions| && actions[i].Work? && states[i].worker.Popping?
    ensures states[i + 1].worker.Faulted? <==> Emptied(states, actions, i)
  {
    StepOfRun(states, actions, i);
    EmptyIffEmptied(states, actions, i);
    hide IsRun, Emptied;
  }

  /** And only a pop faults. */
  lemma OnlyPopFaults(s: State, a: Action)
    requires Enabled(s, a) && Step(s, a).worker.Faulted? && !s.worker.Faulted?
    ensures a.Work? && s.worker.Popping?
  {
    hide WorkerStep, SubscribeStep, CallStep, ControlStep;
    if a.Work? {
      WorkerFaults(s, a.outcome);
    } else {
      hide Step;
      OthersOnlyPush(s, a);
    }
  }

  lemma WorkerFaults(s: State, o: Outcome)
    requires WorkerStep(s, o).worker.Faulted? && !s.worker.Faulted?
    ensures s.worker.Popping?
  {
    hide OnConnect, OnClose, PropertiesOf, PairOf;
  }

  lemma OthersOnlyPush(s: State, a: Action)
    requires Enabled(s, a) && !a.Work?
    ensures Step(s, a).worker == s.worker || Step(s, a).worker.NoThread? || Step(s, a).worker.LoopTest?
    ensures !EmptiesPending(s, a) ==> s.pending <= Step(s, a).pending
  {
    match a
    case BeginSubscribe(_, _, _, _) =>
    case ContinueSubscribe(id) => match s.subscribers[id] { case _ => }
    case Call(call) =>
    case ContinueCall(err) =>
  }

  /** Such a run exists: Initialize, Start, one Subscribe, and a Stop in the window. */
  lemma FaultIsReachable()
    ensures exists s :: Reachable(s) && s.worker.Faulted?
  {
    var s := ReachPulling();
    s := SubscribeAt(s);
    s := Go(s, Work(Outcome(AllGood, [])));     // Pulling
    s := Go(s, Work(Outcome(AllGood, [])));     // SizeTest
    EmptyingInWindowFaults(s, Stop, Outcome(AllGood, []));
    s := Go(s, Call(Stop));
    s := Go(s, Work(Outcome(AllGood, [])));     // Popping
  }

  // ---- Dispatch on runs ----

  /** The step adds a callback for the pair. */
  predicate Adds(s: State, a: Action, pair: BindingPair) {
    a.ContinueSubscribe? && a.id in s.subscribers && s.subscribers[a.id].Adding? && s.subscribers[a.id].pair == pair
  }

  /** The callback of the last such step before step j. */
  function LastAdded(states: seq<State>, actions: seq<Action>, pair: BindingPair, j: nat): Option<Callback>
    requires j <= |actions| && |states| == |actions| + 1
  {
    if j == 0 then None
    else if Adds(states[j - 1], actions[j - 1], pair) then Some(states[j - 1].subscribers[actions[j - 1].id].callback)
    else LastAdded(states, actions, pair, j - 1)
  }

  lemma AddIsUpdate(t: Table, pair: BindingPair, callback: Callback)
    requires DistinctPairs(t)
    ensures ApplyUpdate(t, Subscribe(pair, callback, DEFAULT_PROPERTIES)).0 == AddProcessor(t, pair, callback).0
  {
  }

  /** What a step does to the dispatch of a pair. */
  lemma DispatchStep(s: State, a: Action, pair: BindingPair)
    requires DistinctPairs(s.table) && Enabled(s, a)
    ensures Dispatch(Step(s, a).table, pair) ==
            if Adds(s, a, pair) then Some(s.subscribers[a.id].callback) else Dispatch(s.table, pair)
  {
    hide WorkerStep, Dispatch, ApplyUpdate, AddProcessor, WithProperties;
    match a
    case Work(o) => WorkerTouchesNoTable(s, o);
    case ContinueSubscribe(id) =>
      match s.subscribers[id] {
        case Adding(p, callback, _) =>
          AddIsUpdate(s.table, p, callback);
          DispatchAfterUpdate(s.table, Subscribe(p, callback, DEFAULT_PROPERTIES), pair);
        case PropertySetting(channel, properties) =>
          SetIsUpdate(s.table, channel, properties);
          DispatchAfterUpdate(s.table, SetProperties(channel, properties), pair);
        case _ =>
      }
    case _ =>
  }

  lemma SetIsUpdate(t: Table, channel: int, properties: QueueProperties)
    ensures ApplyUpdate(t, SetProperties(channel, properties)).0 == WithProperties(t, channel, properties)
  {
  }

  lemma PairsDistinctAlong(states: seq<State>, actions: seq<Action>, i: nat)
    requires IsRun(states, actions) && i <= |actions|
    ensures |states| == |actions| + 1 && DistinctPairs(states[i].table)
    ensures states[0].table == []
  {
    InvAlongRun(states, actions, i);
    hide Lifecycle, Epochs, NothingLost, SetupOrdered, StartUpComplete, PendingFifo, Step, Enabled;
  }

  /** On every run, whatever the threads do in between, a pair dispatches to the callback of the last
      Subscribe that added it, and to none if there was none. */
  lemma {:induction false} DispatchRunsLastAdded(states: seq<State>, actions: seq<Action>, pair: BindingPair, j: nat)
    requires IsRun(states, actions) && j <= |actions|
    ensures Dispatch(states[j].table, pair) == LastAdded(states, actions, pair, j)
  {
    hide IsRun, IsPath, Step, Enabled, Inv, Adds, DistinctPairs;
    PairsDistinctAlong(states, actions, if j == 0 then 0 else j - 1);
    if j > 0 {
      hide Dispatch;
      StepOfRun(states, actions, j - 1);
      DispatchRunsLastAdded(states, actions, pair, j - 1);
      DispatchStep(states[j - 1], actions[j - 1], pair);
    }
  }

  predicate NoSubscriptions(s: State) {
    && s.control.Idle? && s.initialized && s.running
    && s.table == [] && s.pending == [] && s.subscribers == map[]
  }

  lemma ReachConnecting() returns (s: State)
    ensures Reachable(s) && NoSubscriptions(s) && s.worker.Connecting?
  {
    s := INITIAL;
    assert IsRun([INITIAL], []) && [INITIAL][0] == s;
    s := Go(s, Call(Initialize));
    s := Go(s, Call(Start));
    s := Go(s, Work(Outcome(AllGood, [])));     // LoopTest
    s := Go(s, Work(Outcome(AllGood, [])));     // ConnectedTest
  }

  /** A connected consumer without subscriptions, about to pull its first message. */
  lemma ReachPulling() returns (s: State)
    ensures Reachable(s) && NoSubscriptions(s) && s.worker.Pulling?
  {
    assert IsChannelList([], 0);
    s := ReachConnecting();
    s := Go(s, Work(Outcome(AllGood, [])));     // Connecting
    s := Go(s, Work(Outcome(AllGood, [])));     // Locking
    s := Go(s, Work(Outcome(AllGood, [])));     // Emptying
    s := Go(s, Work(Outcome(AllGood, [])));     // Listing
    s := Go(s, Work(Outcome(AllGood, [])));     // NextChannel
  }

  lemma SubscribeAt(s: State) returns (s': State)
    requires Reachable(s) && NoSubscriptions(s) && s.worker.Pulling?
    ensures Reachable(s') && s'.worker.Pulling? && s'.control.Idle? && s'.running && s'.pending == [1]
  {
    s' := Go(s, BeginSubscribe(0, BindingPair("amq.direct", "test"), Callback(0), DEFAULT_PROPERTIES));
    s' := Go(s', ContinueSubscribe(0));         // Begun
    s' := Go(s', ContinueSubscribe(0));         // Adding
    s' := Go(s', ContinueSubscribe(0));         // PropertySetting
    s' := Go(s', ContinueSubscribe(0));         // RunningTest
    s' := Go(s', ContinueSubscribe(0));         // Pushing
  }

  lemma Go(s: State, a: Action) returns (s': State)
    requires Reachable(s) && Enabled(s, a)
    ensures Reachable(s') && s' == Step(s, a)
  {
    ReachStep(s, a);
    s' := Step(s, a);
  }
}
