/** What every reachable state of the consumer satisfies. */
module ConsumerSafety {
  import opened HareErrors
  import opened Bindings
  import opened Connection
  import opened ConsumerProtocol

  // ---- Life cycle: flag, thread, connection and controlling thread fit together ----

  predicate InStop(c: ControlPc) {
    c.StopTesting? || c.ClearingFlag? || c.Joining? || c.Closing?
  }

  /** The worker is between Connect and the return of startConsumption. */
  predicate InStartUp(w: WorkerPc) {
    w.Locking? || MutexHeld(w)
  }

  predicate Lifecycle(s: State) {
    && (s.running ==> !s.worker.NoThread? && !s.worker.Returned?)
    && (!s.worker.NoThread? || s.control.Closing? ==> s.initialized)
    && (s.worker.NoThread? ==> s.control.Closing? || !s.conn.connected)
    && (match s.control
        case Idle(_) => !s.running ==> s.worker.NoThread?
        case StopTesting(_) => !s.running ==> s.worker.NoThread?
        case ClearingFlag(_) => s.running
        case Joining(_) => !s.running && !s.worker.NoThread?
        case _ => !s.running && s.worker.NoThread?)
  }

  // ---- Connection epochs ----

  predicate Epochs(s: State) {
    && WellBracketed(s.conn)
    && (s.worker.Connecting? ==> !s.conn.connected)
    && (InStartUp(s.worker) || s.worker.Aborting? || s.worker.PullFailed? || s.worker.PullClosing? ==> s.conn.connected)
    && (s.worker.Setting? && !s.worker.next.Open? ==> s.conn.connected)
    && (!s.conn.connected ==> s.mon.consuming == {} && s.mon.calls == [])
  }

  // ---- Channels are registered ones ----

  /** The channels startConsumption has still to visit. */
  function Rest(w: WorkerPc): seq<int> {
    match w
    case NextChannel(rest, _) => rest
    case Setting(_, _, StartUp(rest)) => rest
    case PushingBack(_, _, StartUp(rest)) => rest
    case _ => []
  }

  /** The channel being set up. */
  function InHand(w: WorkerPc): set<int> {
    if w.Setting? || w.PushingBack? then {w.channel} else {}
  }

  /** A Subscribe between its add and its push. */
  predicate Holds(p: SubscribePc, channel: int) {
    match p
    case PropertySetting(c, _) => c == channel
    case RunningTest(c) => c == channel
    case Pushing(c) => c == channel
    case _ => false
  }

  predicate AllRegistered(t: Table, channels: seq<int>) {
    forall i :: 0 <= i < |channels| ==> Registered(t, channels[i])
  }

  ghost predicate ChannelsRegistered(s: State) {
    && DistinctPairs(s.table)
    && AllRegistered(s.table, s.pending)
    && AllRegistered(s.table, Rest(s.worker))
    && (forall c :: c in InHand(s.worker) ==> Registered(s.table, c))
    && (forall c :: c in s.mon.consuming ==> Registered(s.table, c))
    && (forall id, c {:trigger Holds(s.subscribers[id], c)} ::
          id in s.subscribers && Holds(s.subscribers[id], c) ==> Registered(s.table, c))
  }

  // ---- No subscription is lost ----

  ghost predicate HeldBySubscribe(s: State, channel: int) {
    exists id :: id in s.subscribers && Holds(s.subscribers[id], channel)
  }

  /** The places a registered channel can be in. */
  ghost predicate Accounted(s: State, channel: int) {
    || channel in s.mon.consuming                                  // consuming on this connection
    || channel in s.pending                                        // waiting to be retried
    || channel in InHand(s.worker)                                 // being set up
    || channel in Rest(s.worker)                                   // start-up has yet to visit it
    || s.worker.Locking? || s.worker.Emptying? || s.worker.Listing?  // start-up has yet to list it
    || s.worker.Aborting?                                          // the connection is about to close
    || HeldBySubscribe(s, channel)                                 // Subscribe has yet to push it
  }

  ghost predicate NothingLost(s: State) {
    s.running && s.conn.connected && !InStop(s.control) ==>
      forall c :: Registered(s.table, c) ==> Accounted(s, c)
  }

  // ---- Set-up order and routing ----

  /** calls[i..i+4] set `channel` up, on the pair it is registered under, and nothing was called on
      the channel since. */
  ghost predicate SetUpFrom(calls: seq<BrokerCall>, t: Table, channel: int, i: nat) {
    && i + 4 <= |calls|
    && calls[i] == OpenCall(channel)
    && calls[i + 1].DeclareCall? && calls[i + 1].channel == channel
    && calls[i + 2] == BindCall(channel, PairOf(t, channel))
    && calls[i + 3] == ConsumeCall(channel)
    && forall j :: i + 4 <= j < |calls| ==> calls[j].channel != channel
  }

  ghost predicate SetUp(calls: seq<BrokerCall>, t: Table, channel: int) {
    exists i: nat :: SetUpFrom(calls, t, channel, i)
  }

  /** How far the set-up in hand has come. */
  predicate SetupInHand(s: State) {
    s.worker.Setting? ==>
      var c, n := s.worker.channel, |s.mon.calls|;
      match s.worker.next
      case Open => true
      case Declare =>
        n >= 1 && s.mon.calls[n - 1] == OpenCall(c)
      case Bind =>
        && n >= 2 && s.mon.calls[n - 2] == OpenCall(c)
        && s.mon.calls[n - 1].DeclareCall? && s.mon.calls[n - 1].channel == c
      case Consume =>
        && n >= 3 && s.mon.calls[n - 3] == OpenCall(c)
        && s.mon.calls[n - 2].DeclareCall? && s.mon.calls[n - 2].channel == c
        && s.mon.calls[n - 1] == BindCall(c, PairOf(s.table, c))
  }

  ghost predicate SetupOrdered(s: State) {
    && SetupInHand(s)
    && (s.worker.Setting? && !s.worker.next.Open? ==> s.worker.channel !in s.mon.consuming)
    && forall c :: c in s.mon.consuming ==> SetUp(s.mon.calls, s.table, c)
  }

  // ---- Start-up attempts every channel it listed ----

  /** Inside the start-up loop, what was attempted and what is left make up the list. */
  predicate VisitsList(s: State) {
    MutexHeld(s.worker) && !s.worker.Emptying? && !s.worker.Listing? ==>
      s.mon.attempted + Rest(s.worker) == s.mon.listed
  }

  /** Past start-up, the list has been attempted. */
  predicate ListAttempted(s: State) {
    s.conn.connected && !InStartUp(s.worker) && !s.worker.Aborting? ==> s.mon.listed <= s.mon.attempted
  }

  ghost predicate StartUpComplete(s: State) {
    && VisitsList(s)
    && ListAttempted(s)
    && s.mon.known <= |s.table|
    && IsChannelList(s.mon.listed, s.mon.known)
  }

  // ---- The pending queue is a FIFO, and only Stop can empty it under the worker's pop ----

  ghost predicate PendingFifo(s: State) {
    && s.mon.pushed == s.mon.popped + s.pending
    && (s.worker.Popping? && s.pending == [] ==> InStop(s.control))
  }

  ghost predicate Inv(s: State) {
    && Lifecycle(s) && Epochs(s) && ChannelsRegistered(s) && NothingLost(s)
    && SetupOrdered(s) && StartUpComplete(s) && PendingFifo(s)
  }

  // ---- Each step keeps the invariant ----

  lemma WorkerKeepsLifecycle(s: State, o: Outcome)
    requires Lifecycle(s) && WorkerEnabled(s, o)
    ensures Lifecycle(WorkerStep(s, o))
  {
  }

  lemma WorkerKeepsEpochs(s: State, o: Outcome)
    requires Epochs(s) && WorkerEnabled(s, o)
    ensures Epochs(WorkerStep(s, o))
  {
    CloseOnce(s.conn);
    hide WellBracketed, UpTo, OnClose, PropertiesOf, PairOf;
  }

  lemma OthersKeepLifecycle(s: State, a: Action)
    requires Lifecycle(s) && Epochs(s) && Enabled(s, a) && !a.Work?
    ensures Lifecycle(Step(s, a)) && Epochs(Step(s, a))
  {
    hide AddProcessor, WithProperties;
    OthersKeepEpochs(s, a);
    hide Epochs;
  }

  lemma OthersKeepEpochs(s: State, a: Action)
    requires Lifecycle(s) && Epochs(s) && Enabled(s, a) && !a.Work?
    ensures Epochs(Step(s, a))
  {
    hide AddProcessor, WithProperties, WellBracketed;
    CloseOnce(s.conn);
  }

  lemma SubscribeFrame(s: State, id: nat)
    requires id in s.subscribers
    ensures var s' := SubscribeStep(s, id);
            && s'.worker == s.worker && s'.conn == s.conn
            && s'.mon == s.mon.(pushed := s'.mon.pushed)
  {
    hide AddProcessor, WithProperties;
  }

  /** What a thread other than the worker can change: the worker only starts and is joined, and the
      connection is only closed, while no worker exists. */
  lemma OthersFrame(s: State, a: Action)
    requires Lifecycle(s) && Enabled(s, a) && !a.Work?
    ensures var s' := Step(s, a);
            && (s'.worker == s.worker
                || (s.worker.Returned? && s'.worker.NoThread?)
                || (s.worker.NoThread? && s'.worker.LoopTest? && !s.conn.connected))
            && ((s'.conn == s.conn && s'.mon.consuming == s.mon.consuming && s'.mon.calls == s.mon.calls)
                || (s.worker.NoThread? && !s'.conn.connected && s'.mon.consuming == {} && s'.mon.calls == []))
            && s'.mon.listed == s.mon.listed && s'.mon.known == s.mon.known && s'.mon.attempted == s.mon.attempted
  {
    hide SubscribeStep;
    if a.ContinueSubscribe? {
      SubscribeFrame(s, a.id);
    }
  }

  predicate Grows(t: Table, t': Table) {
    |t| <= |t'| && forall i :: 0 <= i < |t| ==> t'[i].pair == t[i].pair
  }

  lemma SubscribeGrows(s: State, id: nat)
    requires DistinctPairs(s.table) && SubscribeEnabled(s, id)
    ensures DistinctPairs(SubscribeStep(s, id).table) && Grows(s.table, SubscribeStep(s, id).table)
  {
  }

  /** No step unregisters a channel or changes its pair. */
  lemma TableGrows(s: State, a: Action)
    requires DistinctPairs(s.table) && Enabled(s, a)
    ensures DistinctPairs(Step(s, a).table) && Grows(s.table, Step(s, a).table)
    ensures forall c :: Registered(s.table, c) ==>
              Registered(Step(s, a).table, c) && PairOf(Step(s, a).table, c) == PairOf(s.table, c)
  {
    hide WorkerStep, SubscribeStep;
    match a
    case Work(o) => WorkerTouchesNoTable(s, o);
    case ContinueSubscribe(id) => SubscribeGrows(s, id);
    case _ =>
  }

  lemma SubscribeKeepsRegistered(s: State, id: nat)
    requires ChannelsRegistered(s) && SubscribeEnabled(s, id)
    ensures ChannelsRegistered(SubscribeStep(s, id))
  {
    var s' := SubscribeStep(s, id);
    TableGrows(s, ContinueSubscribe(id));
    var p := s.subscribers[id];
    if p.PropertySetting? || p.RunningTest? || p.Pushing? {
      assert Holds(p, p.channel);
    }
    forall i, c | i in s'.subscribers && Holds(s'.subscribers[i], c) ensures Registered(s'.table, c) {
      if i != id {
        assert Holds(s.subscribers[i], c);
      }
    }
  }

  lemma SetupKeepsRest(s: State, o: Outcome)
    requires s.worker.Setting? || s.worker.PushingBack?
    ensures Rest(WorkerStep(s, o).worker) == Rest(s.worker) || Rest(WorkerStep(s, o).worker) == []
  {
  }

  lemma RestStaysRegistered(s: State, o: Outcome)
    requires WorkerEnabled(s, o) && AllRegistered(s.table, Rest(s.worker))
    ensures AllRegistered(s.table, Rest(WorkerStep(s, o).worker))
  {
    var rest' := Rest(WorkerStep(s, o).worker);
    if s.worker.Setting? || s.worker.PushingBack? {
      hide WorkerStep;
      SetupKeepsRest(s, o);
    } else if s.worker.Listing? {
      forall i | 0 <= i < |rest'| ensures Registered(s.table, rest'[i]) {
        assert rest'[i] in o.list;
      }
    } else if s.worker.NextChannel? && s.worker.rest != [] {
      assert rest' == s.worker.rest[1..];
    } else {
      assert rest' == [];
    }
  }

  lemma PendingStaysRegistered(s: State, o: Outcome)
    requires AllRegistered(s.table, s.pending)
    requires forall c :: c in InHand(s.worker) ==> Registered(s.table, c)
    ensures AllRegistered(s.table, WorkerStep(s, o).pending)
  {
    if s.worker.PushingBack? {
      assert WorkerStep(s, o).pending == s.pending + [s.worker.channel];
    }
  }

  lemma HandStaysRegistered(s: State, o: Outcome)
    requires AllRegistered(s.table, s.pending) && AllRegistered(s.table, Rest(s.worker))
    requires forall c :: c in InHand(s.worker) ==> Registered(s.table, c)
    ensures forall c :: c in InHand(WorkerStep(s, o).worker) ==> Registered(s.table, c)
    ensures forall c :: c in WorkerStep(s, o).mon.consuming && c !in s.mon.consuming ==> Registered(s.table, c)
  {
    if s.worker.NextChannel? && s.worker.rest != [] {
      assert Registered(s.table, s.worker.rest[0]);
    }
  }

  lemma WorkerKeepsRegistered(s: State, o: Outcome)
    requires ChannelsRegistered(s) && WorkerEnabled(s, o)
    ensures ChannelsRegistered(WorkerStep(s, o))
  {
    RestStaysRegistered(s, o);
    PendingStaysRegistered(s, o);
    HandStaysRegistered(s, o);
    WorkerTouchesNoTable(s, o);
  }

  lemma SetupTouchesNoTable(s: State, err: HareError)
    requires s.worker.Setting?
    ensures SetupStep(s, err).table == s.table && SetupStep(s, err).subscribers == s.subscribers
    ensures SetupStep(s, err).running == s.running && SetupStep(s, err).control == s.control
  {
  }

  lemma WorkerTouchesNoTable(s: State, o: Outcome)
    ensures WorkerStep(s, o).table == s.table && WorkerStep(s, o).subscribers == s.subscribers
    ensures WorkerStep(s, o).running == s.running && WorkerStep(s, o).control == s.control
  {
    hide SetupStep;
    if s.worker.Setting? {
      SetupTouchesNoTable(s, o.err);
    }
  }

  lemma ControlKeepsRegistered(s: State, a: Action)
    requires ChannelsRegistered(s) && Enabled(s, a) && !a.Work? && !a.ContinueSubscribe?
    ensures ChannelsRegistered(Step(s, a))
  {
    var s' := Step(s, a);
    assert s'.table == s.table && (s'.pending == s.pending || s'.pending == []);
    assert s'.worker == s.worker || (Rest(s'.worker) == [] && InHand(s'.worker) == {});
    forall id, c | id in s'.subscribers && Holds(s'.subscribers[id], c) ensures Registered(s.table, c) {
      assert id in s.subscribers && Holds(s.subscribers[id], c);
    }
  }

  lemma ChannelsRegisteredKept(s: State, a: Action)
    requires ChannelsRegistered(s) && Enabled(s, a)
    ensures ChannelsRegistered(Step(s, a))
  {
    hide WorkerStep, SubscribeStep;
    match a
    case Work(o) => WorkerKeepsRegistered(s, o);
    case ContinueSubscribe(id) => SubscribeKeepsRegistered(s, id);
    case _ => ControlKeepsRegistered(s, a);
  }

  // ---- Nothing lost ----

  lemma SameSubscribersHold(s: State, s': State, c: int)
    requires s'.subscribers == s.subscribers && HeldBySubscribe(s, c)
    ensures HeldBySubscribe(s', c)
  {
    var id :| id in s.subscribers && Holds(s.subscribers[id], c);
    assert id in s'.subscribers && Holds(s'.subscribers[id], c);
  }

  /** A channel in hand, in the queue or still to be listed stays accounted for by a set-up call. */
  lemma SetupLosesNothing(s: State, o: Outcome, c: int)
    requires s.worker.Setting? || s.worker.PushingBack?
    requires Accounted(s, c)
    ensures Accounted(WorkerStep(s, o), c)
  {
    if HeldBySubscribe(s, c) {
      SameSubscribersHold(s, WorkerStep(s, o), c);
    }
  }

  lemma LoopLosesNothing(s: State, o: Outcome, c: int)
    requires !s.worker.Setting? && !s.worker.PushingBack?
    requires s.conn.connected && Accounted(s, c) && Registered(s.table, c)
    requires WorkerEnabled(s, o) && !s.worker.Connecting?
    ensures WorkerStep(s, o).conn.connected ==> Accounted(WorkerStep(s, o), c)
  {
    if HeldBySubscribe(s, c) {
      SameSubscribersHold(s, WorkerStep(s, o), c);
    }
  }

  lemma StaysConnected(s: State, o: Outcome)
    requires !s.worker.Connecting? && WorkerStep(s, o).conn.connected
    ensures s.conn.connected
  {
  }

  lemma ConnectingLosesNothing(s: State, o: Outcome)
    requires Epochs(s) && s.worker.Connecting?
    ensures NothingLost(WorkerStep(s, o))
  {
  }

  lemma WorkerLosesNothing(s: State, o: Outcome)
    requires NothingLost(s) && Epochs(s) && WorkerEnabled(s, o)
    ensures NothingLost(WorkerStep(s, o))
  {
    WorkerTouchesNoTable(s, o);
    var s' := WorkerStep(s, o);
    if s.worker.Connecting? {
      ConnectingLosesNothing(s, o);
    } else if s'.running && s'.conn.connected && !InStop(s'.control) {
      StaysConnected(s, o);
      hide WorkerStep, Accounted, Epochs;
      forall c | Registered(s'.table, c) ensures Accounted(s', c) {
        if s.worker.Setting? || s.worker.PushingBack? {
          SetupLosesNothing(s, o, c);
        } else {
          LoopLosesNothing(s, o, c);
        }
      }
    }
  }

  lemma SubscribeLosesNothing(s: State, id: nat)
    requires NothingLost(s) && SubscribeEnabled(s, id)
    ensures NothingLost(SubscribeStep(s, id))
  {
    var s' := SubscribeStep(s, id);
    if s'.running && s'.conn.connected && !InStop(s'.control) {
      forall c | Registered(s'.table, c) ensures Accounted(s', c) {
        if Registered(s.table, c) {
          assert Accounted(s, c);
          if i :| i in s.subscribers && Holds(s.subscribers[i], c) {
            if i != id || !s.subscribers[id].Pushing? {
              assert i in s'.subscribers && Holds(s'.subscribers[i], c);
            }
          }
        } else {
          assert Holds(s'.subscribers[id], c);
        }
      }
    }
  }

  lemma ControlLosesNothing(s: State, a: Action)
    requires NothingLost(s) && Lifecycle(s) && Enabled(s, a) && (a.Call? || a.ContinueCall? || a.BeginSubscribe?)
    ensures NothingLost(Step(s, a))
  {
    var s' := Step(s, a);
    if s'.running && s'.conn.connected && !InStop(s'.control) {
      assert s.running;
      forall c | Registered(s'.table, c) ensures Accounted(s', c) {
        assert Accounted(s, c);
        if i :| i in s.subscribers && Holds(s.subscribers[i], c) {
          assert i in s'.subscribers && Holds(s'.subscribers[i], c);
        }
      }
    }
  }

  // ---- Set-up order ----

  /** A set-up stays a set-up while other channels are called and the table grows. */
  lemma SetUpStays(calls: seq<BrokerCall>, more: seq<BrokerCall>, t: Table, t': Table, channel: int)
    requires SetUp(calls, t, channel)
    requires PairOf(t', channel) == PairOf(t, channel)
    requires forall j :: 0 <= j < |more| ==> more[j].channel != channel
    ensures SetUp(calls + more, t', channel)
  {
    var i: nat :| SetUpFrom(calls, t, channel, i);
    assert SetUpFrom(calls + more, t', channel, i);
  }

  lemma SetupCallAdvances(s: State, err: HareError)
    requires SetupInHand(s) && s.worker.Setting?
    requires !s.worker.next.Open? ==> s.worker.channel !in s.mon.consuming
    ensures SetupInHand(SetupStep(s, err))
    ensures var w := SetupStep(s, err).worker;
            w.Setting? && !w.next.Open? ==> w.channel !in SetupStep(s, err).mon.consuming
  {
    hide PairOf, PropertiesOf;
    match s.worker.next
    case Open =>
    case Declare =>
    case Bind =>
    case Consume =>
  }

  lemma SetupCallKeepsOrder(s: State, err: HareError, c: int)
    requires SetupInHand(s) && s.worker.Setting?
    requires !s.worker.next.Open? ==> s.worker.channel !in s.mon.consuming
    requires c in s.mon.consuming ==> SetUp(s.mon.calls, s.table, c)
    requires c in SetupStep(s, err).mon.consuming
    ensures SetUp(SetupStep(s, err).mon.calls, s.table, c)
  {
    var calls, calls' := s.mon.calls, SetupStep(s, err).mon.calls;
    if c !in s.mon.consuming {
      assert calls' == calls + [ConsumeCall(c)];
      assert SetUpFrom(calls', s.table, c, |calls| - 3);
    } else if calls' != calls {
      assert calls' == calls + [calls'[|calls|]];
      SetUpStays(calls, [calls'[|calls|]], s.table, s.table, c);
    }
  }

  lemma SetupCallOrders(s: State, err: HareError)
    requires SetupOrdered(s) && s.worker.Setting?
    ensures SetupOrdered(SetupStep(s, err))
  {
    SetupCallAdvances(s, err);
    forall c | c in SetupStep(s, err).mon.consuming ensures SetUp(SetupStep(s, err).mon.calls, s.table, c) {
      SetupCallKeepsOrder(s, err, c);
    }
  }

  lemma WorkerOrdersSetup(s: State, o: Outcome)
    requires SetupOrdered(s) && WorkerEnabled(s, o)
    ensures SetupOrdered(WorkerStep(s, o))
  {
    if s.worker.Setting? {
      SetupCallOrders(s, o.err);
    }
  }

  lemma OthersOrderSetup(s: State, a: Action)
    requires SetupOrdered(s) && ChannelsRegistered(s) && Lifecycle(s) && Enabled(s, a) && !a.Work?
    ensures SetupOrdered(Step(s, a))
  {
    hide Step;
    OthersFrame(s, a);
    TableGrows(s, a);
    var s' := Step(s, a);
    forall c | c in s'.mon.consuming ensures SetUp(s'.mon.calls, s'.table, c) {
      assert s'.mon.calls == s.mon.calls + [];
      SetUpStays(s.mon.calls, [], s.table, s'.table, c);
    }
  }

  // ---- Start-up and the queue ----

  lemma SetupVisitsList(s: State, o: Outcome)
    requires VisitsList(s) && (s.worker.Setting? || s.worker.PushingBack?)
    ensures VisitsList(WorkerStep(s, o))
  {
    match s.worker
    case Setting(_, next, _) => match next { case _ => }
    case PushingBack(_, _, _) =>
  }

  lemma WorkerVisitsList(s: State, o: Outcome)
    requires VisitsList(s)
    ensures VisitsList(WorkerStep(s, o))
  {
    if s.worker.Setting? || s.worker.PushingBack? {
      SetupVisitsList(s, o);
    } else {
      LoopVisitsList(s, o);
    }
  }

  lemma LoopVisitsList(s: State, o: Outcome)
    requires VisitsList(s) && !s.worker.Setting? && !s.worker.PushingBack?
    ensures VisitsList(WorkerStep(s, o))
  {
    hide SetupStep;
    if s.worker.NextChannel? && s.worker.rest != [] {
      var first, rest := [s.worker.rest[0]], s.worker.rest[1..];
      assert s.mon.attempted + s.worker.rest == s.mon.attempted + first + rest;
    }
  }

  lemma SetupAttemptsList(s: State, o: Outcome)
    requires VisitsList(s) && ListAttempted(s) && (s.worker.Setting? || s.worker.PushingBack?)
    ensures ListAttempted(WorkerStep(s, o))
    ensures WorkerStep(s, o).mon.listed == s.mon.listed && WorkerStep(s, o).mon.known == s.mon.known
  {
  }

  lemma LoopAttemptsList(s: State, o: Outcome)
    requires VisitsList(s) && ListAttempted(s) && !s.worker.Setting? && !s.worker.PushingBack?
    ensures ListAttempted(WorkerStep(s, o))
    ensures !s.worker.Listing? ==> WorkerStep(s, o).mon.listed == s.mon.listed && WorkerStep(s, o).mon.known == s.mon.known
  {
    hide SetupStep;
  }

  lemma WorkerCompletesStartUp(s: State, o: Outcome)
    requires StartUpComplete(s) && WorkerEnabled(s, o)
    ensures StartUpComplete(WorkerStep(s, o))
  {
    if !s.worker.Listing? {
      hide WorkerStep;
      WorkerVisitsList(s, o);
      WorkerTouchesNoTable(s, o);
      if s.worker.Setting? || s.worker.PushingBack? {
        SetupAttemptsList(s, o);
      } else {
        LoopAttemptsList(s, o);
      }
    }
  }

  lemma OthersCompleteStartUp(s: State, a: Action)
    requires StartUpComplete(s) && Lifecycle(s) && DistinctPairs(s.table) && Enabled(s, a) && !a.Work?
    ensures StartUpComplete(Step(s, a))
  {
    hide Step;
    OthersFrame(s, a);
    TableGrows(s, a);
    assert s.mon.known > 0 ==> Registered(s.table, s.mon.known);
  }

  lemma WorkerKeepsFifo(s: State, o: Outcome)
    requires PendingFifo(s) && WorkerEnabled(s, o)
    ensures PendingFifo(WorkerStep(s, o))
  {
    if s.worker.Popping? && s.pending != [] {
      assert s.mon.popped + s.pending == (s.mon.popped + [s.pending[0]]) + s.pending[1..];
    }
  }

  lemma OthersKeepFifo(s: State, a: Action)
    requires PendingFifo(s) && Lifecycle(s) && Enabled(s, a) && !a.Work?
    ensures PendingFifo(Step(s, a))
  {
    if a.ContinueSubscribe? && s.subscribers[a.id].Pushing? {
      var c := s.subscribers[a.id].channel;
      assert s.mon.popped + (s.pending + [c]) == s.mon.pushed + [c];
    }
  }

  lemma InvKept(s: State, a: Action)
    requires Inv(s) && Enabled(s, a)
    ensures Inv(Step(s, a))
  {
    hide WorkerStep, SubscribeStep, CallStep, ControlStep;
    assert DistinctPairs(s.table);
    hide Lifecycle, Epochs, ChannelsRegistered, NothingLost, SetupOrdered, StartUpComplete, PendingFifo;
    ChannelsRegisteredKept(s, a);
    match a
    case Work(o) =>
      WorkerKeepsLifecycle(s, o);
      WorkerKeepsEpochs(s, o);
      WorkerLosesNothing(s, o);
      WorkerOrdersSetup(s, o);
      WorkerCompletesStartUp(s, o);
      WorkerKeepsFifo(s, o);
    case ContinueSubscribe(id) =>
      OthersKeepLifecycle(s, a);
      SubscribeLosesNothing(s, id);
      OthersOrderSetup(s, a);
      OthersCompleteStartUp(s, a);
      OthersKeepFifo(s, a);
    case _ =>
      OthersKeepLifecycle(s, a);
      ControlLosesNothing(s, a);
      OthersOrderSetup(s, a);
      OthersCompleteStartUp(s, a);
      OthersKeepFifo(s, a);
  }
}
