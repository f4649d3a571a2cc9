/** Which properties a consuming channel's queue was declared with. Subscribe adds a channel first and
    sets its properties later, so start-up may declare it in between, with the defaults; the push at
    the end of Subscribe has it set up again. */
module ConsumerProperties {
  import opened HareErrors
  import opened Bindings
  import opened Connection
  import opened ConsumerProtocol
  import opened ConsumerSafety
  import opened ConsumerTheorems

  /** The properties of the last declare on the channel. */
  function LastDeclared(calls: seq<BrokerCall>, channel: int): Option<QueueProperties> {
    if calls == [] then None
    else
      var last := calls[|calls| - 1];
      if last.DeclareCall? && last.channel == channel then Some(last.properties)
      else LastDeclared(calls[..|calls| - 1], channel)
  }

  lemma OneMoreCall(calls: seq<BrokerCall>, call: BrokerCall, channel: int)
    ensures LastDeclared(calls + [call], channel) ==
            if call.DeclareCall? && call.channel == channel then Some(call.properties) else LastDeclared(calls, channel)
  {
    assert (calls + [call])[..|calls|] == calls;
  }

  lemma {:induction false} LastOfSetUp(calls: seq<BrokerCall>, t: Table, channel: int, i: nat)
    requires SetUpFrom(calls, t, channel, i)
    ensures LastDeclared(calls, channel) == Some(calls[i + 1].properties)
  {
    LastUpTo(calls, channel, i + 1, |calls|);
    assert calls[..|calls|] == calls;
  }

  lemma {:induction false} LastUpTo(calls: seq<BrokerCall>, channel: int, d: nat, n: nat)
    requires d < n <= |calls| && calls[d].DeclareCall? && calls[d].channel == channel
    requires forall j :: d < j < n ==> !(calls[j].DeclareCall? && calls[j].channel == channel)
    ensures LastDeclared(calls[..n], channel) == Some(calls[d].properties)
    decreases n
  {
    assert calls[..n][..n - 1] == calls[..n - 1];
    if d < n - 1 {
      LastUpTo(calls, channel, d, n - 1);
    }
  }

  // ---- The invariant ----

  predicate Active(s: State) {
    s.running && s.conn.connected && !InStop(s.control)
  }

  predicate Current(s: State, channel: int) {
    LastDeclared(s.mon.calls, channel) == Some(PropertiesOf(s.table, channel))
  }

  /** The channel is going to be declared again. */
  ghost predicate Renewed(s: State, channel: int) {
    || channel in s.pending
    || HeldBySubscribe(s, channel)
    || (s.worker.Setting? && s.worker.next.Open? && s.worker.channel == channel)
  }

  predicate PastDeclare(w: WorkerPc, channel: int) {
    w.Setting? && w.channel == channel && (w.next.Bind? || w.next.Consume?)
  }

  predicate Listed(w: WorkerPc) {
    !w.Locking? && !w.Emptying? && !w.Listing?
  }

  ghost predicate UpToDate(s: State) {
    && (!Listed(s.worker) ==> s.mon.consuming == {})
    && (Active(s) ==>
          forall c :: c in s.mon.consuming || PastDeclare(s.worker, c) ==> Current(s, c) || Renewed(s, c))
  }

  // ---- It is kept ----

  lemma SameHolders(s: State, s': State, c: int)
    requires s'.subscribers == s.subscribers
    ensures HeldBySubscribe(s', c) <==> HeldBySubscribe(s, c)
  {
    if HeldBySubscribe(s, c) {
      SameSubscribersHold(s, s', c);
    }
    if HeldBySubscribe(s', c) {
      SameSubscribersHold(s', s, c);
    }
  }

  /** What a call of setupAndConsume may do. */
  lemma SetupFrame(s: State, err: HareError)
    requires s.worker.Setting?
    ensures var s', c := SetupStep(s, err), s.worker.channel;
            && s'.table == s.table && s'.pending == s.pending && s'.subscribers == s.subscribers
            && (s'.mon.calls == s.mon.calls
                || exists call: BrokerCall :: s'.mon.calls == s.mon.calls + [call]
                     && (call.DeclareCall? <==> s.worker.next.Declare?)
                     && (call.DeclareCall? ==> call == DeclareCall(c, PropertiesOf(s.table, c))))
            && (s.worker.next.Declare? ==> s'.mon.calls != s.mon.calls)
            && (forall d :: d in s'.mon.consuming ==>
                  (d in s.mon.consuming && (d == c ==> !s.worker.next.Open?)) || (d == c && s.worker.next.Consume?))
            && (s'.worker.Setting? ==> !s.worker.next.Consume? && !s'.worker.next.Open? && s'.worker.channel == c
                                       && (s.worker.next.Open? ==> s'.worker.next.Declare?))
            && Listed(s'.worker)
  {
    hide PropertiesOf, PairOf, NoError, ServerFailure;
    match s.worker.next
    case Open => assert NoError(err) && s.conn.connected ==>
                   SetupStep(s, err).mon.calls == s.mon.calls + [OpenCall(s.worker.channel)];
    case Declare => assert SetupStep(s, err).mon.calls ==
                      s.mon.calls + [DeclareCall(s.worker.channel, PropertiesOf(s.table, s.worker.channel))];
    case Bind => assert NoError(err) ==>
                   SetupStep(s, err).mon.calls == s.mon.calls + [BindCall(s.worker.channel, PairOf(s.table, s.worker.channel))];
    case Consume => assert NoError(err) ==>
                      SetupStep(s, err).mon.calls == s.mon.calls + [ConsumeCall(s.worker.channel)];
  }

  /** What it does to one channel's record. */
  lemma SetupKeepsUpToDate(s: State, err: HareError, c: int)
    requires s.worker.Setting?
    requires !s.worker.next.Open? ==> s.worker.channel !in s.mon.consuming
    requires c in s.mon.consuming || PastDeclare(s.worker, c) ==> Current(s, c) || Renewed(s, c)
    requires c in SetupStep(s, err).mon.consuming || PastDeclare(SetupStep(s, err).worker, c)
    ensures Current(SetupStep(s, err), c) || Renewed(SetupStep(s, err), c)
  {
    var s' := SetupStep(s, err);
    SetupFrame(s, err);
    SameHolders(s, s', c);
    if s'.mon.calls != s.mon.calls {
      var call :| s'.mon.calls == s.mon.calls + [call]
                  && (call.DeclareCall? <==> s.worker.next.Declare?)
                  && (call.DeclareCall? ==> call == DeclareCall(s.worker.channel, PropertiesOf(s.table, s.worker.channel)));
      OneMoreCall(s.mon.calls, call, c);
    }
    hide SetupStep, LastDeclared, HeldBySubscribe;
  }

  /** What any other step of the worker does to it. */
  lemma LoopKeepsUpToDate(s: State, o: Outcome, c: int)
    requires !s.worker.Setting? && WorkerEnabled(s, o) && !s.worker.Connecting? && !s.worker.Emptying?
    requires c in s.mon.consuming ==> Current(s, c) || Renewed(s, c)
    requires c in WorkerStep(s, o).mon.consuming
    ensures Current(WorkerStep(s, o), c) || Renewed(WorkerStep(s, o), c)
  {
    var s' := WorkerStep(s, o);
    SameHolders(s, s', c);
    hide LastDeclared, HeldBySubscribe;
  }

  lemma ListedOnce(s: State, o: Outcome)
    requires Epochs(s) && (!Listed(s.worker) ==> s.mon.consuming == {})
    ensures !Listed(WorkerStep(s, o).worker) ==> WorkerStep(s, o).mon.consuming == {}
    ensures s.worker.Connecting? || s.worker.Emptying? ==>
              WorkerStep(s, o).mon.consuming == {} && !WorkerStep(s, o).worker.Setting?
  {
    if s.worker.Setting? {
      SetupFrame(s, o.err);
    }
    hide OnConnect, SetupStep;
  }

  lemma NoNewSetup(s: State, o: Outcome, c: int)
    requires PastDeclare(WorkerStep(s, o).worker, c)
    ensures s.worker.Setting?
  {
    hide OnConnect, OnClose, SetupStep;
  }

  lemma WorkerKeepsUpToDate(s: State, o: Outcome)
    requires Inv(s) && UpToDate(s) && WorkerEnabled(s, o)
    ensures UpToDate(WorkerStep(s, o))
  {
    var s' := WorkerStep(s, o);
    assert Epochs(s) && SetupOrdered(s);
    hide Inv;
    ListedOnce(s, o);
    WorkerTouchesNoTable(s, o);
    if Active(s') && !s.worker.Connecting? && !s.worker.Emptying? {
      StaysConnected(s, o);
      forall c | c in s'.mon.consuming || PastDeclare(s'.worker, c) ensures Current(s', c) || Renewed(s', c) {
        if s.worker.Setting? {
          SetupIsStep(s, o);
          hide WorkerStep, Current, Renewed, SetupOrdered;
          SetupKeepsUpToDate(s, o.err, c);
        } else {
          if PastDeclare(s'.worker, c) {
            NoNewSetup(s, o, c);
          }
          hide WorkerStep, Current, Renewed, SetupOrdered;
          LoopKeepsUpToDate(s, o, c);
        }
      }
    }
  }

  lemma SetupIsStep(s: State, o: Outcome)
    requires s.worker.Setting?
    ensures WorkerStep(s, o) == SetupStep(s, o.err)
  {
  }

  /** Subscribe changes a channel's properties only while it holds the channel, and lets go of it only
      by pushing it. */
  lemma SubscribeKeepsUpToDate(s: State, id: nat, c: int)
    requires SubscribeEnabled(s, id) && s.running && Registered(s.table, c)
    requires Current(s, c) || Renewed(s, c)
    ensures Current(SubscribeStep(s, id), c) || Renewed(SubscribeStep(s, id), c)
  {
    var s' := SubscribeStep(s, id);
    hide LastDeclared;
    assert Holds(s.subscribers[id], c) ==> HeldBySubscribe(s, c);
    if HeldBySubscribe(s, c) {
      var i :| i in s.subscribers && Holds(s.subscribers[i], c);
      if i != id || !s.subscribers[id].Pushing? {
        assert i in s'.subscribers && Holds(s'.subscribers[i], c);
      }
    }
  }

  lemma SubscribeKeepsWork(s: State, id: nat)
    requires id in s.subscribers
    ensures var s' := SubscribeStep(s, id);
            && s'.worker == s.worker && s'.conn == s.conn && s'.mon.consuming == s.mon.consuming
            && s'.running == s.running && s'.control == s.control
  {
    hide AddProcessor, WithProperties;
  }

  /** The controlling thread. */
  lemma ControlKeepsUpToDate(s: State, a: Action)
    requires Lifecycle(s) && UpToDate(s) && Enabled(s, a) && (a.Call? || a.ContinueCall?)
    ensures UpToDate(Step(s, a))
  {
    var s' := Step(s, a);
    hide LastDeclared, HeldBySubscribe;
    if Active(s') {
      forall c ensures HeldBySubscribe(s', c) <==> HeldBySubscribe(s, c) {
        SameHolders(s, s', c);
      }
    }
  }

  lemma BeginKeepsUpToDate(s: State, a: Action)
    requires UpToDate(s) && Enabled(s, a) && a.BeginSubscribe?
    ensures UpToDate(Step(s, a))
  {
    var s' := Step(s, a);
    hide LastDeclared;
    forall c | HeldBySubscribe(s, c) ensures HeldBySubscribe(s', c) {
      var id :| id in s.subscribers && Holds(s.subscribers[id], c);
      assert id in s'.subscribers && Holds(s'.subscribers[id], c);
    }
  }

  lemma UpToDateKept(s: State, a: Action)
    requires Inv(s) && UpToDate(s) && Enabled(s, a)
    ensures UpToDate(Step(s, a))
  {
    assert Lifecycle(s) && ChannelsRegistered(s);
    hide WorkerStep, SubscribeStep, CallStep, ControlStep, Inv, Lifecycle;
    match a
    case Work(o) => WorkerKeepsUpToDate(s, o);
    case ContinueSubscribe(id) =>
      SubscribeKeepsWork(s, id);
      hide Current, Renewed;
      forall c | Active(s) && (c in s.mon.consuming || PastDeclare(s.worker, c))
        ensures Current(SubscribeStep(s, id), c) || Renewed(SubscribeStep(s, id), c)
      {
        assert PastDeclare(s.worker, c) ==> c in InHand(s.worker);
        SubscribeKeepsUpToDate(s, id, c);
      }
    case BeginSubscribe(_, _, _, _) => BeginKeepsUpToDate(s, a);
    case _ => ControlKeepsUpToDate(s, a);
  }

  lemma {:induction false} UpToDateAlong(states: seq<State>, actions: seq<Action>, i: nat)
    requires IsRun(states, actions) && i <= |actions|
    ensures UpToDate(states[i])
  {
    hide *;
    if i == 0 {
      UpToDateAtStart(states, actions);
    } else {
      StepOfRun(states, actions, i - 1);
      UpToDateAlong(states, actions, i - 1);
      InvAlongRun(states, actions, i - 1);
      UpToDateKept(states[i - 1], actions[i - 1]);
    }
  }

  lemma UpToDateAtStart(states: seq<State>, actions: seq<Action>)
    requires IsRun(states, actions)
    ensures UpToDate(states[0])
  {
  }

  // ---- The theorem ----

  /** At the loop head, running, connected, outside Stop and with no Subscribe between its add and its
      push, every consuming channel that is not pending was declared with its registered properties. */
  lemma DeclaredAsRegistered(s: State, channel: int)
    requires Reachable(s) && channel in s.mon.consuming && channel !in s.pending
    requires s.worker.LoopTest? && Active(s) && !HeldBySubscribe(s, channel)
    ensures exists i: nat :: SetUpFrom(s.mon.calls, s.table, channel, i)
                             && s.mon.calls[i + 1] == DeclareCall(channel, PropertiesOf(s.table, channel))
  {
    var states, actions :| IsRun(states, actions) && states[|actions|] == s;
    UpToDateAlong(states, actions, |actions|);
    ConsumingWasSetUp(s, channel);
    hide Reachable, IsRun, HeldBySubscribe;
    var i: nat :| SetUpFrom(s.mon.calls, s.table, channel, i);
    LastOfSetUp(s.mon.calls, s.table, channel, i);
  }

  // ---- It needs its conditions ----

  const OWN_PROPERTIES := QueueProperties(0, 1, 0, 0)
  const PAIR := BindingPair("amq.direct", "test")
  const GOOD := Outcome(AllGood, [1])

  /** A Subscribe that has added its channel and not yet set its properties, and a running worker. */
  lemma ReachAdded() returns (s: State)
    ensures Reachable(s) && s.running && s.control.Idle? && s.worker.LoopTest? && !s.conn.connected && s.pending == []
    ensures s.table == [Entry(PAIR, Callback(0), NullName, DEFAULT_PROPERTIES)]
    ensures s.subscribers == map[0 := PropertySetting(1, OWN_PROPERTIES)]
  {
    hide WorkerStep, ControlStep, Reachable;
    s := INITIAL;
    ReachInitial();
    s := Go(s, Call(Initialize));
    s := Go(s, BeginSubscribe(0, PAIR, Callback(0), OWN_PROPERTIES));
    s := Go(s, ContinueSubscribe(0));           // Begun
    s := Go(s, ContinueSubscribe(0));           // Adding
    s := Go(s, Call(Start));
  }

  lemma ReachInitial()
    ensures Reachable(INITIAL)
  {
    assert IsRun([INITIAL], []) && [INITIAL][0] == INITIAL;
  }

  /** It has connected. */
  lemma ReachConnected() returns (s: State)
    ensures Reachable(s) && s.running && s.control.Idle? && s.worker.Locking? && s.conn.connected && s.pending == []
    ensures s.table == [Entry(PAIR, Callback(0), NullName, DEFAULT_PROPERTIES)]
    ensures s.mon.calls == [] && s.mon.consuming == {} && s.subscribers == map[0 := PropertySetting(1, OWN_PROPERTIES)]
  {
    s := ReachAdded();
    assert s.mon.calls == [] && s.mon.consuming == {} by {
      InvHolds(s);
    }
    hide ControlStep, SubscribeStep, CallStep, SetupStep, Reachable;
    s := Go(s, Work(GOOD));                     // LoopTest
    s := Go(s, Work(GOOD));                     // ConnectedTest
    s := Go(s, Work(GOOD));                     // Connecting
  }

  /** Start-up has listed the channel. */
  lemma ReachListed() returns (s: State)
    ensures Reachable(s) && BetweenAddAndSet(s) && s.worker == NextChannel([1], AllGood)
    ensures s.mon.calls == [] && s.mon.consuming == {}
  {
    s := ReachConnected();
    assert IsChannelList([1], 1);
    hide ControlStep, SubscribeStep, CallStep, SetupStep, Reachable;
    s := Go(s, Work(GOOD));                     // Locking
    s := Go(s, Work(GOOD));                     // Emptying
    s := Go(s, Work(GOOD));                     // Listing
  }

  /** One subscription between its add and its properties, on a running consumer. */
  predicate BetweenAddAndSet(s: State) {
    && s.running && s.control.Idle? && s.conn.connected && s.pending == []
    && s.table == [Entry(PAIR, Callback(0), NullName, DEFAULT_PROPERTIES)]
    && s.subscribers == map[0 := PropertySetting(1, OWN_PROPERTIES)]
  }

  /** Its channel is declared, with the default properties. */
  lemma ReachDeclared() returns (s: State)
    ensures Reachable(s) && BetweenAddAndSet(s) && s.worker == Setting(1, Bind, StartUp([])) && s.mon.consuming == {}
    ensures s.mon.calls == [OpenCall(1), DeclareCall(1, DEFAULT_PROPERTIES)]
  {
    s := ReachListed();
    hide ControlStep, SubscribeStep, Reachable;
    s := Go(s, Work(GOOD));                     // NextChannel
    assert s.worker.caller.rest == [];
    s := Go(s, Work(GOOD));                     // Open
    s := Go(s, Work(GOOD));                     // Declare
  }

  /** And consuming. */
  lemma ReachSetUp() returns (s: State)
    ensures Reachable(s) && BetweenAddAndSet(s) && s.worker == NextChannel([], AllGood) && s.mon.consuming == {1}
    ensures s.mon.calls == [OpenCall(1), DeclareCall(1, DEFAULT_PROPERTIES), BindCall(1, PAIR), ConsumeCall(1)]
  {
    s := ReachDeclared();
    hide ControlStep, SubscribeStep, Reachable;
    s := Go(s, Work(GOOD));                     // Bind
    s := Go(s, Work(GOOD));                     // Consume
  }

  /** The worker is back at its loop head. */
  lemma ReachLoopHead() returns (s: State)
    ensures Reachable(s) && BetweenAddAndSet(s) && s.worker.LoopTest? && s.mon.consuming == {1}
    ensures LastDeclared(s.mon.calls, 1) == Some(DEFAULT_PROPERTIES)
  {
    s := ReachSetUp();
    LastOfSetUp(s.mon.calls, s.table, 1, 0);
    s := IdleRound(s);
  }

  /** Start-up is over, and nothing is pending. */
  lemma IdleRound(s: State) returns (s': State)
    requires Reachable(s) && s.worker == NextChannel([], AllGood) && s.pending == []
    ensures Reachable(s') && s' == s.(worker := LoopTest)
  {
    hide ControlStep, SubscribeStep, CallStep, SetupStep, Reachable;
    s' := Go(s, Work(GOOD));                    // NextChannel
    s' := Go(s', Work(GOOD));                   // Pulling
    s' := Go(s', Work(GOOD));                   // SizeTest
  }

  /** While the Subscribe still holds its channel, the channel consumes from a queue that was declared
      with other properties than those registered. */
  lemma OtherPropertiesAreReachable() returns (s: State)
    ensures Reachable(s) && s.worker.LoopTest? && Active(s) && 1 in s.mon.consuming && 1 !in s.pending
    ensures HeldBySubscribe(s, 1) && !Current(s, 1)
    ensures LastDeclared(s.mon.calls, 1) == Some(DEFAULT_PROPERTIES) && PropertiesOf(s.table, 1) == OWN_PROPERTIES
  {
    s := ReachLoopHead();
    hide ControlStep, WorkerStep, Reachable, LastDeclared;
    s := Go(s, ContinueSubscribe(0));           // PropertySetting
    assert Holds(s.subscribers[0], 1);
  }
}
