/** The consumer in the source's own form: a class whose sections (the code under one mutex, or one
    call of the broker) are steps of the protocol, and whose methods run them in the order the
    source does with any number of steps of the other threads in between. `states` and `actions`
    record the run, so every theorem about runs applies to the object. */
module Consumers {
  import opened HareErrors
  import opened Bindings
  import opened Connection
  import opened ChannelHandlers
  import opened ConsumerProtocol
  import opened ConsumerSafety
  import opened ConsumerTheorems
  import opened ConsumerHistories

  /** A thread that is not interrupted by itself. */
  datatype Role = WorkerRole | SubscriberRole(id: nat) | ControlRole

  class Consumer {
    const handler: ChannelHandler
    const connection: ConnectionBase
    var isInitialized: bool
    var threadRunning: bool
    var pendingChannels: seq<int>

    // Where each thread is, and the run so far.
    var worker: WorkerPc
    var control: ControlPc
    var subscribers: map<nat, SubscribePc>
    var mon: Monitor
    ghost var states: seq<State>
    ghost var actions: seq<Action>

    ghost function View(): State
      reads this, handler, connection
    {
      State(handler.table, isInitialized, threadRunning, pendingChannels, connection.View(),
            worker, control, subscribers, mon)
    }

    ghost predicate Valid()
      reads this, handler, handler.repr, connection
    {
      && handler.Valid() && IsRun(states, actions) && states[|actions|] == View()
      && mon.calls == Successes(connection.calls)
    }

    /** One step of the protocol was taken. */
    twostate predicate Took(a: Action)
      reads this, handler, connection
    {
      && old(Enabled(View(), a))
      && View() == Step(old(View()), a)
      && states == old(states) + [View()] && actions == old(actions) + [a]
    }

    /** Some steps were taken: the run goes on from where it was. */
    twostate predicate Later()
      reads this
    {
      old(actions) <= actions
    }

    /** The connection, its calls and the start-up list are as they were. */
    twostate predicate SameWork()
      reads this
    {
      mon == old(mon).(pushed := mon.pushed, popped := mon.popped, retried := mon.retried)
    }

    /** The start-up list, and what has been attempted of it, are as they were. */
    twostate predicate SameList()
      reads this
    {
      mon.listed == old(mon.listed) && mon.known == old(mon.known) && mon.attempted == old(mon.attempted)
    }

    /** Steps of the other threads leave a thread where it is; nor do they touch the worker's
        connection while it runs. */
    twostate predicate Undisturbed(me: Role)
      reads this, connection
    {
      match me
      case WorkerRole =>
        !old(worker).NoThread? && !old(worker).Returned? ==>
          worker == old(worker) && SameWork() && connection.isConnected == old(connection.isConnected)
      case SubscriberRole(id) => id in old(subscribers) ==> id in subscribers && subscribers[id] == old(subscribers[id])
      case ControlRole =>
        && control == old(control)
        && isInitialized == old(isInitialized) && threadRunning == old(threadRunning)
        && (old(worker).NoThread? ==> worker.NoThread?)
    }

    /** Some steps of the worker. */
    twostate predicate OnlyWorker()
      reads this, connection
    {
      Later() && Undisturbed(ControlRole) && subscribers == old(subscribers)
    }

    /** Some steps of one Subscribe. */
    twostate predicate OnlySubscriber(id: nat)
      reads this, connection
    {
      && Later() && Undisturbed(ControlRole) && worker == old(worker) && SameWork()
      && id in subscribers && subscribers == old(subscribers)[id := subscribers[id]]
    }

    constructor ()
      ensures Valid() && View() == INITIAL
    {
      handler := new ChannelHandler();
      connection := new ConnectionBase();
      isInitialized, threadRunning, pendingChannels := false, false, [];
      worker, control, subscribers, mon := NoThread, Idle(AllGood), map[], INITIAL.mon;
      states, actions := [INITIAL], [];
    }

    /** Every state the object goes through satisfies the protocol's invariant. */
    lemma Safe()
      requires Valid()
      ensures Reachable(View()) && Inv(View())
    {
      assert Reachable(View());
      InvHolds(View());
    }

    /** The channel in hand is registered. */
    lemma InHandIsRegistered()
      requires Valid()
      ensures worker.Setting? || worker.PushingBack? ==> Registered(handler.table, worker.channel)
    {
      Safe();
      assert ChannelsRegistered(View());
      assert worker.Setting? || worker.PushingBack? ==> worker.channel in InHand(worker);
    }

    /** The present state is the last of the run. */
    lemma Now()
      requires Valid()
      ensures |states| == |actions| + 1 && states[|states| - 1] == View()
    {
    }

    lemma IsARun()
      requires Valid()
      ensures IsRun(states, actions)
    {
    }

    /** At step n of the run, thread `id` adds the pair or, before that, asks whether the consumer is
        initialized, with what it was given. */
    ghost predicate StepsAt(n: nat, id: nat, pair: BindingPair, callback: Callback, properties: QueueProperties, adding: bool)
      reads this
    {
      && n < |states| && n < |actions| && actions[n] == ContinueSubscribe(id) && id in states[n].subscribers
      && states[n].subscribers[id] == if adding then Adding(pair, callback, properties) else Begun(pair, callback, properties)
    }

    /** The pair dispatches to the callback it is added with, whether it is new or not. */
    lemma AddedCallback(n: nat, id: nat, pair: BindingPair, callback: Callback, properties: QueueProperties)
      requires Valid() && StepsAt(n, id, pair, callback, properties, true)
      ensures n + 1 < |states| && Dispatch(states[n + 1].table, pair) == Some(callback)
    {
      PairsDistinctAlong(states, actions, n);
      StepOfRun(states, actions, n);
      hide IsRun, Step, Enabled, Dispatch;
      DispatchStep(states[n], actions[n], pair);
    }

    /** A new pair's channel has the properties it was given, once its Subscribe has returned. */
    lemma SetProperties(n: nat, id: nat, pair: BindingPair, callback: Callback, properties: QueueProperties)
      requires Valid() && StepsAt(n, id, pair, callback, properties, true) && ChannelOf(states[n].table, pair) == 0
      requires id in subscribers && subscribers[id].Done?
      ensures var c := ChannelOf(handler.table, pair); c != 0 && handler.table[c - 1].properties == properties
    {
      var c := |states[n].table| + 1;
      PropertiesStay(states, actions, n, |actions|, c);
      assert ChannelsRegistered(View()) by {
        Safe();
      }
      hide IsRun, ChannelOf;
      ChannelOfUnique(handler.table, pair, c - 1);
    }

    /** What has happened stays in the record. */
    lemma Recorded(states0: seq<State>, actions0: seq<Action>)
      requires Valid() && IsRun(states0, actions0) && actions0 <= actions
      ensures states0 <= states
    {
      RunsAgree(states0, actions0, states, actions);
    }

    /** Records a step whose effect on the real fields has just been carried out. */
    method Commit(ghost before: State, ghost a: Action, worker': WorkerPc, control': ControlPc,
                  subscribers': map<nat, SubscribePc>, mon': Monitor)
      requires IsRun(states, actions) && states[|actions|] == before && Enabled(before, a)
      requires Step(before, a) == State(handler.table, isInitialized, threadRunning, pendingChannels,
                                        connection.View(), worker', control', subscribers', mon')
      requires mon'.calls == Successes(connection.calls)
      modifies this`worker, this`control, this`subscribers, this`mon, this`states, this`actions
      ensures View() == Step(before, a) && mon.calls == Successes(connection.calls)
      ensures IsRun(states, actions) && states[|actions|] == View()
      ensures states == old(states) + [View()] && actions == old(actions) + [a]
    {
      hide Step, Enabled;
      worker, control, subscribers, mon := worker', control', subscribers', mon';
      states, actions := states + [Step(before, a)], actions + [a];
      RunExtends(old(states), old(actions), a);
    }

    // ---- Sections of the worker ----

    method IsRunningSection() returns (running: bool)
      requires Valid() && worker.LoopTest?
      modifies this
      ensures Valid() && OnlyWorker() && Took(Work(Outcome(AllGood, [])))
      ensures running == threadRunning
      ensures worker == if running then ConnectedTest else Returned
    {
      ghost var before := View();
      running := threadRunning;
      Commit(before, Work(Outcome(AllGood, [])), if running then ConnectedTest else Returned, control, subscribers,
             if running then mon.(iterations := mon.iterations + 1) else mon);
    }

    method IsConnectedSection() returns (connected: bool)
      requires Valid() && worker.ConnectedTest?
      modifies this
      ensures Valid() && OnlyWorker() && Took(Work(Outcome(AllGood, [])))
      ensures worker == if connected then Pulling else Connecting
    {
      ghost var before := View();
      connected := connection.isConnected;
      Commit(before, Work(Outcome(AllGood, [])), if connected then Pulling else Connecting, control, subscribers, mon);
    }

    method ConnectSection() returns (ret: HareError)
      requires Valid() && worker.Connecting?
      modifies this, connection
      ensures Valid() && OnlyWorker() && Took(Work(Outcome(ret, [])))
      ensures connection.isConnected <==> NoError(ret)
      ensures worker == if NoError(ret) then Locking else SizeTest
    {
      Safe();
      assert mon.calls == [] && Successes([]) == [];
      ghost var before := View();
      var socketMade, socketOpened, loggedIn: bool := *, *, *;
      ret := connection.Connect(socketMade, socketOpened, loggedIn);
      Commit(before, Work(Outcome(ret, [])), if NoError(ret) then Locking else SizeTest, control, subscribers, mon);
    }

    /** startConsumption takes the consumer mutex. */
    method LockSection()
      requires Valid() && worker.Locking?
      modifies this
      ensures Valid() && OnlyWorker() && Took(Work(Outcome(AllGood, []))) && worker.Emptying?
    {
      Commit(View(), Work(Outcome(AllGood, [])), Emptying, control, subscribers, mon);
    }

    method EmptyPendingSection()
      requires Valid() && worker.Emptying?
      modifies this
      ensures Valid() && OnlyWorker() && Took(Work(Outcome(AllGood, []))) && worker.Listing?
      ensures pendingChannels == []
    {
      ghost var before := View();
      EmptyPendingChannels();
      Commit(before, Work(Outcome(AllGood, [])), Listing, control, subscribers, mon.(pushed := [], popped := [], retried := []));
    }

    method GetChannelListSection() returns (list: seq<int>)
      requires Valid() && worker.Listing?
      modifies this
      ensures Valid() && OnlyWorker() && Took(Work(Outcome(AllGood, list))) && worker == NextChannel(list, AllGood)
      ensures mon.listed == list && mon.attempted == [] && IsChannelList(list, mon.known) && mon.known == |handler.table|
    {
      ghost var before := View();
      list := handler.GetChannelList();
      var known := handler.nextAvailableChannel - 1;
      Commit(before, Work(Outcome(AllGood, list)), NextChannel(list, AllGood), control, subscribers,
             mon.(listed := list, known := known, attempted := []));
    }

    /** The head of the start-up loop: the next channel, or the return of startConsumption. */
    method NextChannelSection() returns (next: WorkerPc)
      requires Valid() && worker.NextChannel?
      modifies this
      ensures Valid() && OnlyWorker() && Took(Work(Outcome(AllGood, []))) && worker == next
      ensures mon.listed == old(mon.listed) && mon.known == old(mon.known)
      ensures mon.attempted == old(mon.attempted) + old(worker.rest)[..if old(worker.rest) == [] then 0 else 1]
      ensures old(worker.rest) == [] ==> next == if NoError(old(worker.last)) then Pulling else SizeTest
      ensures old(worker.rest) != [] ==> next == Setting(old(worker.rest)[0], Open, StartUp(old(worker.rest)[1..]))
    {
      ghost var before := View();
      if worker.rest == [] {
        next := if NoError(worker.last) then Pulling else SizeTest;
        Commit(before, Work(Outcome(AllGood, [])), next, control, subscribers, mon);
      } else {
        next := Setting(worker.rest[0], Open, StartUp(worker.rest[1..]));
        Commit(before, Work(Outcome(AllGood, [])), next, control, subscribers,
               mon.(attempted := mon.attempted + [worker.rest[0]]));
      }
    }

    method OpenChannel() returns (ret: HareError)
      requires Valid() && worker.Setting? && worker.next.Open?
      modifies this, connection`calls
      ensures Valid() && OnlyWorker() && Took(Work(Outcome(ret, [])))
      ensures var (c, caller) := old((worker.channel, worker.caller));
              worker == if NoError(ret) then Setting(c, Declare, caller) else PushingBack(c, ret, caller)
      ensures connection.calls == if connection.isConnected then old(connection.calls) + [Sent(OpenCall(old(worker.channel)), ret)]
                                  else old(connection.calls)
      ensures SameList() && mon.consuming == old(mon.consuming) - {old(worker.channel)}
    {
      hide Successes, IsRun, SubscribeStep, CallStep, ControlStep;
      ghost var before := View();
      var reply: RpcReply := *;
      ret := connection.OpenChannel(worker.channel, reply);
      OneMoreSent(old(connection.calls), OpenCall(worker.channel), ret);
      var c, caller := worker.channel, worker.caller;
      var tried := mon.(consuming := mon.consuming - {c});
      if NoError(ret) {
        Commit(before, Work(Outcome(ret, [])), Setting(c, Declare, caller), control, subscribers,
               tried.(calls := mon.calls + [OpenCall(c)]));
      } else {
        Commit(before, Work(Outcome(ret, [])), PushingBack(c, ret, caller), control, subscribers, tried);
      }
    }

    lemma DeclareStep(s: State)
      requires s.worker.Setting? && s.worker.next.Declare? && Registered(s.table, s.worker.channel)
      ensures var a, c := Work(Outcome(AllGood, [])), s.worker.channel;
              && Enabled(s, a)
              && Step(s, a) == s.(worker := Setting(c, Bind, s.worker.caller),
                                  mon := s.mon.(calls := s.mon.calls + [DeclareCall(c, s.table[c - 1].properties)]))
    {
    }

    lemma BindStep(s: State, ret: HareError)
      requires s.worker.Setting? && s.worker.next.Bind? && Registered(s.table, s.worker.channel)
      ensures var a, c := Work(Outcome(ret, [])), s.worker.channel;
              && Enabled(s, a)
              && Step(s, a) == if NoError(ret)
                               then s.(worker := Setting(c, Consume, s.worker.caller),
                                       mon := s.mon.(calls := s.mon.calls + [BindCall(c, s.table[c - 1].pair)]))
                               else s.(worker := PushingBack(c, ret, s.worker.caller))
    {
    }

    method DeclareQueue() returns (ret: HareError)
      requires Valid() && worker.Setting? && worker.next.Declare?
      modifies this, connection`calls
      ensures Valid() && OnlyWorker() && Took(Work(Outcome(AllGood, []))) && NoError(ret)
      ensures var (c, caller) := old((worker.channel, worker.caller)); worker == Setting(c, Bind, caller)
      ensures Registered(handler.table, old(worker.channel))
      ensures var c := old(worker.channel);
              connection.calls == old(connection.calls) + [Sent(DeclareCall(c, handler.table[c - 1].properties), ret)]
      ensures SameList() && mon.consuming == old(mon.consuming)
    {
      hide Successes, IsRun, Step, Enabled, Indexed, Stored;
      InHandIsRegistered();
      ghost var before := View();
      var reply: RpcReply := *;
      var properties := handler.GetQueueProperties(worker.channel);
      var named;
      ret, named := connection.DeclareQueue(worker.channel, properties, reply);
      OneMoreSent(old(connection.calls), DeclareCall(worker.channel, properties), ret);
      DeclareStep(before);
      Commit(before, Work(Outcome(AllGood, [])), Setting(worker.channel, Bind, worker.caller), control, subscribers,
             mon.(calls := mon.calls + [DeclareCall(worker.channel, properties)]));
    }

    method BindQueue() returns (ret: HareError)
      requires Valid() && worker.Setting? && worker.next.Bind?
      modifies this, connection`calls
      ensures Valid() && OnlyWorker() && Took(Work(Outcome(ret, [])))
      ensures var (c, caller) := old((worker.channel, worker.caller));
              worker == if NoError(ret) then Setting(c, Consume, caller) else PushingBack(c, ret, caller)
      ensures Registered(handler.table, old(worker.channel))
      ensures var c := old(worker.channel);
              connection.calls == old(connection.calls) + [Sent(BindCall(c, handler.table[c - 1].pair), ret)]
      ensures SameList() && mon.consuming == old(mon.consuming)
    {
      hide Successes, IsRun, Step, Enabled, Indexed, Stored;
      InHandIsRegistered();
      ghost var before := View();
      var reply: RpcReply := *;
      var exchange := handler.GetExchange(worker.channel);
      var key := handler.GetBindingKey(worker.channel);
      ret := connection.BindQueue(worker.channel, exchange, key, reply);
      OneMoreSent(old(connection.calls), BindCall(worker.channel, BindingPair(exchange, key)), ret);
      var c, caller := worker.channel, worker.caller;
      BindStep(before, ret);
      if NoError(ret) {
        Commit(before, Work(Outcome(ret, [])), Setting(c, Consume, caller), control, subscribers,
               mon.(calls := mon.calls + [BindCall(c, BindingPair(exchange, key))]));
      } else {
        Commit(before, Work(Outcome(ret, [])), PushingBack(c, ret, caller), control, subscribers, mon);
      }
    }

    method StartConsumptionCall() returns (ret: HareError)
      requires Valid() && worker.Setting? && worker.next.Consume?
      modifies this, connection`calls
      ensures Valid() && OnlyWorker() && Took(Work(Outcome(ret, [])))
      ensures var (c, caller) := old((worker.channel, worker.caller));
              worker == if NoError(ret) then AfterSetup(caller, AllGood) else PushingBack(c, ret, caller)
      ensures connection.calls == old(connection.calls) + [Sent(ConsumeCall(old(worker.channel)), ret)]
      ensures SameList()
      ensures mon.consuming == old(mon.consuming) + if NoError(ret) then {old(worker.channel)} else {}
    {
      hide Successes, IsRun, SubscribeStep, CallStep, ControlStep;
      ghost var before := View();
      var reply: RpcReply := *;
      ret := connection.StartConsumption(worker.channel, reply);
      OneMoreSent(old(connection.calls), ConsumeCall(worker.channel), ret);
      var c, caller := worker.channel, worker.caller;
      if NoError(ret) {
        Commit(before, Work(Outcome(ret, [])), AfterSetup(caller, AllGood), control, subscribers,
               mon.(calls := mon.calls + [ConsumeCall(c)], consuming := mon.consuming + {c},
                    retried := if caller.Retry? then mon.retried + [(c, true)] else mon.retried));
      } else {
        Commit(before, Work(Outcome(ret, [])), PushingBack(c, ret, caller), control, subscribers, mon);
      }
    }

    method PushBackSection()
      requires Valid() && worker.PushingBack?
      modifies this
      ensures Valid() && OnlyWorker() && Took(Work(Outcome(AllGood, [])))
      ensures var (err, caller) := old((worker.err, worker.caller)); worker == AfterSetup(caller, err)
      ensures SameList() && mon.consuming == old(mon.consuming)
      ensures pendingChannels == old(pendingChannels) + [old(worker.channel)]
    {
      ghost var before := View();
      var c, caller := worker.channel, worker.caller;
      PushIntoPendingChannels(c);
      Commit(before, Work(Outcome(AllGood, [])), AfterSetup(caller, worker.err), control, subscribers,
             mon.(pushed := mon.pushed + [c], retried := if caller.Retry? then mon.retried + [(c, false)] else mon.retried));
    }

    /** CloseConnection, after an aborted start-up or a failed pull. */
    method CloseSection()
      requires Valid() && (worker.Aborting? || worker.PullClosing?)
      modifies this, connection
      ensures Valid() && OnlyWorker() && Took(Work(Outcome(AllGood, []))) && worker.SizeTest?
      ensures !connection.isConnected
    {
      ghost var before := View();
      var reply: RpcReply := *;
      var ret := connection.CloseConnection(reply);
      Commit(before, Work(Outcome(AllGood, [])), SizeTest, control, subscribers, mon.(consuming := {}, calls := []));
    }

    /** Hands the envelope's message to the handler, unless it is malformed. */
    method DispatchEnvelope(envelope: Envelope<BindingPair>) returns (read: BindingPair, ran: Option<Callback>)
      requires handler.Valid()
      ensures envelope.NoEnvelope? ==> ran == None
      ensures envelope.Delivered? ==> read == envelope.message
      ensures !envelope.NoEnvelope? && read.exchangeName != "" ==> ran == Dispatch(handler.table, read)
      ensures !envelope.NoEnvelope? && read.exchangeName == "" ==> ran == None
    {
      read, ran := *, None;
      if envelope.NoEnvelope? {
        return;
      }
      if envelope.Delivered? {
        read := envelope.message;
      }
      if read.exchangeName != "" {
        ran := handler.Process(read);
      }
    }

    /** ConsumeMessage, and the dispatch of the message it pulled. */
    method PullSection()
        returns (ret: HareError, envelope: Envelope<BindingPair>, read: BindingPair, ran: Option<Callback>)
      requires Valid() && worker.Pulling?
      modifies this
      ensures Valid() && OnlyWorker() && Took(Work(Outcome(ret, [])))
      ensures worker == if old(connection.isConnected) && ServerFailure(ret) then PullFailed else SizeTest
      ensures NoError(ret) <==> !envelope.NoEnvelope?
      ensures actions == old(actions) + [Work(Outcome(ret, []))]
      ensures envelope.NoEnvelope? ==> ran == None
      ensures envelope.Delivered? ==> read == envelope.message
      ensures !envelope.NoEnvelope? && read.exchangeName != "" ==> ran == Dispatch(handler.table, read)
      ensures !envelope.NoEnvelope? && read.exchangeName == "" ==> ran == None
    {
      hide IsRun, SetupStep, SubscribeStep, CallStep, ControlStep, Indexed, Stored, ChannelOf, Dispatch;
      ghost var before := View();
      var delivered: BindingPair, reply: RpcReply := *, *;
      ret, envelope := connection.ConsumeMessage(delivered, reply);
      read, ran := DispatchEnvelope(envelope);
      Commit(before, Work(Outcome(ret, [])), if connection.isConnected && ServerFailure(ret) then PullFailed else SizeTest,
             control, subscribers, mon);
    }

    method PullFailedSection()
      requires Valid() && worker.PullFailed?
      modifies this
      ensures Valid() && OnlyWorker() && Took(Work(Outcome(AllGood, [])))
      ensures worker == if threadRunning then PullClosing else SizeTest
      ensures states == old(states) + [View()] && actions == old(actions) + [Work(Outcome(AllGood, []))]
    {
      Commit(View(), Work(Outcome(AllGood, [])), if threadRunning then PullClosing else SizeTest, control, subscribers, mon);
    }

    method PendingChannelSizeSection() returns (size: nat)
      requires Valid() && worker.SizeTest?
      modifies this
      ensures Valid() && OnlyWorker() && Took(Work(Outcome(AllGood, [])))
      ensures worker == if size != 0 then Popping else LoopTest
    {
      size := |pendingChannels|;
      Commit(View(), Work(Outcome(AllGood, [])), if size != 0 then Popping else LoopTest, control, subscribers, mon);
    }

    /** Popping an empty queue is undefined behaviour. */
    method PopNextPendingChannelSection()
      requires Valid() && worker.Popping?
      modifies this
      ensures Valid() && OnlyWorker() && Took(Work(Outcome(AllGood, [])))
      ensures worker.Faulted? <==> old(pendingChannels) == []
      ensures !worker.Faulted? ==> worker == Setting(old(pendingChannels)[0], Open, Retry)
      ensures !worker.Faulted? ==> pendingChannels == old(pendingChannels)[1..]
    {
      ghost var before := View();
      if pendingChannels == [] {
        Commit(before, Work(Outcome(AllGood, [])), Faulted, control, subscribers, mon);
      } else {
        var c := pendingChannels[0];
        pendingChannels := pendingChannels[1..];
        Commit(before, Work(Outcome(AllGood, [])), Setting(c, Open, Retry), control, subscribers,
               mon.(popped := mon.popped + [c], attempted := mon.attempted + [c]));
      }
    }

    // ---- The pending queue ----

    method PushIntoPendingChannels(channel: int)
      modifies this`pendingChannels
      ensures pendingChannels == old(pendingChannels) + [channel]
    {
      pendingChannels := pendingChannels + [channel];
    }

    method EmptyPendingChannels()
      modifies this`pendingChannels
      ensures pendingChannels == []
    {
      while pendingChannels != [] {
        pendingChannels := pendingChannels[1..];
      }
    }

    // ---- Sections of Subscribe ----

    /** Under the handler mutex: the pair gets a channel, or a new callback. */
    method AddSection(id: nat)
      requires Valid() && id in subscribers && subscribers[id].Adding?
      modifies this, handler, handler.repr
      ensures Valid() && OnlySubscriber(id) && Took(ContinueSubscribe(id))
      ensures subscribers[id].Done? <==> ChannelOf(old(handler.table), old(subscribers[id]).pair) != 0
      ensures subscribers[id].Done? ==> subscribers[id] == Done(UnableToSubscribe)
      ensures !subscribers[id].Done? ==> subscribers[id].PropertySetting?
      ensures fresh(handler.repr - old(handler.repr))
      ensures states == old(states) + [View()] && actions == old(actions) + [ContinueSubscribe(id)]
    {
      hide IsRun, WorkerStep, CallStep, ControlStep, AddProcessor, Indexed;
      ghost var before := View();
      var Adding(pair, callback, properties) := subscribers[id];
      AddedIffNew(handler.table, pair, callback);
      var channel := handler.AddChannelProcessor(pair, callback);
      Commit(before, ContinueSubscribe(id), worker, control,
             subscribers[id := if channel == -1 then Done(UnableToSubscribe) else PropertySetting(channel, properties)], mon);
    }

    method SetPropertiesSection(id: nat)
      requires Valid() && id in subscribers && subscribers[id].PropertySetting?
      modifies this, handler`table, handler.repr
      ensures Valid() && OnlySubscriber(id) && Took(ContinueSubscribe(id))
      ensures subscribers[id].RunningTest?
    {
      ghost var before := View();
      var PropertySetting(channel, properties) := subscribers[id];
      handler.SetQueueProperties(channel, properties);
      Commit(before, ContinueSubscribe(id), worker, control, subscribers[id := RunningTest(channel)], mon);
    }

    /** IsInitialized(), under the consumer mutex. */
    method BegunSection(id: nat)
      requires Valid() && id in subscribers && subscribers[id].Begun? && !MutexHeld(worker)
      modifies this
      ensures Valid() && OnlySubscriber(id) && Took(ContinueSubscribe(id))
      ensures subscribers[id].Done? <==> !old(isInitialized)
      ensures subscribers[id].Done? ==> subscribers[id] == Done(NotInitialized)
      ensures var Begun(pair, callback, properties) := old(subscribers[id]);
              !subscribers[id].Done? ==> subscribers[id] == Adding(pair, callback, properties)
      ensures !subscribers[id].Done? ==> subscribers[id].Adding?
      ensures states == old(states) + [View()] && actions == old(actions) + [ContinueSubscribe(id)]
    {
      var Begun(pair, callback, properties) := subscribers[id];
      Commit(View(), ContinueSubscribe(id), worker, control,
             subscribers[id := if isInitialized then Adding(pair, callback, properties) else Done(NotInitialized)], mon);
    }

    /** IsRunning(), under the consumer mutex. */
    method RunningTestSection(id: nat)
      requires Valid() && id in subscribers && subscribers[id].RunningTest? && !MutexHeld(worker)
      modifies this
      ensures Valid() && OnlySubscriber(id) && Took(ContinueSubscribe(id))
      ensures subscribers[id] == if threadRunning then Pushing(old(subscribers)[id].channel) else Done(AllGood)
    {
      var channel := subscribers[id].channel;
      Commit(View(), ContinueSubscribe(id), worker, control,
             subscribers[id := if threadRunning then Pushing(channel) else Done(AllGood)], mon);
    }

    method PushSection(id: nat)
      requires Valid() && id in subscribers && subscribers[id].Pushing?
      modifies this
      ensures Valid() && OnlySubscriber(id) && Took(ContinueSubscribe(id))
      ensures subscribers[id] == Done(AllGood)
      ensures pendingChannels == old(pendingChannels) + [old(subscribers)[id].channel]
    {
      ghost var before := View();
      var channel := subscribers[id].channel;
      PushIntoPendingChannels(channel);
      Commit(before, ContinueSubscribe(id), worker, control, subscribers[id := Done(AllGood)],
             mon.(pushed := mon.pushed + [channel]));
    }

    method BeginSubscribeSection(id: nat, pair: BindingPair, callback: Callback, properties: QueueProperties)
      requires Valid() && id !in subscribers
      modifies this
      ensures Valid() && Later() && Took(BeginSubscribe(id, pair, callback, properties))
      ensures id in subscribers && subscribers[id] == Begun(pair, callback, properties)
      ensures states == old(states) + [View()]
    {
      Commit(View(), BeginSubscribe(id, pair, callback, properties), worker, control,
             subscribers[id := Begun(pair, callback, properties)], mon);
    }

    // ---- Sections of the controlling thread ----

    method InitializeSection()
      requires Valid() && control.Idle? && !threadRunning
      modifies this, connection
      ensures Valid() && Later() && Took(Call(ApiCall.Initialize)) && control == Idle(AllGood)
      ensures isInitialized && !threadRunning && !connection.isConnected && worker == old(worker)
    {
      ghost var before := View();
      var reply: RpcReply := *;
      var ret := connection.CloseConnection(reply);
      isInitialized, threadRunning := true, false;
      Commit(before, Call(ApiCall.Initialize), worker, Idle(AllGood), subscribers, mon.(consuming := {}, calls := []));
    }

    method StartSection() returns (ret: HareError)
      requires Valid() && control.Idle? && !MutexHeld(worker)
      modifies this
      ensures Valid() && Later() && Took(Call(ApiCall.Start)) && control == Idle(ret)
      ensures ret == NotInitialized <==> !isInitialized
      ensures ret == ThreadAlreadyRunning <==> isInitialized && old(threadRunning)
      ensures NoError(ret) <==> isInitialized && !old(threadRunning)
      ensures isInitialized == old(isInitialized) && threadRunning == (old(threadRunning) || NoError(ret))
      ensures worker == if NoError(ret) then LoopTest else old(worker)
    {
      ghost var before := View();
      var w;
      ret, w := StartBodySection();
      Commit(before, Call(ApiCall.Start), w, Idle(ret), subscribers, mon);
    }

    method CallSection(call: ApiCall)
      requires Valid() && CallEnabled(View(), call)
      modifies this, connection
      ensures Valid() && Later() && Took(Call(call))
    {
      ghost var before := View();
      match call
      case Initialize => InitializeSection();
      case Start => var ret := StartSection();
      case Stop => BeginStopSection(call);
      case Restart => BeginStopSection(call);
      case Destroy =>
        if threadRunning {
          EmptyPendingChannels();
          Commit(before, Call(call), worker, StopTesting(ThenDestroy), subscribers, mon.(pushed := [], popped := [], retried := []));
        } else {
          Commit(before, Call(call), worker, Destroying, subscribers, mon);
        }
    }

    /** Stop's and Restart's first act. */
    method BeginStopSection(call: ApiCall)
      requires Valid() && control.Idle? && (call.Stop? || call.Restart?)
      modifies this
      ensures Valid() && Later() && Took(Call(call))
      ensures control == StopTesting(if call.Stop? then JustStop else ThenStart)
      ensures isInitialized == old(isInitialized) && threadRunning == old(threadRunning)
      ensures pendingChannels == []
    {
      ghost var before := View();
      EmptyPendingChannels();
      Commit(before, Call(call), worker, StopTesting(if call.Stop? then JustStop else ThenStart), subscribers,
             mon.(pushed := [], popped := [], retried := []));
    }

    /** The body of Start, under the consumer mutex; `w` is the worker's location afterwards. */
    method StartBodySection() returns (ret: HareError, w: WorkerPc)
      modifies this`threadRunning
      ensures ret == NotInitialized <==> !isInitialized
      ensures ret == ThreadAlreadyRunning <==> isInitialized && old(threadRunning)
      ensures NoError(ret) <==> isInitialized && !old(threadRunning)
      ensures threadRunning == (old(threadRunning) || NoError(ret))
      ensures w == if NoError(ret) then LoopTest else worker
    {
      ret, w := AllGood, worker;
      if !isInitialized {
        ret := NotInitialized;
      } else if threadRunning {
        ret := ThreadAlreadyRunning;
      }
      if NoError(ret) {
        threadRunning := true;
        w := LoopTest;
      }
    }

    /** The sections of Stop before the thread is joined, and the join. */
    method StopSection()
      requires Valid() && ControlEnabled(View())
      requires control.StopTesting? || control.ClearingFlag? || control.Joining?
      modifies this
      ensures Valid() && Later() && Took(ContinueCall(AllGood))
      ensures isInitialized == old(isInitialized)
      ensures old(control).StopTesting? ==>
                && worker == old(worker) && threadRunning == old(threadRunning)
                && control == if !isInitialized then AfterStop(old(control.after), NotInitialized)
                              else if !threadRunning then AfterStop(old(control.after), ThreadNotRunning)
                              else ClearingFlag(old(control.after))
      ensures old(control).ClearingFlag? ==> control == Joining(old(control.after)) && !threadRunning
      ensures old(control).Joining? ==>
                control == Closing(old(control.after)) && worker.NoThread? && threadRunning == old(threadRunning)
    {
      ghost var before := View();
      match control {
        case StopTesting(after) =>
          var next := if !isInitialized then AfterStop(after, NotInitialized)
                      else if !threadRunning then AfterStop(after, ThreadNotRunning) else ClearingFlag(after);
          Commit(before, ContinueCall(AllGood), worker, next, subscribers, mon);
        case ClearingFlag(after) =>
          threadRunning := false;
          Commit(before, ContinueCall(AllGood), worker, Joining(after), subscribers, mon);
        case Joining(after) =>
          Commit(before, ContinueCall(AllGood), NoThread, Closing(after), subscribers, mon);
      }
    }

    method StopCloseSection(reply: RpcReply) returns (ret: HareError)
      requires Valid() && control.Closing?
      modifies this, connection
      ensures Valid() && Later() && Took(ContinueCall(ret))
      ensures control == AfterStop(old(control.after), ret) && !connection.isConnected
      ensures ret == CloseCode(old(connection.isConnected), reply)
      ensures isInitialized == old(isInitialized) && threadRunning == old(threadRunning) && worker == old(worker)
      ensures states == old(states) + [View()]
    {
      ghost var before := View();
      ret := connection.CloseConnection(reply);
      Commit(before, ContinueCall(ret), worker, AfterStop(control.after, ret), subscribers,
             mon.(consuming := {}, calls := []));
    }

    method RestartSection() returns (ret: HareError)
      requires Valid() && control.Starting? && !MutexHeld(worker)
      modifies this
      ensures Valid() && Later() && Took(ContinueCall(AllGood)) && control == Idle(ret)
      ensures NoError(ret) ==> threadRunning && worker.LoopTest?
      ensures old(isInitialized) && !old(threadRunning) ==> NoError(ret)
      ensures states == old(states) + [View()]
    {
      ghost var before := View();
      var w;
      ret, w := StartBodySection();
      Commit(before, ContinueCall(AllGood), w, Idle(ret), subscribers, mon);
    }

    /** The rest of the destructor. */
    method DestroySection()
      requires Valid() && control.Destroying?
      modifies this, connection
      ensures Valid() && Later() && Took(ContinueCall(AllGood)) && control.Gone?
      ensures !isInitialized && !connection.isConnected
    {
      Safe();
      ghost var before := View();
      if isInitialized {
        var reply: RpcReply := *;
        var ret := connection.CloseConnection(reply);
        isInitialized := false;
        Commit(before, ContinueCall(AllGood), worker, Gone, subscribers, mon.(consuming := {}, calls := []));
      } else {
        Commit(before, ContinueCall(AllGood), worker, Gone, subscribers, mon);
      }
    }

    // ---- The other threads ----

    method SetupSection()
      requires Valid() && (worker.Setting? || worker.PushingBack?)
      modifies this, connection`calls
      ensures Valid() && OnlyWorker()
    {
      hide Valid, Took, Step, WorkerStep, IsRun;
      match worker {
        case Setting(_, Open, _) => var ret := OpenChannel();
        case Setting(_, Declare, _) => var ret := DeclareQueue();
        case Setting(_, Bind, _) => var ret := BindQueue();
        case Setting(_, Consume, _) => var ret := StartConsumptionCall();
        case PushingBack(_, _, _) => PushBackSection();
      }
    }

    method LoopSection()
      requires Valid() && !worker.NoThread? && !worker.Returned? && !worker.Faulted?
      requires !worker.Setting? && !worker.PushingBack?
      modifies this, connection
      ensures Valid() && OnlyWorker()
    {
      hide Valid, Took, Step, WorkerStep, IsRun;
      match worker {
        case LoopTest => var running := IsRunningSection();
        case ConnectedTest => var connected := IsConnectedSection();
        case Connecting => var ret := ConnectSection();
        case Locking => LockSection();
        case Emptying => EmptyPendingSection();
        case Listing => var list := GetChannelListSection();
        case NextChannel(_, _) => var next := NextChannelSection();
        case Aborting => CloseSection();
        case PullClosing => CloseSection();
        case Pulling => var ret, envelope, read, ran := PullSection();
        case PullFailed => PullFailedSection();
        case SizeTest => var size := PendingChannelSizeSection();
        case Popping => PopNextPendingChannelSection();
      }
    }

    method SubscribeSection(id: nat)
      requires Valid() && SubscribeEnabled(View(), id)
      modifies this, handler, handler.repr
      ensures Valid() && OnlySubscriber(id)
      ensures fresh(handler.repr - old(handler.repr))
    {
      hide Valid, Took, Step, WorkerStep, IsRun;
      match subscribers[id] {
        case Begun(_, _, _) => BegunSection(id);
        case Adding(_, _, _) => AddSection(id);
        case PropertySetting(_, _) => SetPropertiesSection(id);
        case RunningTest(_) => RunningTestSection(id);
        case Pushing(_) => PushSection(id);
      }
    }

    method ControlSection()
      requires Valid() && ControlEnabled(View())
      modifies this, connection
      ensures Valid() && Later() && Undisturbed(WorkerRole) && subscribers == old(subscribers)
    {
      Safe();
      match control {
        case StopTesting(_) => StopSection();
        case ClearingFlag(_) => StopSection();
        case Joining(_) => StopSection();
        case Closing(_) => var reply: RpcReply := *; var ret := StopCloseSection(reply);
        case Starting => var ret := RestartSection();
        case Destroying => DestroySection();
      }
    }

    method NewCallSection(call: ApiCall)
      requires Valid() && CallEnabled(View(), call)
      modifies this, connection
      ensures Valid() && Later() && Undisturbed(WorkerRole) && subscribers == old(subscribers)
    {
      Safe();
      CallSection(call);
    }

    /** One section of whatever thread the scheduler picks, other than `me`. */
    method OtherSection(me: Role)
      requires Valid()
      modifies this, connection, handler, handler.repr
      ensures Valid() && Later() && Undisturbed(me)
      ensures fresh(handler.repr - old(handler.repr))
    {
      var pick: nat, id: nat := *, *;
      if pick == 0 && me != WorkerRole && !worker.NoThread? && !worker.Returned? && !worker.Faulted? {
        if worker.Setting? || worker.PushingBack? {
          SetupSection();
        } else {
          LoopSection();
        }
      } else if pick == 1 && me != ControlRole && CanControl() {
        ControlSection();
      } else if pick == 2 && me != ControlRole && control.Idle? {
        var call: ApiCall := *;
        if (call.Initialize? ==> !threadRunning) && (call.Start? ==> !MutexHeld(worker)) {
          NewCallSection(call);
        }
      } else if pick == 3 && id !in subscribers {
        var pair: BindingPair, callback: Callback, properties: QueueProperties := *, *, *;
        BeginSubscribeSection(id, pair, callback, properties);
      } else if pick == 4 && me != SubscriberRole(id) && id in subscribers && !subscribers[id].Done? {
        if subscribers[id].Begun? || subscribers[id].RunningTest? ==> !MutexHeld(worker) {
          SubscribeSection(id);
        }
      }
    }

    predicate CanControl()
      reads this
    {
      match control
      case StopTesting(_) => !MutexHeld(worker)
      case ClearingFlag(_) => !MutexHeld(worker)
      case Joining(_) => worker.Returned?
      case Closing(_) => true
      case Starting => !MutexHeld(worker)
      case Destroying => true
      case _ => false
    }

    /** Any number of them, between two sections of `me`. */
    method Others(me: Role)
      requires Valid()
      modifies this, connection, handler, handler.repr
      ensures Valid() && Later() && Undisturbed(me)
      ensures fresh(handler.repr - old(handler.repr))
    {
      var n: nat := *;
      while n > 0
        invariant Valid() && Later() && Undisturbed(me)
        invariant fresh(handler.repr - old(handler.repr))
      {
        OtherSection(me);
        n := n - 1;
      }
    }

    // ---- The worker thread, as the source writes it ----

    /** The first two calls of setupAndConsume. */
    method OpenAndDeclare() returns (ret: HareError)
      requires Valid() && worker.Setting? && worker.next.Open?
      modifies this, connection, handler, handler.repr
      ensures Valid() && Later()
      ensures var (c, caller) := old((worker.channel, worker.caller));
              worker == if NoError(ret) then Setting(c, Bind, caller) else PushingBack(c, ret, caller)
      ensures SameList() && connection.isConnected == old(connection.isConnected)
      ensures old(worker.channel) !in mon.consuming
      ensures fresh(handler.repr - old(handler.repr))
    {
      hide Valid, Took, Step, WorkerStep, IsRun;
      ret := OpenChannel();
      Others(WorkerRole);
      if NoError(ret) {
        ret := DeclareQueue();
        Others(WorkerRole);
      }
    }

    /** The last two. */
    method BindAndConsume() returns (ret: HareError)
      requires Valid() && worker.Setting? && worker.next.Bind?
      modifies this, connection, handler, handler.repr
      ensures Valid() && Later()
      ensures var (c, caller) := old((worker.channel, worker.caller));
              worker == if NoError(ret) then AfterSetup(caller, ret) else PushingBack(c, ret, caller)
      ensures SameList() && connection.isConnected == old(connection.isConnected)
      ensures old(worker.channel) in mon.consuming <==> NoError(ret) || old(worker.channel in mon.consuming)
      ensures fresh(handler.repr - old(handler.repr))
    {
      hide Valid, Took, Step, WorkerStep, IsRun;
      ret := BindQueue();
      Others(WorkerRole);
      if NoError(ret) {
        ret := StartConsumptionCall();
        Others(WorkerRole);
      }
    }

    /** What the invariant says of a consuming channel. */
    lemma SetUpOnThisConnection(channel: int)
      requires Valid() && channel in mon.consuming
      ensures connection.isConnected && SetUp(Successes(connection.calls), handler.table, channel)
    {
      Safe();
    }

    /** The channel is consuming afterwards exactly if no call failed; then all four were made on it,
        on this connection, in order and for its own pair. Otherwise it was pushed back. */
    method SetupAndConsume() returns (ret: HareError)
      requires Valid() && worker.Setting? && worker.next.Open?
      modifies this, connection, handler, handler.repr
      ensures Valid() && Later() && worker == AfterSetup(old(worker.caller), ret)
      ensures SameList() && connection.isConnected == old(connection.isConnected)
      ensures old(worker.channel) in mon.consuming <==> NoError(ret)
      ensures NoError(ret) ==> SetUp(Successes(connection.calls), handler.table, old(worker.channel))
      ensures fresh(handler.repr - old(handler.repr))
    {
      hide Valid, Took, Step, WorkerStep, IsRun;
      ret := OpenAndDeclare();
      if NoError(ret) {
        ret := BindAndConsume();
      }
      if !NoError(ret) {
        PushBackSection();
        Others(WorkerRole);
      } else {
        SetUpOnThisConnection(old(worker.channel));
      }
    }

    /** startConsumption up to its loop. */
    method ListChannels() returns (list: seq<int>)
      requires Valid() && worker.Locking?
      modifies this, connection, handler, handler.repr
      ensures Valid() && Later() && worker == NextChannel(list, AllGood)
      ensures connection.isConnected == old(connection.isConnected)
      ensures mon.listed == list && mon.attempted == [] && IsChannelList(list, mon.known)
      ensures fresh(handler.repr - old(handler.repr))
    {
      hide Valid, Took, Step, WorkerStep, IsRun;
      LockSection();
      Others(WorkerRole);
      EmptyPendingSection();
      Others(WorkerRole);
      list := GetChannelListSection();
      Others(WorkerRole);
    }

    /** The body of startConsumption's loop. */
    method SetupNext() returns (ret: HareError)
      requires Valid() && worker.NextChannel? && worker.rest != []
      modifies this, connection, handler, handler.repr
      ensures Valid() && Later() && worker == AfterSetup(StartUp(old(worker.rest)[1..]), ret)
      ensures connection.isConnected == old(connection.isConnected)
      ensures mon.listed == old(mon.listed) && mon.known == old(mon.known)
      ensures mon.attempted == old(mon.attempted) + [old(worker.rest)[0]]
      ensures fresh(handler.repr - old(handler.repr))
    {
      hide Valid, Took, Step, WorkerStep, IsRun, AfterSetup, SetUp;
      var next := NextChannelSection();
      Others(WorkerRole);
      ret := SetupAndConsume();
    }

    /** Returns the last set-up's code; a server failure ends the pass early. */
    method StartConsumption() returns (ret: HareError)
      requires Valid() && worker.Locking?
      modifies this, connection, handler, handler.repr
      ensures Valid() && Later()
      ensures worker == if ServerFailure(ret) then Aborting else if NoError(ret) then Pulling else SizeTest
      ensures connection.isConnected == old(connection.isConnected)
      ensures IsChannelList(mon.listed, mon.known) && mon.attempted <= mon.listed
      ensures !ServerFailure(ret) ==> mon.attempted == mon.listed
      ensures fresh(handler.repr - old(handler.repr))
    {
      hide Valid, Took, Step, WorkerStep, IsRun, IsChannelList;
      ret := AllGood;
      var list := ListChannels();
      for i := 0 to |list|
        invariant Valid() && Later() && worker == NextChannel(list[i..], ret) && !ServerFailure(ret)
        invariant connection.isConnected == old(connection.isConnected)
        invariant mon.listed == list && mon.attempted == list[..i] && IsChannelList(list, mon.known)
        invariant fresh(handler.repr - old(handler.repr))
      {
        ret := SetupNext();
        if ServerFailure(ret) {
          return;
        }
        assert list[i..][1..] == list[i + 1..];
      }
      var next := NextChannelSection();
      Others(WorkerRole);
    }

    method ConnectAndStartConsumption() returns (ret: HareError)
      requires Valid() && worker.Connecting?
      modifies this, connection, handler, handler.repr
      ensures Valid() && Later() && worker == if NoError(ret) then Pulling else SizeTest
      ensures NoError(ret) ==> connection.isConnected && mon.attempted == mon.listed && IsChannelList(mon.listed, mon.known)
      ensures ServerFailure(ret) ==> !connection.isConnected
      ensures fresh(handler.repr - old(handler.repr))
    {
      hide Valid, Took, Step, WorkerStep, IsRun;
      ret := ConnectSection();
      Others(WorkerRole);
      if NoError(ret) {
        ret := StartConsumption();
        if ServerFailure(ret) {
          CloseSection();
          Others(WorkerRole);
        }
      }
    }

    /** A server failure closes the connection exactly if the consumer is running in the state, numbered
        `tested`, in which IsRunning() is answered. */
    method CloseFailed() returns (ghost tested: nat)
      requires Valid() && worker.PullFailed?
      modifies this, connection, handler, handler.repr
      ensures Valid() && Later() && worker.SizeTest?
      ensures tested == |old(states)| - 1 && tested < |actions| && tested < |states|
      ensures actions[tested].Work? && states[tested].worker.PullFailed?
      ensures connection.isConnected <==> old(connection.isConnected) && !states[tested].running
      ensures fresh(handler.repr - old(handler.repr))
    {
      hide Valid, Took, Step, WorkerStep, IsRun, SameWork, SameList;
      Now();
      tested := |states| - 1;
      PullFailedSection();
      IsARun();
      ghost var states0, actions0 := states, actions;
      Others(WorkerRole);
      if worker.PullClosing? {
        CloseSection();
        Others(WorkerRole);
      }
      Now();
      Recorded(states0, actions0);
    }

    /** The envelope's pair, `read`, is that of the message in it or, in an envelope nobody filled,
        whatever it happens to hold. Unless its exchange is missing, it runs the callback of the last
        Subscribe that added it, and nothing else runs one. The connection is closed exactly after a
        server failure found while the consumer is running, as it is or not in the state numbered
        `tested`. */
    method PullNextMessage()
        returns (ret: HareError, envelope: Envelope<BindingPair>, read: BindingPair, ran: Option<Callback>, ghost tested: nat)
      requires Valid() && worker.Pulling?
      modifies this, connection, handler, handler.repr
      ensures Valid() && Later() && worker.SizeTest?
      ensures NoError(ret) <==> !envelope.NoEnvelope?
      ensures envelope.NoEnvelope? ==> ran == None
      ensures envelope.Delivered? ==> read == envelope.message
      ensures !envelope.NoEnvelope? && read.exchangeName != "" ==> ran == Dispatch(old(handler.table), read)
      ensures !envelope.NoEnvelope? && read.exchangeName == "" ==> ran == None
      ensures !envelope.NoEnvelope? && read.exchangeName != "" ==>
                old(IsRun(states, actions)) && ran == old(LastAdded(states, actions, read, |actions|))
      ensures old(connection.isConnected) && ServerFailure(ret) ==>
                && |old(states)| <= tested < |states| && tested < |actions|
                && actions[tested].Work? && states[tested].worker.PullFailed?
                && (connection.isConnected <==> !states[tested].running)
      ensures !(old(connection.isConnected) && ServerFailure(ret)) ==> connection.isConnected == old(connection.isConnected)
      ensures fresh(handler.repr - old(handler.repr))
    {
      hide Valid, Took, Step, WorkerStep, IsRun, SameWork, SameList, Dispatch, LastAdded;
      Now();
      IsARun();
      ghost var states0, actions0 := states, actions;
      tested := 0;
      ret, envelope, read, ran := PullSection();
      DispatchRunsLastAdded(states0, actions0, read, |actions0|);
      Others(WorkerRole);
      Now();
      if worker.PullFailed? {
        tested := CloseFailed();
      }
    }

    /** Retries one pending channel, if there is any. */
    method RetryOnePending()
      requires Valid() && worker.SizeTest?
      modifies this, connection, handler, handler.repr
      ensures Valid() && Later() && (worker.LoopTest? || worker.Faulted?)
      ensures fresh(handler.repr - old(handler.repr))
    {
      hide Valid, Took, Step, WorkerStep, IsRun, SameWork, SameList;
      var size := PendingChannelSizeSection();
      Others(WorkerRole);
      if size != 0 {
        PopNextPendingChannelSection();
        Others(WorkerRole);
        if !worker.Faulted? {
          var ret := SetupAndConsume();
        }
      }
    }

    /** The body of the worker's loop. */
    method Iteration()
      requires Valid() && worker.ConnectedTest?
      modifies this, connection, handler, handler.repr
      ensures Valid() && Later() && (worker.LoopTest? || worker.Faulted?)
      ensures fresh(handler.repr - old(handler.repr))
    {
      hide Valid, Took, Step, WorkerStep, IsRun, SameWork, SameList;
      var ret := AllGood;
      var connected := IsConnectedSection();
      Others(WorkerRole);
      if !connected {
        ret := ConnectAndStartConsumption();
      }
      if NoError(ret) {
        var pulled, envelope, read, ran;
        ghost var tested;
        pulled, envelope, read, ran, tested := PullNextMessage();
      }
      RetryOnePending();
    }

    /** Consumer::thread, for at most `rounds` iterations of its loop. */
    method Thread(rounds: nat)
      requires Valid() && worker.LoopTest?
      modifies this, connection, handler, handler.repr
      ensures Valid() && Later()
      ensures worker.Returned? || worker.ConnectedTest? || worker.Faulted?
      ensures fresh(handler.repr - old(handler.repr))
    {
      hide Valid, Took, Step, WorkerStep, IsRun, SameWork, SameList;
      var running := IsRunningSection();
      var n := 0;
      while running && n < rounds
        invariant Valid() && Later()
        invariant worker == if running then ConnectedTest else Returned
        invariant fresh(handler.repr - old(handler.repr))
        decreases rounds - n
      {
        Others(WorkerRole);
        Iteration();
        if worker.Faulted? {
          return;
        }
        running := IsRunningSection();
        n := n + 1;
      }
    }

    // ---- The API, as the source writes it ----

    /** Waits for the consumer mutex through at most `patience` steps of the other threads. */
    method AwaitMutex(me: Role, patience: nat) returns (free: bool)
      requires Valid()
      modifies this, connection, handler, handler.repr
      ensures Valid() && Later() && Undisturbed(me) && free == !MutexHeld(worker)
      ensures fresh(handler.repr - old(handler.repr))
    {
      var n := patience;
      while MutexHeld(worker) && n > 0
        invariant Valid() && Later() && Undisturbed(me)
        invariant fresh(handler.repr - old(handler.repr))
      {
        OtherSection(me);
        n := n - 1;
      }
      free := !MutexHeld(worker);
    }

    /** Waits for the worker thread to return. */
    method AwaitReturn(patience: nat) returns (returned: bool)
      requires Valid()
      modifies this, connection, handler, handler.repr
      ensures Valid() && Later() && Undisturbed(ControlRole) && returned == worker.Returned?
      ensures fresh(handler.repr - old(handler.repr))
    {
      var n := patience;
      while !worker.Returned? && n > 0
        invariant Valid() && Later() && Undisturbed(ControlRole)
        invariant fresh(handler.repr - old(handler.repr))
      {
        OtherSection(ControlRole);
        n := n - 1;
      }
      returned := worker.Returned?;
    }

    /** The second half of Subscribe: the queue properties, and the push if the consumer runs. */
    method FinishSubscribe(id: nat, patience: nat) returns (ret: Option<HareError>)
      requires Valid() && id in subscribers && subscribers[id].PropertySetting?
      modifies this, connection, handler, handler.repr
      ensures Valid() && Later()
      ensures ret.Some? ==> id in subscribers && subscribers[id] == Done(ret.value) && NoError(ret.value)
      ensures fresh(handler.repr - old(handler.repr))
    {
      hide Valid, Took, Step, WorkerStep, IsRun, SameWork, SameList;
      SetPropertiesSection(id);
      var free := AwaitMutex(SubscriberRole(id), patience);
      if !free {
        return None;
      }
      RunningTestSection(id);
      if subscribers[id].Pushing? {
        Others(SubscriberRole(id));
        PushSection(id);
      }
      return Some(AllGood);
    }

    /** Subscribe once IsInitialized() said yes; `added` numbers the state in which it adds the pair. */
    method AddAndFinish(id: nat, pair: BindingPair, callback: Callback, properties: QueueProperties, patience: nat)
        returns (ret: Option<HareError>, ghost added: nat)
      requires Valid() && id in subscribers && subscribers[id] == Adding(pair, callback, properties)
      modifies this, connection, handler, handler.repr
      ensures Valid() && Later()
      ensures ret.Some? ==> id in subscribers && subscribers[id] == Done(ret.value)
      ensures ret.Some? ==> ret.value in {AllGood, UnableToSubscribe}
      ensures added == |old(states)| - 1 < |states|
      ensures ret.Some? ==> StepsAt(added, id, pair, callback, properties, true)
      ensures ret.Some? ==> (ret.value == UnableToSubscribe <==> ChannelOf(states[added].table, pair) != 0)
      ensures fresh(handler.repr - old(handler.repr))
    {
      hide Valid, Took, Step, WorkerStep, IsRun, SameWork, SameList;
      Now();
      added := |states| - 1;
      AddSection(id);
      IsARun();
      ghost var states0, actions0 := states, actions;
      if subscribers[id].Done? {
        return Some(UnableToSubscribe), added;
      }
      Others(SubscriberRole(id));
      ret := FinishSubscribe(id, patience);
      Now();
      Recorded(states0, actions0);
    }

    /** Subscribe from IsInitialized() on; `tested` numbers the state in which that is answered. */
    method TestAndAdd(id: nat, pair: BindingPair, callback: Callback, properties: QueueProperties, patience: nat)
        returns (ret: Option<HareError>, ghost tested: nat, ghost added: nat)
      requires Valid() && id in subscribers && subscribers[id] == Begun(pair, callback, properties) && !MutexHeld(worker)
      modifies this, connection, handler, handler.repr
      ensures Valid() && Later()
      ensures ret.Some? ==> id in subscribers && subscribers[id] == Done(ret.value)
      ensures ret.Some? ==> ret.value in {AllGood, NotInitialized, UnableToSubscribe}
      ensures tested == |old(states)| - 1 < |states|
      ensures ret.Some? ==> StepsAt(tested, id, pair, callback, properties, false)
      ensures ret.Some? ==> (ret.value == NotInitialized <==> !states[tested].initialized)
      ensures ret.Some? && ret.value != NotInitialized ==> StepsAt(added, id, pair, callback, properties, true)
      ensures ret.Some? && ret.value != NotInitialized ==>
                tested < added < |states| && (ret.value == UnableToSubscribe <==> ChannelOf(states[added].table, pair) != 0)
      ensures fresh(handler.repr - old(handler.repr))
    {
      hide Valid, Took, Step, WorkerStep, IsRun, SameWork, SameList;
      Now();
      tested, added := |states| - 1, 0;
      BegunSection(id);
      IsARun();
      ghost var states0, actions0 := states, actions;
      if subscribers[id].Done? {
        return Some(NotInitialized), tested, added;
      }
      Others(SubscriberRole(id));
      Now();
      ret, added := AddAndFinish(id, pair, callback, properties, patience);
      Now();
      Recorded(states0, actions0);
    }

    /** The rest of Subscribe, which has begun. */
    method SubscribeBegun(id: nat, pair: BindingPair, callback: Callback, properties: QueueProperties, patience: nat)
        returns (ret: Option<HareError>, ghost tested: nat, ghost added: nat)
      requires Valid() && id in subscribers && subscribers[id] == Begun(pair, callback, properties)
      modifies this, connection, handler, handler.repr
      ensures Valid() && Later()
      ensures ret.Some? ==> id in subscribers && subscribers[id] == Done(ret.value)
      ensures ret.Some? ==> ret.value in {AllGood, NotInitialized, UnableToSubscribe}
      ensures ret.Some? ==> |old(states)| - 1 <= tested && StepsAt(tested, id, pair, callback, properties, false)
      ensures ret.Some? ==> (ret.value == NotInitialized <==> !states[tested].initialized)
      ensures ret.Some? && ret.value != NotInitialized ==> StepsAt(added, id, pair, callback, properties, true)
      ensures ret.Some? && ret.value != NotInitialized ==>
                tested < added && (ret.value == UnableToSubscribe <==> ChannelOf(states[added].table, pair) != 0)
      ensures fresh(handler.repr - old(handler.repr))
    {
      hide Valid, Took, Step, WorkerStep, IsRun, SameWork, SameList, ChannelOf, Dispatch;
      tested, added := 0, 0;
      Now();
      var free := AwaitMutex(SubscriberRole(id), patience);
      if !free {
        return None, tested, added;
      }
      Now();
      ret, tested, added := TestAndAdd(id, pair, callback, properties, patience);
    }

    /** What a Subscribe that added its pair has achieved. */
    lemma Subscribed(n: nat, id: nat, pair: BindingPair, callback: Callback, properties: QueueProperties)
      requires Valid() && StepsAt(n, id, pair, callback, properties, true)
      requires id in subscribers && subscribers[id].Done?
      ensures n + 1 < |states| && Dispatch(states[n + 1].table, pair) == Some(callback)
      ensures ChannelOf(states[n].table, pair) == 0 ==>
                var c := ChannelOf(handler.table, pair); c != 0 && handler.table[c - 1].properties == properties
    {
      hide *;
      AddedCallback(n, id, pair, callback, properties);
      if ChannelOf(states[n].table, pair) == 0 {
        SetProperties(n, id, pair, callback, properties);
      }
    }

    /** Consumer::Subscribe on thread `id`. None: still waiting for the consumer mutex. In the state
        numbered `tested` it asks whether the consumer is initialized, and in that numbered `added` it
        adds the pair; these two decide its code. The pair dispatches to the callback from then on, and
        after a success its channel has the properties. */
    method Subscribe(id: nat, pair: BindingPair, callback: Callback, properties: QueueProperties, patience: nat)
        returns (ret: Option<HareError>, ghost tested: nat, ghost added: nat)
      requires Valid() && id !in subscribers
      modifies this, connection, handler, handler.repr
      ensures Valid() && Later()
      ensures |old(actions)| < |actions| && actions[|old(actions)|] == BeginSubscribe(id, pair, callback, properties)
      ensures ret.Some? ==> id in subscribers && subscribers[id] == Done(ret.value)
      ensures ret.Some? ==> ret.value in {AllGood, NotInitialized, UnableToSubscribe}
      ensures ret.Some? ==> |old(states)| <= tested && StepsAt(tested, id, pair, callback, properties, false)
      ensures ret.Some? ==> (ret.value == NotInitialized <==> !states[tested].initialized)
      ensures ret.Some? && ret.value != NotInitialized ==> StepsAt(added, id, pair, callback, properties, true)
      ensures ret.Some? && ret.value != NotInitialized ==>
                tested < added && (ret.value == UnableToSubscribe <==> ChannelOf(states[added].table, pair) != 0)
      ensures ret.Some? && ret.value != NotInitialized ==>
                added + 1 < |states| && Dispatch(states[added + 1].table, pair) == Some(callback)
      ensures ret == Some(AllGood) ==>
                var c := ChannelOf(handler.table, pair); c != 0 && handler.table[c - 1].properties == properties
      ensures fresh(handler.repr - old(handler.repr))
    {
      hide Valid, Took, Step, WorkerStep, IsRun, SameWork, SameList, ChannelOf, Dispatch;
      Now();
      BeginSubscribeSection(id, pair, callback, properties);
      Now();
      ret, tested, added := SubscribeBegun(id, pair, callback, properties, patience);
      if ret.Some? && ret.value != NotInitialized {
        Subscribed(added, id, pair, callback, properties);
      }
    }

    /** setRunning(false) and the join; false if it is still waiting. */
    method ClearAndJoin(patience: nat) returns (done: bool)
      requires Valid() && control.ClearingFlag?
      modifies this, connection, handler, handler.repr
      ensures Valid() && Later() && isInitialized == old(isInitialized)
      ensures done ==> control == Closing(old(control.after)) && !threadRunning && worker.NoThread?
      ensures fresh(handler.repr - old(handler.repr))
    {
      hide Valid, Took, Step, WorkerStep, IsRun, SameWork, SameList;
      done := AwaitMutex(ControlRole, patience);
      if done {
        StopSection();
        done := AwaitReturn(patience);
        if done {
          StopSection();
        }
      }
    }

    /** Stop up to and including the join; false if it is still waiting. */
    method StopUntilJoined(patience: nat) returns (done: bool)
      requires Valid() && control.StopTesting?
      modifies this, connection, handler, handler.repr
      ensures Valid() && Later() && isInitialized == old(isInitialized)
      ensures done ==> if !old(isInitialized) then control == AfterStop(old(control.after), NotInitialized)
                       else if !old(threadRunning) then control == AfterStop(old(control.after), ThreadNotRunning)
                       else control == Closing(old(control.after)) && !threadRunning && worker.NoThread?
      ensures fresh(handler.repr - old(handler.repr))
    {
      hide Valid, Took, Step, WorkerStep, IsRun, SameWork, SameList;
      done := AwaitMutex(ControlRole, patience);
      if done {
        StopSection();
        if control.ClearingFlag? {
          done := ClearAndJoin(patience);
        }
      }
    }

    /** Consumer::Start. None: still waiting for the mutex. */
    method Start(patience: nat) returns (ret: Option<HareError>)
      requires Valid() && control.Idle?
      modifies this, connection, handler, handler.repr
      ensures Valid() && Later()
      ensures ret.Some? ==> control == Idle(ret.value) && isInitialized == old(isInitialized)
      ensures ret.Some? ==> (ret.value == NotInitialized <==> !old(isInitialized))
      ensures ret.Some? ==> (ret.value == ThreadAlreadyRunning <==> old(isInitialized) && old(threadRunning))
      ensures ret.Some? ==> (NoError(ret.value) <==> old(isInitialized) && !old(threadRunning))
      ensures ret.Some? && NoError(ret.value) ==> threadRunning && worker.LoopTest?
      ensures fresh(handler.repr - old(handler.repr))
    {
      hide Valid, Took, Step, WorkerStep, IsRun, SameWork, SameList;
      var free := AwaitMutex(ControlRole, patience);
      if !free {
        return None;
      }
      var err := StartSection();
      return Some(err);
    }

    /** Consumer::Stop. None: still waiting for the mutex or the thread. On a running consumer its last
        step is the close, whose code it returns; `reply` is the broker's answer to it. */
    method Stop(patience: nat, reply: RpcReply) returns (ret: Option<HareError>)
      requires Valid() && control.Idle?
      modifies this, connection, handler, handler.repr
      ensures Valid() && Later()
      ensures ret.Some? ==> control == Idle(ret.value)
      ensures ret.Some? && !old(isInitialized) ==> ret.value == NotInitialized
      ensures ret.Some? && old(isInitialized) && !old(threadRunning) ==> ret.value == ThreadNotRunning
      ensures ret.Some? && old(isInitialized) && old(threadRunning) ==>
                !threadRunning && worker.NoThread? && !connection.isConnected
                && |states| >= 2 && ret.value == CloseCode(states[|states| - 2].conn.connected, reply)
      ensures fresh(handler.repr - old(handler.repr))
    {
      hide Valid, Took, Step, WorkerStep, IsRun, SameWork, SameList;
      BeginStopSection(ApiCall.Stop);
      var done := StopUntilJoined(patience);
      if !done {
        return None;
      }
      if control.Closing? {
        Others(ControlRole);
        Now();
        var err := StopCloseSection(reply);
        return Some(err);
      }
      return Some(control.ret);
    }

    /** The close of Restart's Stop, and the start if the close went well. */
    method CloseAndStart(reply: RpcReply) returns (ret: HareError)
      requires Valid() && control == Closing(ThenStart) && !threadRunning && isInitialized && worker.NoThread?
      modifies this, connection
      ensures Valid() && Later() && control == Idle(ret) && !connection.isConnected
      ensures threadRunning <==> NoError(ret)
      ensures threadRunning ==> worker.LoopTest?
      ensures var steps := if threadRunning then 3 else 2;
              |states| >= steps && ret == CloseCode(states[|states| - steps].conn.connected, reply)
    {
      hide Valid, Took, Step, WorkerStep, IsRun, SameWork, SameList;
      Now();
      ret := StopCloseSection(reply);
      if control.Starting? {
        ret := RestartSection();
      }
    }

    /** Consumer::Restart: it starts again only if Stop reported AllGood. Its code is that of Stop's
        close, which is its last step or, if it starts again, its last but one. */
    method Restart(patience: nat, reply: RpcReply) returns (ret: Option<HareError>)
      requires Valid() && control.Idle?
      modifies this, connection, handler, handler.repr
      ensures Valid() && Later()
      ensures ret.Some? ==> control == Idle(ret.value)
      ensures ret.Some? && NoError(ret.value) ==>
                old(isInitialized) && old(threadRunning) && threadRunning && worker.LoopTest? && !connection.isConnected
      ensures ret.Some? && !old(isInitialized) ==> ret.value == NotInitialized
      ensures ret.Some? && old(isInitialized) && !old(threadRunning) ==> ret.value == ThreadNotRunning
      ensures ret.Some? && old(isInitialized) && old(threadRunning) ==>
                var steps := if threadRunning then 3 else 2;
                && (NoError(ret.value) <==> threadRunning)
                && |states| >= steps && ret.value == CloseCode(states[|states| - steps].conn.connected, reply)
      ensures fresh(handler.repr - old(handler.repr))
    {
      hide Valid, Took, Step, WorkerStep, IsRun, SameWork, SameList, CloseCode;
      BeginStopSection(ApiCall.Restart);
      var done := StopUntilJoined(patience);
      if !done {
        return None;
      }
      if control.Closing? {
        Others(ControlRole);
        var err := CloseAndStart(reply);
        return Some(err);
      }
      return Some(control.ret);
    }
  }

  /** A run's states follow from its actions. */
  lemma RunsAgree(states: seq<State>, actions: seq<Action>, states': seq<State>, actions': seq<Action>)
    requires IsRun(states, actions) && IsRun(states', actions') && actions <= actions'
    ensures states <= states'
  {
    forall i | 0 <= i < |states| ensures states[i] == states'[i] {
      RunsAgreeAt(states, actions, states', actions', i);
    }
  }

  lemma {:induction false} RunsAgreeAt(states: seq<State>, actions: seq<Action>,
                                       states': seq<State>, actions': seq<Action>, i: nat)
    requires IsRun(states, actions) && IsRun(states', actions') && actions <= actions' && i <= |actions|
    ensures states[i] == states'[i]
  {
    hide Step, Enabled;
    if i > 0 {
      RunsAgreeAt(states, actions, states', actions', i - 1);
      StepOfRun(states, actions, i - 1);
      StepOfRun(states', actions', i - 1);
    }
  }
}
