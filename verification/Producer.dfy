/** The producer in the source's own form: a class whose sections (the code under one mutex, or one
    call of the broker) are steps of the protocol, and whose methods run them in the order the
    source does with any number of steps of the other threads in between. `states` and `actions`
    record the run, so every theorem about runs applies to the object. */
module Producers {
  import opened HareErrors
  import opened Connection
  import opened ProducerProtocol
  import opened ProducerSafety
  import opened ProducerTheorems
  import opened ProducerHistories

  /** A thread that is not interrupted by itself. */
  datatype Role = WorkerRole | CallerRole(id: nat) | ControlRole

  const QUIET := Outcome(AllGood, 0, [])

  class Producer {
    const connection: ConnectionBase
    var exchangeList: map<string, ExchangeProperties>
    var curChannelNumber: int
    var isInitialized: bool
    var threadRunning: bool
    var channelsConnected: bool
    var sendQueue: seq<RawMessage>
    var heap: Heap

    // Where each thread is, what only observes, and the run so far.
    var worker: WorkerPc
    var control: ControlPc
    var callers: map<nat, CallerPc>
    ghost var order: seq<string>
    ghost var history: SendQueue
    ghost var answers: Answers
    ghost var flagEpoch: nat
    ghost var states: seq<State>
    ghost var actions: seq<Action>

    ghost function View(): State
      reads this, connection
    {
      State(Registry(exchangeList, curChannelNumber, order), isInitialized, threadRunning, channelsConnected,
            history.(messages := sendQueue, heap := heap), connection.View(), answers, flagEpoch,
            worker, control, callers)
    }

    ghost predicate Valid()
      reads this, connection
    {
      && IsRun(states, actions) && states[|actions|] == View()
      && connection.calls == answers.calls && connection.published == Wires(history.accepted)
    }

    /** One step of the protocol was taken. */
    twostate predicate Took(a: Action)
      reads this, connection
    {
      && old(Enabled(View(), a))
      && View() == Step(old(View()), a)
      && states == old(states) + [View()] && actions == old(actions) + [a]
    }

    /** Some steps were taken: the run goes on from where it was. */
    twostate predicate Later()
      reads this
    {
      old(actions) <= actions
    }

    /** Messages may have been appended to the queue, and nothing else happened to it. */
    twostate predicate OnlyAppended()
      reads this
    {
      old(sendQueue) <= sendQueue
    }

    /** Steps of the other threads leave a thread where it is; nor do they touch the worker's
        connection, or the messages already queued, while it runs, or the exchange list while it holds
        the mutex. */
    twostate predicate Undisturbed(me: Role)
      reads this, connection
    {
      match me
      case WorkerRole =>
        !old(worker).NoThread? && !old(worker).Returned? ==>
          && worker == old(worker) && OnlyAppended() && connection.isConnected == old(connection.isConnected)
          && connection.calls == old(connection.calls) && connection.published == old(connection.published)
          && history.handled == old(history.handled)
          && (MutexHeld(worker) ==> exchangeList == old(exchangeList))
      case CallerRole(id) => id in old(callers) ==> id in callers && callers[id] == old(callers[id])
      case ControlRole =>
        && control == old(control)
        && isInitialized == old(isInitialized) && threadRunning == old(threadRunning)
        && (old(worker).NoThread? ==> worker.NoThread?)
    }

    /** Some steps of the worker. */
    twostate predicate OnlyWorker()
      reads this, connection
    {
      Later() && Undisturbed(ControlRole) && callers == old(callers)
    }

    /** Some steps of one Send or DeclareExchange. */
    twostate predicate OnlyCaller(id: nat)
      reads this, connection
    {
      && Later() && Undisturbed(ControlRole) && worker == old(worker) && OnlyAppended()
      && history.handled == old(history.handled)
      && id in callers && callers == old(callers)[id := callers[id]]
    }

    constructor ()
      ensures Valid() && View() == INITIAL && fresh(connection)
    {
      connection := new ConnectionBase();
      exchangeList, curChannelNumber := map[], 1;
      isInitialized, threadRunning, channelsConnected := false, false, false;
      sendQueue, heap := [], INITIAL.queue.heap;
      worker, control, callers := NoThread, Idle(AllGood), map[];
      order, history, answers, flagEpoch := [], INITIAL.queue, NO_ANSWERS, 0;
      states, actions := [INITIAL], [];
    }

    /** Every state the object goes through satisfies the protocol's invariant. */
    lemma Safe()
      requires Valid()
      ensures Reachable(View()) && Inv(View())
    {
      assert Reachable(View());
      InvHolds(View());
    }

    /** The front under the worker's unlocked hands, and the marks of the list it walks. */
    lemma SafeFront()
      requires Valid()
      ensures worker.Publishing? || worker.Popping? ==> sendQueue != [] && connection.isConnected
      ensures worker.Popping? ==> sendQueue[0] == worker.sent
      ensures forall x :: x in exchangeList ==> !exchangeList[x].connected
    {
      Safe();
    }

    /** While disconnected nothing has been asked of the broker. */
    lemma NothingAnswered()
      requires Valid()
      ensures !connection.isConnected ==> answers == NO_ANSWERS
      ensures worker.Connecting? ==> !connection.isConnected
    {
      Safe();
    }

    /** The pass in hand walks the exchange list. */
    lemma SafePass()
      requires Valid()
      ensures worker.NextExchange? ==> forall x :: x in worker.rest ==> x in exchangeList
      ensures worker.Opening? || worker.Declaring? ==> worker.exchange in exchangeList && connection.isConnected
    {
      Safe();
      assert worker.Opening? ==> worker.exchange in Remaining(worker);
    }

    /** Records a step whose effect on the real fields has just been carried out. */
    method Commit(ghost before: State, ghost a: Action, worker': WorkerPc, control': ControlPc,
                  callers': map<nat, CallerPc>)
      requires IsRun(states, actions) && states[|actions|] == before && Enabled(before, a)
      requires var after := Step(before, a);
               && after.registry.exchanges == exchangeList && after.registry.curChannel == curChannelNumber
               && after.initialized == isInitialized && after.running == threadRunning
               && after.channelsConnected == channelsConnected
               && after.queue.messages == sendQueue && after.queue.heap == heap
               && after.conn == connection.View()
               && after.answers.calls == connection.calls && Wires(after.queue.accepted) == connection.published
               && after.worker == worker' && after.control == control' && after.callers == callers'
      modifies this`worker, this`control, this`callers, this`order, this`history, this`answers,
               this`flagEpoch, this`states, this`actions
      ensures View() == Step(before, a)
      ensures connection.calls == answers.calls && connection.published == Wires(history.accepted)
      ensures IsRun(states, actions) && states[|actions|] == View()
      ensures states == old(states) + [View()] && actions == old(actions) + [a]
    {
      hide Step, Enabled, Wires;
      ghost var after := Step(before, a);
      worker, control, callers := worker', control', callers';
      order, history := after.registry.order, after.queue;
      answers, flagEpoch := after.answers, after.flagEpoch;
      states, actions := states + [after], actions + [a];
      RunExtends(old(states), old(actions), a);
    }

    // ---- Tests, each under the producer mutex ----

    /** IsRunning(), at the head of the loop or in connectChannels. */
    method IsRunningSection() returns (running: bool)
      requires Valid() && (worker.LoopTest? || worker.PassRunningTest?)
      modifies this
      ensures Valid() && OnlyWorker() && Took(Work(QUIET)) && running == threadRunning
      ensures worker == if old(worker).LoopTest? then (if running then ConnectedTest else Returned)
                        else if running then Locking else PublishTest
      ensures sendQueue == old(sendQueue)
    {
      running := threadRunning;
      var next := if worker.LoopTest? then (if running then ConnectedTest else Returned)
                  else if running then Locking else PublishTest;
      Commit(View(), Work(QUIET), next, control, callers);
    }

    /** isConnected(), in the loop, connectChannels or publishNextInQueue. */
    method IsConnectedSection() returns (connected: bool)
      requires Valid() && (worker.ConnectedTest? || worker.PassConnectedTest? || worker.PublishTest?)
      modifies this
      ensures Valid() && OnlyWorker() && Took(Work(QUIET)) && connected == connection.isConnected
      ensures worker == match old(worker)
                        case ConnectedTest => if connected then FlagTest else Connecting
                        case PassConnectedTest => if connected then PassRunningTest else PublishTest
                        case _ => if connected then SizeTest else LoopTest
      ensures sendQueue == old(sendQueue)
    {
      connected := connection.isConnected;
      var next := match worker
                  case ConnectedTest => if connected then FlagTest else Connecting
                  case PassConnectedTest => if connected then PassRunningTest else PublishTest
                  case _ => if connected then SizeTest else LoopTest;
      Commit(View(), Work(QUIET), next, control, callers);
    }

    method ChannelsConnectedSection() returns (flag: bool)
      requires Valid() && worker.FlagTest?
      modifies this
      ensures Valid() && OnlyWorker() && Took(Work(QUIET)) && flag == channelsConnected
      ensures worker == if flag then PublishTest else PassConnectedTest
      ensures sendQueue == old(sendQueue)
    {
      flag := channelsConnected;
      Commit(View(), Work(QUIET), if flag then PublishTest else PassConnectedTest, control, callers);
    }

    /** The unlocked size test of publishNextInQueue. */
    method QueueTestSection() returns (size: nat)
      requires Valid() && worker.SizeTest?
      modifies this
      ensures Valid() && OnlyWorker() && Took(Work(QUIET)) && size == |sendQueue|
      ensures worker == if size != 0 then Publishing else LoopTest
      ensures sendQueue == old(sendQueue)
    {
      size := |sendQueue|;
      Commit(View(), Work(QUIET), if size != 0 then Publishing else LoopTest, control, callers);
    }

    // ---- Sections of connectChannels ----

    method ConnectSection() returns (ret: HareError)
      requires Valid() && worker.Connecting?
      modifies this, connection
      ensures Valid() && OnlyWorker() && Took(Work(Outcome(ret, 0, [])))
      ensures connection.isConnected == (old(connection.isConnected) || NoError(ret))
      ensures worker == if NoError(ret) then FlagTest else LoopTest
      ensures sendQueue == old(sendQueue)
    {
      NothingAnswered();
      ghost var before := View();
      var socketMade, socketOpened, loggedIn: bool := *, *, *;
      ret := connection.Connect(socketMade, socketOpened, loggedIn);
      Commit(before, Work(Outcome(ret, 0, [])), if NoError(ret) then FlagTest else LoopTest, control, callers);
    }

    /** The order the hash map is walked in: any order without repetition. */
    method Walk() returns (walk: seq<string>)
      ensures IsWalk(walk, exchangeList)
    {
      walk := [];
      var rest := exchangeList.Keys;
      while rest != {}
        invariant rest <= exchangeList.Keys
        invariant forall x :: x in walk <==> x in exchangeList && x !in rest
        invariant forall i, j :: 0 <= i < j < |walk| ==> walk[i] != walk[j]
        decreases |rest|
      {
        var x :| x in rest;
        walk, rest := walk + [x], rest - {x};
      }
    }

    /** Takes the mutex, which the worker now holds until it leaves the loop. */
    method LockSection() returns (walk: seq<string>)
      requires Valid() && worker.Locking?
      modifies this
      ensures Valid() && OnlyWorker() && Took(Work(Outcome(AllGood, 0, walk))) && worker == NextExchange(walk, true)
      ensures sendQueue == old(sendQueue)
      ensures exchangeList == old(exchangeList)
    {
      walk := Walk();
      Commit(View(), Work(Outcome(AllGood, 0, walk)), NextExchange(walk, true), control, callers);
    }

    lemma NextExchangeStep()
      requires worker.NextExchange? && forall x :: x in exchangeList ==> !exchangeList[x].connected
      ensures var s, s' := View(), WorkerStep(View(), QUIET);
              && s' == s.(worker := s'.worker, channelsConnected := s'.channelsConnected, flagEpoch := s'.flagEpoch)
              && (worker.rest == [] ==>
                    s'.worker == PublishTest && s'.channelsConnected == (channelsConnected || worker.allGood))
              && (worker.rest != [] ==>
                    && s'.worker == Opening(worker.rest[0], worker.rest[1..], worker.allGood)
                    && s'.channelsConnected == channelsConnected)
    {
    }

    /** The head of the loop: a copy of the next element not marked connected, or the unlock after the
        last. */
    method NextExchangeSection() returns (it: Option<ExchangeProperties>)
      requires Valid() && worker.NextExchange?
      modifies this
      ensures Valid() && OnlyWorker() && Took(Work(QUIET))
      ensures old(worker.rest) == [] ==> it == None && worker.PublishTest?
                                         && channelsConnected == (old(channelsConnected) || old(worker.allGood))
      ensures old(worker.rest) != [] ==>
                && worker == Opening(old(worker.rest)[0], old(worker.rest)[1..], old(worker.allGood))
                && worker.exchange in exchangeList && it == Some(exchangeList[worker.exchange]) && !it.value.connected
      ensures sendQueue == old(sendQueue) && exchangeList == old(exchangeList)
    {
      hide IsRun, WorkerStep;
      SafeFront();
      SafePass();
      NextExchangeStep();
      ghost var before := View();
      var NextExchange(rest, allGood) := worker;
      it := None;
      if rest == [] {
        channelsConnected := channelsConnected || allGood;
        Commit(before, Work(QUIET), PublishTest, control, callers);
      } else if exchangeList[rest[0]].connected {
        assert false;
      } else {
        it := Some(exchangeList[rest[0]]);
        Commit(before, Work(QUIET), Opening(rest[0], rest[1..], allGood), control, callers);
      }
    }

    /** Where OpenChannel's answer leads the loop of connectChannels. */
    function AfterOpen(x: string, rest: seq<string>, allGood: bool, ret: HareError): WorkerPc
      reads this`exchangeList
    {
      if ServerFailure(ret) then PassClosing
      else if !NoError(ret) then NextExchange(rest, false)
      else if x in exchangeList && exchangeList[x].isDeclare then Declaring(x, rest, allGood)
      else NextExchange(rest, allGood)
    }

    lemma OpenChannelStep(ret: HareError)
      requires worker.Opening? && (!connection.isConnected ==> ret == ServerConnectionFailure)
      ensures var s, s' := View(), WorkerStep(View(), Outcome(ret, 0, []));
              && s' == s.(worker := s'.worker, answers := s'.answers)
              && (connection.isConnected && worker.exchange in exchangeList ==>
                    s'.answers.calls == answers.calls + [Sent(OpenCall(exchangeList[worker.exchange].channel), ret)])
              && s'.worker == AfterOpen(worker.exchange, worker.rest, worker.allGood, ret)
    {
    }

    method OpenChannelSection(it: ExchangeProperties) returns (ret: HareError)
      requires Valid() && worker.Opening? && worker.exchange in exchangeList && it == exchangeList[worker.exchange]
      modifies this, connection`calls
      ensures Valid() && OnlyWorker() && Took(Work(Outcome(ret, 0, [])))
      ensures connection.calls == old(connection.calls) + [Sent(OpenCall(it.channel), ret)]
      ensures connection.isConnected
      ensures var Opening(x, rest, allGood) := old(worker); worker == AfterOpen(x, rest, allGood, ret)
      ensures sendQueue == old(sendQueue) && exchangeList == old(exchangeList)
    {
      SafePass();
      hide IsRun, WorkerStep, AfterOpen;
      ghost var before := View();
      var Opening(x, rest, allGood) := worker;
      var reply: RpcReply := *;
      ret := connection.OpenChannel(it.channel, reply);
      OpenChannelStep(ret);
      Commit(before, Work(Outcome(ret, 0, [])), AfterOpen(x, rest, allGood, ret), control, callers);
    }

    lemma DeclareExchangeStep(ret: HareError)
      requires worker.Declaring? && (!connection.isConnected ==> ret == ServerConnectionFailure)
      ensures var s, s' := View(), WorkerStep(View(), Outcome(ret, 0, []));
              && s' == s.(worker := s'.worker, answers := s'.answers)
              && (connection.isConnected && worker.exchange in exchangeList ==>
                    var p := exchangeList[worker.exchange];
                    s'.answers.calls == answers.calls + [Sent(DeclareExchangeCall(p.channel, worker.exchange, p.kind), ret)])
              && s'.worker == if ServerFailure(ret) then PassClosing else NextExchange(worker.rest, worker.allGood)
    {
    }

    method DeclareExchangeSection(it: ExchangeProperties) returns (ret: HareError)
      requires Valid() && worker.Declaring? && worker.exchange in exchangeList && it == exchangeList[worker.exchange]
      modifies this, connection`calls
      ensures Valid() && OnlyWorker() && Took(Work(Outcome(ret, 0, [])))
      ensures connection.calls == old(connection.calls) +
                [Sent(DeclareExchangeCall(it.channel, old(worker.exchange), it.kind), ret)]
      ensures worker == if ServerFailure(ret) then PassClosing else NextExchange(old(worker.rest), old(worker.allGood))
      ensures sendQueue == old(sendQueue) && exchangeList == old(exchangeList)
    {
      SafePass();
      hide IsRun, WorkerStep;
      ghost var before := View();
      var Declaring(x, rest, allGood) := worker;
      var reply: RpcReply := *;
      ret := connection.DeclareExchange(it.channel, x, it.kind, reply);
      DeclareExchangeStep(ret);
      Commit(before, Work(Outcome(ret, 0, [])), if ServerFailure(ret) then PassClosing else NextExchange(rest, allGood),
             control, callers);
    }

    // ---- Sections of closeConnection and publishNextInQueue ----

    method CloseSection()
      requires Valid() && (worker.PassClosing? || worker.PublishClosing?)
      modifies this, connection
      ensures Valid() && OnlyWorker() && Took(Work(QUIET)) && worker == Dropping(old(worker).PassClosing?)
      ensures !connection.isConnected
      ensures sendQueue == old(sendQueue)
      ensures connection.published == old(connection.published)
      ensures history.handled == old(history.handled)
    {
      ghost var before := View();
      var reply: RpcReply := *;
      var ret := connection.CloseConnection(reply);
      Commit(before, Work(QUIET), Dropping(worker.PassClosing?), control, callers);
    }

    /** Frees and pops the front of the queue. */
    method RemoveFrontMessage()
      requires sendQueue != []
      modifies this`sendQueue, this`heap
      ensures sendQueue == old(sendQueue)[1..] && heap == FreeMessage(old(heap), old(sendQueue)[0])
    {
      var b := sendQueue[0].buffers;
      heap := FreeOne(FreeOne(FreeOne(heap, b.message), b.routingKey), b.exchange);
      sendQueue := sendQueue[1..];
    }

    /** One turn of clearActiveSendQueue's loop. */
    method DropSection() returns (empty: bool)
      requires Valid() && worker.Dropping?
      modifies this
      ensures Valid() && OnlyWorker() && Took(Work(QUIET)) && empty == (old(sendQueue) == [])
      ensures sendQueue == if empty then [] else old(sendQueue)[1..]
      ensures worker == if !empty then old(worker) else if old(worker.inPass) then PublishTest else LoopTest
      ensures |history.handled| == |old(history.handled)| + if empty then 0 else 1
    {
      hide IsRun, CallerStep, CallStep, ControlStep, PassStep, PublishStep, TestPc;
      ghost var before := View();
      empty := sendQueue == [];
      if empty {
        Commit(before, Work(QUIET), if worker.inPass then PublishTest else LoopTest, control, callers);
      } else {
        RemoveFrontMessage();
        Commit(before, Work(QUIET), worker, control, callers);
      }
    }

    lemma PublishFrontStep(s: State, ret: HareError, now: int, m: RawMessage)
      requires s.worker.Publishing? && s.queue.messages != [] && s.conn.connected
      requires var t := s.queue.messages[0].timestamp;
               m == s.queue.messages[0].(timestamp := if t.Some? then t else Some(now))
      ensures var a := Work(Outcome(ret, now, []));
              && Enabled(s, a)
              && var s' := Step(s, a);
              && s' == s.(queue := s'.queue, worker := s'.worker)
              && s'.queue.messages == [m] + s.queue.messages[1..] && s'.queue.heap == s.queue.heap
              && s'.queue.accepted == (if NoError(ret) then s.queue.accepted + [m] else s.queue.accepted)
              && s'.worker == if ServerFailure(ret) then PublishClosing else if NoError(ret) then Popping(m) else LoopTest
    {
    }

    /** PublishMessage with a queued message, of which `m'` is what becomes. */
    method CallPublish(m: RawMessage) returns (ret: HareError, now: int, m': RawMessage)
      requires connection.isConnected
      modifies connection`published
      ensures m' == m.(timestamp := if m.timestamp.Some? then m.timestamp else Some(now))
      ensures connection.published == old(connection.published) +
                if NoError(ret) then [Publication(m'.channel, m'.exchange, m'.routingKey, m'.timestamp, m'.body)] else []
    {
      var status: PublishStatus, stamped: Publication := *, *;
      now := *;
      ret, stamped :=
        connection.PublishMessage(Publication(m.channel, m.exchange, m.routingKey, m.timestamp, m.body), now, status);
      m' := m.(timestamp := stamped.timestamp);
    }

    /** What the broker has taken, after one more attempt. */
    lemma PublishedAfter(accepted: seq<RawMessage>, m: RawMessage, taken: bool)
      ensures Wires(if taken then accepted + [m] else accepted) ==
              Wires(accepted) + if taken then [Publication(m.channel, m.exchange, m.routingKey, m.timestamp, m.body)] else []
    {
      OneMoreWire(accepted, m);
    }

    /** Publishes the front, read without the mutex. By the invariant there is one, and it stays
        there, stamped, until the pop. What goes to the broker is that message. */
    method PublishSection() returns (ret: HareError, now: int)
      requires Valid() && worker.Publishing?
      modifies this, connection`published
      ensures Valid() && OnlyWorker() && Took(Work(Outcome(ret, now, [])))
      ensures old(sendQueue) != [] && |sendQueue| == |old(sendQueue)| && sendQueue[1..] == old(sendQueue)[1..]
      ensures var t := old(sendQueue)[0].timestamp;
              sendQueue[0] == old(sendQueue)[0].(timestamp := if t.Some? then t else Some(now))
      ensures var m := sendQueue[0];
              connection.published == old(connection.published) +
                if NoError(ret) then [Publication(m.channel, m.exchange, m.routingKey, m.timestamp, m.body)] else []
      ensures connection.isConnected
      ensures worker == if ServerFailure(ret) then PublishClosing else if NoError(ret) then Popping(sendQueue[0]) else LoopTest
    {
      hide IsRun, WorkerStep, Step, Enabled, Wires;
      SafeFront();
      ghost var before := View();
      var m;
      ret, now, m := CallPublish(sendQueue[0]);
      sendQueue := [m] + sendQueue[1..];
      PublishedAfter(history.accepted, m, NoError(ret));
      PublishFrontStep(before, ret, now, m);
      Commit(before, Work(Outcome(ret, now, [])),
             if ServerFailure(ret) then PublishClosing else if NoError(ret) then Popping(sendQueue[0]) else LoopTest,
             control, callers);
    }

    /** Frees and pops the front, under the mutex: it is the message just published. */
    method PopSection()
      requires Valid() && worker.Popping?
      modifies this
      ensures Valid() && OnlyWorker() && Took(Work(QUIET)) && worker.LoopTest?
      ensures old(sendQueue) == [old(worker.sent)] + sendQueue
    {
      hide IsRun, CallerStep, CallStep, ControlStep, TestPc, PublishStep, PassStep;
      SafeFront();
      ghost var before := View();
      RemoveFrontMessage();
      Commit(before, Work(QUIET), LoopTest, control, callers);
    }

    // ---- The exchange list ----

    /** addExchange(exchange), under the mutex. */
    method AddExchange(exchange: string) returns (channel: int)
      modifies this`exchangeList, this`curChannelNumber, this`channelsConnected
      ensures var r := ProducerProtocol.AddExchange(old(Registry(exchangeList, curChannelNumber, order)), exchange);
              exchangeList == r.exchanges && curChannelNumber == r.curChannel && channel == ChannelFor(r, exchange)
      ensures channelsConnected == (exchange in old(exchangeList) && old(channelsConnected))
    {
      if exchange !in exchangeList {
        exchangeList := exchangeList[exchange := ExchangeProperties(-1, false, false, "direct")];
        exchangeList := exchangeList[exchange := exchangeList[exchange].(channel := curChannelNumber)];
        channelsConnected := false;
        channel := curChannelNumber;
        curChannelNumber := curChannelNumber + 1;
      } else {
        channel := exchangeList[exchange].channel;
      }
    }

    /** addExchange(exchange, type), under the mutex. */
    method AddDeclaredExchange(exchange: string, kind: string) returns (channel: int)
      modifies this`exchangeList, this`curChannelNumber, this`channelsConnected
      ensures var r := ProducerProtocol.AddDeclaredExchange(old(Registry(exchangeList, curChannelNumber, order)), exchange, kind);
              exchangeList == r.exchanges && curChannelNumber == r.curChannel && channel == ChannelFor(r, exchange)
      ensures !channelsConnected
    {
      if exchange !in exchangeList {
        exchangeList := exchangeList[exchange := ExchangeProperties(curChannelNumber, false, true, kind)];
        channelsConnected := false;
        channel := curChannelNumber;
        curChannelNumber := curChannelNumber + 1;
      } else {
        exchangeList := exchangeList[exchange := exchangeList[exchange].(isDeclare := true)];
        exchangeList := exchangeList[exchange := exchangeList[exchange].(kind := kind)];
        channel := exchangeList[exchange].channel;
        channelsConnected := false;
      }
    }

    // ---- Sections of Send and DeclareExchange ----

    method BeginSendSection(id: nat, exchange: string, routingKey: string, message: UserMessage)
      requires Valid() && id !in callers
      modifies this
      ensures Valid() && Later() && Took(BeginSend(id, exchange, routingKey, message))
      ensures OnlyCaller(id) && callers[id] == Adding(exchange, routingKey, message)
      ensures exchangeList == old(exchangeList)
      ensures actions == old(actions) + [BeginSend(id, exchange, routingKey, message)]
    {
      Commit(View(), BeginSend(id, exchange, routingKey, message), worker, control,
             callers[id := Adding(exchange, routingKey, message)]);
    }

    method BeginDeclareSection(id: nat, exchange: string, kind: string)
      requires Valid() && id !in callers
      modifies this
      ensures Valid() && Later() && Took(BeginDeclare(id, exchange, kind))
      ensures OnlyCaller(id) && callers[id] == DeclaringExchange(exchange, kind)
      ensures exchangeList == old(exchangeList)
      ensures actions == old(actions) + [BeginDeclare(id, exchange, kind)]
    {
      Commit(View(), BeginDeclare(id, exchange, kind), worker, control, callers[id := DeclaringExchange(exchange, kind)]);
    }

    /** No exchange has a negative channel, so Send never reports invalid parameters. */
    lemma ChannelsArePositive(exchange: string, kind: string)
      requires Valid()
      ensures var r := View().registry;
              && ChannelFor(ProducerProtocol.AddExchange(r, exchange), exchange) >= 1
              && ChannelFor(ProducerProtocol.AddDeclaredExchange(r, exchange, kind), exchange) >= 1
    {
      Safe();
      AddAllocates(View().registry, exchange);
      AddDeclaredAllocates(View().registry, exchange, kind);
    }

    method AddSection(id: nat)
      requires Valid() && id in callers && callers[id].Adding? && !MutexHeld(worker)
      modifies this
      ensures Valid() && OnlyCaller(id) && Took(Continue(id, Buffers(0, 0, 0)))
      ensures var Adding(x, key, m) := old(callers[id]); callers[id] == Enqueuing(x, key, m)
    {
      hide WorkerStep, CallStep, ControlStep, IsRun;
      var Adding(x, key, m) := callers[id];
      ChannelsArePositive(x, "");
      ghost var before := View();
      var channel := AddExchange(x);
      Commit(before, Continue(id, Buffers(0, 0, 0)), worker, control,
             callers[id := if channel < 0 then Done(InvalidParameters) else Enqueuing(x, key, m)]);
    }

    /** Three buffers that are not live; which ones is up to the allocator. */
    method Malloc() returns (b: Buffers)
      ensures FreshBuffers(heap, b)
    {
      b := *;
      if !FreshBuffers(heap, b) {
        var rest, top := heap.live, 0;
        while rest != {}
          invariant rest <= heap.live
          invariant forall p :: p in heap.live && p !in rest ==> p < top
          decreases |rest|
        {
          var p :| p in rest;
          rest := rest - {p};
          if top <= p {
            top := p + 1;
          }
        }
        b := Buffers(top, top + 1, top + 2);
      }
    }

    lemma QueuedExchangeIsListed(id: nat)
      requires Valid() && id in callers && callers[id].Enqueuing?
      ensures callers[id].exchange in exchangeList
    {
      Safe();
    }

    /** Builds the message, with its exchange's channel, and queues it. */
    method EnqueueSection(id: nat)
      requires Valid() && id in callers && callers[id].Enqueuing? && !MutexHeld(worker)
      modifies this
      ensures Valid() && OnlyCaller(id) && callers[id] == Done(AllGood)
      ensures exists b :: Took(Continue(id, b))
      ensures var Enqueuing(x, key, m) := old(callers[id]);
              && x in exchangeList
              && |sendQueue| == |old(sendQueue)| + 1
              && sendQueue == old(sendQueue) + [sendQueue[|old(sendQueue)|]]
              && sendQueue[|old(sendQueue)|] == RawMessage(x, exchangeList[x].channel, key, m.timestamp, m.body,
                                                           sendQueue[|old(sendQueue)|].buffers)
    {
      hide WorkerStep, CallStep, ControlStep, IsRun;
      QueuedExchangeIsListed(id);
      ghost var before := View();
      var Enqueuing(x, key, m) := callers[id];
      var b := Malloc();
      var built := BuiltMessage(Registry(exchangeList, curChannelNumber, []), x, key, m, b);
      heap := heap.(live := heap.live + BuffersOf(built));
      sendQueue := sendQueue + [built];
      Commit(before, Continue(id, b), worker, control, callers[id := Done(AllGood)]);
    }

    method DeclareSection(id: nat)
      requires Valid() && id in callers && callers[id].DeclaringExchange? && !MutexHeld(worker)
      modifies this
      ensures Valid() && OnlyCaller(id) && Took(Continue(id, Buffers(0, 0, 0))) && callers[id] == Done(AllGood)
      ensures var DeclaringExchange(x, kind) := old(callers[id]);
              Marked(View().registry, x) && TypeOf(View().registry, x) == kind
              && ChannelFor(View().registry, x) >= 1 && !channelsConnected
    {
      hide WorkerStep, CallStep, ControlStep, IsRun;
      var DeclaringExchange(x, kind) := callers[id];
      ChannelsArePositive(x, kind);
      ghost var before := View();
      var channel := AddDeclaredExchange(x, kind);
      Commit(before, Continue(id, Buffers(0, 0, 0)), worker, control,
             callers[id := Done(if channel != -1 then AllGood else InvalidParameters)]);
    }

    // ---- Sections of the controlling thread ----

    /** Start, up to the creation of the thread. */
    method StartBodySection() returns (next: ControlPc)
      modifies this`threadRunning
      ensures threadRunning == (old(threadRunning) || (isInitialized && !old(threadRunning)))
      ensures next == if !isInitialized then Idle(NotInitialized)
                      else if old(threadRunning) then Idle(ThreadAlreadyRunning) else Spawning
    {
      if !isInitialized {
        return Idle(NotInitialized);
      }
      if threadRunning {
        return Idle(ThreadAlreadyRunning);
      }
      threadRunning := true;
      next := Spawning;
    }

    method InitializeSection()
      requires Valid() && CallEnabled(View(), Initialize)
      modifies this, connection
      ensures Valid() && Later() && Took(Call(Initialize)) && control == Idle(AllGood)
      ensures isInitialized && !threadRunning && !connection.isConnected
      ensures worker == old(worker) && callers == old(callers)
      ensures exchangeList == old(exchangeList)
      ensures history.handled == old(history.handled)
    {
      ghost var before := View();
      var reply: RpcReply := *;
      var ret := connection.CloseConnection(reply);
      isInitialized, threadRunning := true, false;
      Commit(before, Call(Initialize), worker, Idle(AllGood), callers);
    }

    method StartSection()
      requires Valid() && (control.Starting? || control.Idle?) && !MutexHeld(worker)
      modifies this
      ensures Valid() && Later() && Took(if old(control).Idle? then Call(ApiCall.Start) else ContinueCall)
      ensures isInitialized == old(isInitialized) && worker == old(worker) && callers == old(callers)
      ensures control == if !isInitialized then Idle(NotInitialized)
                         else if old(threadRunning) then Idle(ThreadAlreadyRunning) else Spawning
      ensures threadRunning == (old(threadRunning) || control.Spawning?)
      ensures sendQueue == old(sendQueue)
      ensures exchangeList == old(exchangeList)
      ensures history.handled == old(history.handled)
    {
      ghost var before := View();
      var next := StartBodySection();
      Commit(before, if control.Idle? then Call(ApiCall.Start) else ContinueCall, worker, next, callers);
    }

    method SpawnSection()
      requires Valid() && control.Spawning?
      modifies this
      ensures Valid() && Later() && Took(ContinueCall) && control == Idle(AllGood) && worker.LoopTest?
      ensures threadRunning == old(threadRunning) && isInitialized == old(isInitialized) && callers == old(callers)
      ensures sendQueue == old(sendQueue)
      ensures exchangeList == old(exchangeList)
      ensures channelsConnected == old(channelsConnected)
      ensures history.handled == old(history.handled)
    {
      Commit(View(), ContinueCall, LoopTest, Idle(AllGood), callers);
    }

    /** The tests at the head of Stop, Restart and the destructor. */
    method BeginStopSection(call: ApiCall)
      requires Valid() && CallEnabled(View(), call) && (call.Stop? || call.Restart? || call.Destroy?)
      modifies this
      ensures Valid() && Later() && Took(Call(call)) && worker == old(worker) && callers == old(callers)
      ensures isInitialized == old(isInitialized) && threadRunning == old(threadRunning)
      ensures call.Stop? ==> control == if threadRunning then ClearingFlag(JustStop) else Closing(JustStop, ThreadNotRunning)
      ensures call.Restart? ==>
                control == if !isInitialized then Idle(NotInitialized)
                           else if threadRunning then ClearingFlag(ThenStart) else Closing(ThenStart, ThreadNotRunning)
      ensures sendQueue == old(sendQueue)
      ensures exchangeList == old(exchangeList)
      ensures history.handled == old(history.handled)
    {
      ghost var before := View();
      var after := if call.Stop? then JustStop else if call.Restart? then ThenStart else ThenDestroy;
      var next;
      if call.Restart? && !isInitialized {
        next := Idle(NotInitialized);
      } else if call.Destroy? && !(isInitialized && threadRunning) {
        next := Destroying;
      } else {
        next := if threadRunning then ClearingFlag(after) else Closing(after, ThreadNotRunning);
      }
      Commit(before, Call(call), worker, next, callers);
    }

    /** setRunning(false), the join, and the flag reset. */
    method StopSection()
      requires Valid() && ControlEnabled(View())
      requires control.ClearingFlag? || control.Joining? || control.Unflagging?
      modifies this
      ensures Valid() && Later() && Took(ContinueCall) && callers == old(callers)
      ensures isInitialized == old(isInitialized)
      ensures threadRunning == (old(threadRunning) && !old(control).ClearingFlag?)
      ensures worker == if old(control).Joining? then NoThread else old(worker)
      ensures control == match old(control)
                         case ClearingFlag(after) => Joining(after)
                         case Joining(after) => Unflagging(after)
                         case c => Closing(c.after, AllGood)
      ensures sendQueue == old(sendQueue)
      ensures exchangeList == old(exchangeList)
      ensures channelsConnected == (old(channelsConnected) && !old(control).Unflagging?)
      ensures history.handled == old(history.handled)
    {
      ghost var before := View();
      match control {
        case ClearingFlag(after) =>
          threadRunning := false;
          Commit(before, ContinueCall, worker, Joining(after), callers);
        case Joining(after) =>
          Commit(before, ContinueCall, NoThread, Unflagging(after), callers);
        case Unflagging(after) =>
          channelsConnected := false;
          Commit(before, ContinueCall, worker, Closing(after, AllGood), callers);
      }
    }

    method StopCloseSection()
      requires Valid() && control.Closing?
      modifies this, connection
      ensures Valid() && Later() && Took(ContinueCall) && control == Draining(old(control.after), old(control.ret))
      ensures threadRunning == old(threadRunning) && isInitialized == old(isInitialized)
      ensures !connection.isConnected && worker == old(worker) && callers == old(callers)
      ensures exchangeList == old(exchangeList)
      ensures history.handled == old(history.handled)
    {
      ghost var before := View();
      var reply: RpcReply := *;
      var ret := connection.CloseConnection(reply);
      Commit(before, ContinueCall, worker, Draining(control.after, control.ret), callers);
    }

    /** One turn of clearActiveSendQueue's loop. */
    method DrainSection() returns (empty: bool)
      requires Valid() && control.Draining?
      modifies this
      ensures Valid() && Later() && Took(ContinueCall) && empty == (old(sendQueue) == [])
      ensures threadRunning == old(threadRunning) && isInitialized == old(isInitialized)
      ensures worker == old(worker) && callers == old(callers)
      ensures sendQueue == if empty then [] else old(sendQueue)[1..]
      ensures control == if empty then AfterStop(old(control.after), old(control.ret)) else old(control)
      ensures exchangeList == old(exchangeList)
    {
      ghost var before := View();
      empty := sendQueue == [];
      if empty {
        Commit(before, ContinueCall, worker, AfterStop(control.after, control.ret), callers);
      } else {
        RemoveFrontMessage();
        Commit(before, ContinueCall, worker, control, callers);
      }
    }

    method DestroySection()
      requires Valid() && control.Destroying?
      modifies this, connection
      ensures Valid() && Later() && Took(ContinueCall) && control.Gone?
      ensures worker == old(worker) && callers == old(callers)
      ensures exchangeList == old(exchangeList)
      ensures history.handled == old(history.handled)
    {
      ghost var before := View();
      if isInitialized {
        var reply: RpcReply := *;
        var ret := connection.CloseConnection(reply);
      }
      Commit(before, ContinueCall, worker, Gone, callers);
    }

    // ---- The other threads ----

    method PassSection()
      requires Valid() && MutexHeld(worker)
      modifies this, connection`calls
      ensures Valid() && OnlyWorker()
    {
      hide Valid, Took, Step, WorkerStep, IsRun, AfterOpen;
      SafePass();
      match worker {
        case NextExchange(_, _) => var it := NextExchangeSection();
        case Opening(x, _, _) => var ret := OpenChannelSection(exchangeList[x]);
        case Declaring(x, _, _) => var ret := DeclareExchangeSection(exchangeList[x]);
      }
    }

    method LoopSection()
      requires Valid() && !worker.NoThread? && !worker.Returned? && !worker.Faulted? && !MutexHeld(worker)
      modifies this, connection
      ensures Valid() && OnlyWorker()
    {
      hide Valid, Took, Step, WorkerStep, IsRun;
      match worker {
        case LoopTest => var running := IsRunningSection();
        case ConnectedTest => var connected := IsConnectedSection();
        case Connecting => var ret := ConnectSection();
        case FlagTest => var flag := ChannelsConnectedSection();
        case PassConnectedTest => var connected := IsConnectedSection();
        case PassRunningTest => var running := IsRunningSection();
        case Locking => var walk := LockSection();
        case PassClosing => CloseSection();
        case PublishTest => var connected := IsConnectedSection();
        case SizeTest => var size := QueueTestSection();
        case Publishing => var ret, now := PublishSection();
        case Popping(_) => PopSection();
        case PublishClosing => CloseSection();
        case Dropping(_) => var empty := DropSection();
      }
    }

    method CallerSection(id: nat)
      requires Valid() && id in callers && !callers[id].Done? && !MutexHeld(worker)
      modifies this
      ensures Valid() && OnlyCaller(id)
    {
      hide Valid, Took, Step, IsRun;
      match callers[id] {
        case Adding(_, _, _) => AddSection(id);
        case Enqueuing(_, _, _) => EnqueueSection(id);
        case DeclaringExchange(_, _) => DeclareSection(id);
      }
    }

    predicate CanControl()
      reads this
    {
      match control
      case Idle(_) => false
      case ClearingFlag(_) => !MutexHeld(worker)
      case Joining(_) => worker.Returned?
      case Starting => !MutexHeld(worker)
      case Gone => false
      case _ => true
    }

    /** The worker is only removed after it returned, and only created where there was none. */
    method ControlSection()
      requires Valid() && CanControl()
      modifies this, connection
      ensures Valid() && Later() && Undisturbed(WorkerRole) && callers == old(callers)
    {
      Safe();
      hide Valid, Took, Step, IsRun, Reachable;
      match control {
        case Spawning => SpawnSection();
        case ClearingFlag(_) => StopSection();
        case Joining(_) => StopSection();
        case Unflagging(_) => StopSection();
        case Closing(_, _) => StopCloseSection();
        case Draining(_, _) => var empty := DrainSection();
        case Starting => StartSection();
        case Destroying => DestroySection();
      }
    }

    method NewCallSection(call: ApiCall)
      requires Valid() && CallEnabled(View(), call)
      modifies this, connection
      ensures Valid() && Later() && Undisturbed(WorkerRole) && callers == old(callers)
    {
      Safe();
      hide Valid, Took, Step, IsRun;
      match call {
        case Initialize => InitializeSection();
        case Start => StartSection();
        case _ => BeginStopSection(call);
      }
    }

    /** One section of whatever thread the scheduler picks, other than `me`. */
    method OtherSection(me: Role)
      requires Valid()
      modifies this, connection
      ensures Valid() && Later() && Undisturbed(me)
    {
      hide Valid, Step, IsRun;
      var pick: nat, id: nat := *, *;
      if pick == 0 && me != WorkerRole && !worker.NoThread? && !worker.Returned? && !worker.Faulted? {
        if MutexHeld(worker) {
          PassSection();
        } else {
          LoopSection();
        }
      } else if pick == 1 && me != ControlRole && CanControl() {
        ControlSection();
      } else if pick == 2 && me != ControlRole && control.Idle? && !MutexHeld(worker) {
        var call: ApiCall := *;
        if (call.Initialize? ==> !threadRunning) && (call.Stop? ==> isInitialized) {
          NewCallSection(call);
        }
      } else if pick == 3 && id !in callers {
        var exchange: string, text: string, message: UserMessage, declare: bool := *, *, *, *;
        if declare {
          BeginDeclareSection(id, exchange, text);
        } else {
          BeginSendSection(id, exchange, text, message);
        }
      } else if pick == 4 && me != CallerRole(id) && id in callers && !callers[id].Done? && !MutexHeld(worker) {
        CallerSection(id);
      }
    }

    /** Any number of them, between two sections of `me`. */
    method Others(me: Role)
      requires Valid()
      modifies this, connection
      ensures Valid() && Later() && Undisturbed(me)
    {
      hide Valid, Step, IsRun;
      var n: nat := *;
      while n > 0
        invariant Valid() && Later() && Undisturbed(me)
      {
        OtherSection(me);
        n := n - 1;
      }
    }

    // ---- The publisher thread, as the source writes it ----

    /** clearActiveSendQueue: everything queued when it begins leaves the queue. The other threads
        interrupt it any finite number of times, each time queueing as much as they like. */
    method ClearActiveSendQueue()
      requires Valid() && worker.Dropping?
      modifies this, connection
      ensures connection.isConnected == old(connection.isConnected)
      ensures Valid() && Later() && worker == if old(worker.inPass) then PublishTest else LoopTest
      ensures connection.published == old(connection.published)
      ensures |history.handled| >= |old(history.handled)| + |old(sendQueue)|
    {
      hide Valid, Took, Step, WorkerStep, IsRun;
      var interruptions: nat := *;
      var empty := false;
      while !empty
        invariant Valid() && Later()
        invariant worker == if !empty then old(worker) else if old(worker.inPass) then PublishTest else LoopTest
        invariant connection.isConnected == old(connection.isConnected)
        invariant connection.published == old(connection.published)
        invariant |history.handled| + |sendQueue| >= |old(history.handled)| + |old(sendQueue)|
        invariant empty ==> |history.handled| >= |old(history.handled)| + |old(sendQueue)|
        decreases interruptions, |sendQueue|, !empty
      {
        if interruptions > 0 {
          Others(WorkerRole);
          interruptions := interruptions - 1;
        } else {
          empty := DropSection();
        }
      }
      Others(WorkerRole);
    }

    method CloseConnection()
      requires Valid() && (worker.PassClosing? || worker.PublishClosing?)
      modifies this, connection
      ensures !connection.isConnected
      ensures Valid() && Later() && worker == if old(worker).PassClosing? then PublishTest else LoopTest
      ensures connection.published == old(connection.published)
      ensures |history.handled| >= |old(history.handled)| + |old(sendQueue)|
    {
      hide Valid, Took, Step, WorkerStep, IsRun;
      CloseSection();
      Others(WorkerRole);
      ClearActiveSendQueue();
    }

    /** The body of connectChannels' loop for one element, of which `it` is the loop's copy. Success
        marks the copy as connected and leaves the list as it is. A declare failure that is not a
        server failure leaves `allGood` alone; `accepted` says whether the open succeeded. */
    method OpenAndDeclare(it: ExchangeProperties)
        returns (ret: HareError, accepted: bool, marked: ExchangeProperties)
      requires Valid() && worker.Opening?
      requires worker.exchange in exchangeList && it == exchangeList[worker.exchange] && !it.connected
      modifies this, connection
      ensures Valid() && Later()
      ensures ServerFailure(ret) ==> worker.PassClosing?
      ensures !ServerFailure(ret) ==> worker.NextExchange? && worker.rest == old(worker.rest)
      ensures worker.NextExchange? ==> worker.allGood == (old(worker.allGood) && accepted)
      ensures NoError(ret) ==> accepted
      ensures OnlyAppended() && connection.isConnected == old(connection.isConnected)
      ensures connection.calls == old(connection.calls) + [Sent(OpenCall(it.channel), if accepted then AllGood else ret)]
                + if accepted && it.isDeclare then [Sent(DeclareExchangeCall(it.channel, old(worker.exchange), it.kind), ret)] else []
      ensures marked == it.(connected := NoError(ret))
      ensures !ServerFailure(ret) ==> exchangeList == old(exchangeList)
    {
      hide Valid, Took, Step, WorkerStep, IsRun;
      marked := it;
      ret := OpenChannelSection(marked);
      accepted := NoError(ret);
      Others(WorkerRole);
      if accepted && it.isDeclare {
        ret := DeclareExchangeSection(marked);
        Others(WorkerRole);
      }
      if NoError(ret) {
        marked := marked.(connected := true);
      }
    }

    /** One turn of connectChannels' loop. */
    method OpenNext() returns (ret: HareError)
      requires Valid() && worker.NextExchange? && worker.rest != []
      modifies this, connection
      ensures Valid() && Later()
      ensures ServerFailure(ret) ==> worker.PassClosing?
      ensures !ServerFailure(ret) ==> worker.NextExchange? && worker.rest == old(worker.rest)[1..]
      ensures OnlyAppended() && connection.isConnected == old(connection.isConnected)
      ensures !ServerFailure(ret) ==> exchangeList == old(exchangeList)
    {
      hide Valid, Took, Step, WorkerStep, IsRun, AfterOpen;
      var it := NextExchangeSection();
      Others(WorkerRole);
      var accepted, marked;
      ret, accepted, marked := OpenAndDeclare(it.value);
    }

    /** connectChannels from its lock to its unlock; `closing` says it left through a server failure,
        having released the mutex. */
    method OpenAll() returns (closing: bool)
      requires Valid() && worker.Locking?
      modifies this, connection
      ensures Valid() && Later() && worker == if closing then PassClosing else PublishTest
      ensures OnlyAppended() && connection.isConnected == old(connection.isConnected)
    {
      hide Valid, Took, Step, WorkerStep, IsRun, AfterOpen;
      var walk := LockSection();
      Others(WorkerRole);
      for i := 0 to |walk|
        invariant OnlyAppended() && connection.isConnected == old(connection.isConnected)
        invariant Valid() && Later() && worker.NextExchange? && worker.rest == walk[i..]
      {
        var ret := OpenNext();
        if ServerFailure(ret) {
          return true;
        }
        assert walk[i..][1..] == walk[i + 1..];
      }
      var it := NextExchangeSection();
      Others(WorkerRole);
      return false;
    }

    /** connectChannels' tests before it takes the mutex. */
    method PassTests() returns (go: bool)
      requires Valid() && worker.PassConnectedTest?
      modifies this, connection
      ensures Valid() && Later() && worker == if go then Locking else PublishTest
      ensures OnlyAppended() && connection.isConnected == old(connection.isConnected)
    {
      hide Valid, Took, Step, WorkerStep, IsRun;
      go := IsConnectedSection();
      Others(WorkerRole);
      if go {
        go := IsRunningSection();
        Others(WorkerRole);
      }
    }

    method ConnectChannels()
      requires Valid() && worker.PassConnectedTest?
      modifies this, connection
      ensures Valid() && Later() && worker.PublishTest?
      ensures connection.isConnected ==> OnlyAppended()
    {
      hide Valid, Took, Step, WorkerStep, IsRun;
      var go := PassTests();
      if go {
        var closing := OpenAll();
        if closing {
          CloseConnection();
        }
      }
    }

    /** What an attempt on the front leaves of the queue, unless the connection was lost: without the
        front if it was sent, else with it, stamped; the rest is as it was, and may have grown. */
    twostate predicate FrontTried(sent: bool)
      reads this
    {
      old(sendQueue) != [] &&
      if sent then old(sendQueue)[1..] <= sendQueue
      else
        && sendQueue != [] && old(sendQueue)[1..] <= sendQueue[1..]
        && sendQueue[0] == old(sendQueue)[0].(timestamp := sendQueue[0].timestamp)
        && sendQueue[0].timestamp.Some?
        && (old(sendQueue)[0].timestamp.Some? ==> sendQueue[0].timestamp == old(sendQueue)[0].timestamp)
    }

    /** A message that was not taken stays at the front for the next turn of the loop. */
    method PublishFront() returns (ret: HareError)
      requires Valid() && worker.Publishing?
      modifies this, connection
      ensures Valid() && Later() && worker.LoopTest?
      ensures connection.isConnected <==> !ServerFailure(ret)
      ensures !ServerFailure(ret) ==> FrontTried(NoError(ret))
      ensures var n := |old(connection.published)|;
              if NoError(ret) then
                && old(sendQueue) != [] && |connection.published| == n + 1
                && var m := old(sendQueue)[0];
                   && connection.published == old(connection.published)
                        + [Publication(m.channel, m.exchange, m.routingKey, connection.published[n].timestamp, m.body)]
                   && connection.published[n].timestamp.Some?
                   && (m.timestamp.Some? ==> connection.published[n].timestamp == m.timestamp)
              else connection.published == old(connection.published)
    {
      hide Valid, Took, Step, WorkerStep, IsRun, Stamped;
      var now;
      ret, now := PublishSection();
      Others(WorkerRole);
      if ServerFailure(ret) {
        CloseConnection();
      } else if NoError(ret) {
        PopSection();
        Others(WorkerRole);
      }
    }

    method PublishNextInQueue()
      requires Valid() && worker.PublishTest?
      modifies this, connection
      ensures Valid() && Later() && worker.LoopTest?
      ensures connection.isConnected ==> OnlyAppended() || FrontTried(true) || FrontTried(false)
    {
      hide Valid, Took, Step, WorkerStep, IsRun;
      var connected := IsConnectedSection();
      Others(WorkerRole);
      if !connected {
        return;
      }
      var size := QueueTestSection();
      Others(WorkerRole);
      if size != 0 {
        var ret := PublishFront();
      }
    }

    /** Connects if need be. */
    method EnsureConnected() returns (connected: bool)
      requires Valid() && worker.ConnectedTest?
      modifies this, connection
      ensures Valid() && Later() && worker == if connected then FlagTest else LoopTest
    {
      hide Valid, Took, Step, WorkerStep, IsRun, OnlyAppended, FrontTried;
      connected := IsConnectedSection();
      Others(WorkerRole);
      if !connected {
        var ret := ConnectSection();
        Others(WorkerRole);
        connected := NoError(ret);
      }
    }

    /** The body of the thread's loop. */
    method Iteration()
      requires Valid() && worker.ConnectedTest?
      modifies this, connection
      ensures Valid() && Later() && worker.LoopTest?
    {
      hide Valid, Took, Step, WorkerStep, IsRun, OnlyAppended, FrontTried;
      var connected := EnsureConnected();
      if !connected {
        return;
      }
      var flag := ChannelsConnectedSection();
      Others(WorkerRole);
      if !flag {
        ConnectChannels();
      }
      PublishNextInQueue();
    }

    /** Producer::thread, for at most `rounds` iterations of its loop. It never pops or reads an
        empty queue. */
    method Thread(rounds: nat)
      requires Valid() && worker.LoopTest?
      modifies this, connection
      ensures Valid() && Later() && (worker.Returned? || worker.ConnectedTest?)
    {
      hide Valid, Took, Step, WorkerStep, IsRun, OnlyAppended, FrontTried;
      var running := IsRunningSection();
      var n := 0;
      while running && n < rounds
        invariant Valid() && Later()
        invariant worker == if running then ConnectedTest else Returned
        decreases rounds - n
      {
        Others(WorkerRole);
        Iteration();
        running := IsRunningSection();
        n := n + 1;
      }
    }

    // ---- The API, as the source writes it ----

    /** Waits for the producer mutex through at most `patience` steps of the other threads. */
    method AwaitMutex(me: Role, patience: nat) returns (free: bool)
      requires Valid()
      modifies this, connection
      ensures Valid() && Later() && Undisturbed(me) && free == !MutexHeld(worker)
    {
      hide Valid, Step, IsRun;
      var n := patience;
      while MutexHeld(worker) && n > 0
        invariant Valid() && Later() && Undisturbed(me)
      {
        OtherSection(me);
        n := n - 1;
      }
      free := !MutexHeld(worker);
    }

    /** Waits for the publisher thread to return. */
    method AwaitReturn(patience: nat) returns (returned: bool)
      requires Valid()
      modifies this, connection
      ensures Valid() && Later() && Undisturbed(ControlRole) && returned == worker.Returned?
    {
      hide Valid, Step, IsRun;
      var n := patience;
      while !worker.Returned? && n > 0
        invariant Valid() && Later() && Undisturbed(ControlRole)
      {
        OtherSection(ControlRole);
        n := n - 1;
      }
      returned := worker.Returned?;
    }

    /** Producer::Send on thread `id`. None: still waiting for the mutex. Otherwise it succeeds, and
        the last message of the queue is this one, on its exchange's channel. */
    method Send(id: nat, exchange: string, routingKey: string, message: UserMessage, patience: nat)
        returns (ret: Option<HareError>)
      requires Valid() && id !in callers
      modifies this, connection
      ensures Valid() && Later()
      ensures ret.Some? ==> ret.value == AllGood && id in callers && callers[id] == Done(AllGood)
      ensures ret.Some? ==> sendQueue != []
      ensures ret.Some? ==>
                var m := sendQueue[|sendQueue| - 1];
                && m.exchange == exchange && exchange in exchangeList && m.channel == exchangeList[exchange].channel
                && m.routingKey == routingKey && m.timestamp == message.timestamp && m.body == message.body
      ensures |old(actions)| < |actions| && actions[|old(actions)|] == BeginSend(id, exchange, routingKey, message)
    {
      hide Valid, Took, Step, WorkerStep, IsRun, OnlyAppended, FrontTried;
      BeginSendSection(id, exchange, routingKey, message);
      var free := AwaitMutex(CallerRole(id), patience);
      if !free {
        return None;
      }
      AddSection(id);
      free := AwaitMutex(CallerRole(id), patience);
      if !free {
        return None;
      }
      EnqueueSection(id);
      return Some(AllGood);
    }

    /** Producer::DeclareExchange on thread `id`. None: still waiting for the mutex. Otherwise it
        succeeds, and the exchange is listed with its type, and the flag is clear, so the next pass
        declares it. */
    method DeclareExchange(id: nat, exchange: string, kind: string, patience: nat) returns (ret: Option<HareError>)
      requires Valid() && id !in callers
      modifies this, connection
      ensures Valid() && Later()
      ensures ret.Some? ==> ret.value == AllGood && id in callers && callers[id] == Done(AllGood)
      ensures ret.Some? ==> exchange in exchangeList && exchangeList[exchange].isDeclare
                            && exchangeList[exchange].kind == kind && exchangeList[exchange].channel >= 1
                            && !channelsConnected
      ensures |old(actions)| < |actions| && actions[|old(actions)|] == BeginDeclare(id, exchange, kind)
    {
      hide Valid, Took, Step, WorkerStep, IsRun, OnlyAppended, FrontTried;
      BeginDeclareSection(id, exchange, kind);
      var free := AwaitMutex(CallerRole(id), patience);
      if !free {
        return None;
      }
      DeclareSection(id);
      return Some(AllGood);
    }

    /** Producer::Start. None: still waiting for the mutex. */
    method Start(patience: nat) returns (ret: Option<HareError>)
      requires Valid() && control.Idle?
      modifies this, connection
      ensures Valid() && Later()
      ensures ret.Some? ==> control == Idle(ret.value)
      ensures ret.Some? ==> (ret.value == NotInitialized <==> !old(isInitialized))
      ensures ret.Some? ==> (ret.value == ThreadAlreadyRunning <==> old(isInitialized) && old(threadRunning))
      ensures ret.Some? ==> (NoError(ret.value) <==> old(isInitialized) && !old(threadRunning))
      ensures ret.Some? && NoError(ret.value) ==> threadRunning && worker.LoopTest? && !channelsConnected
    {
      hide Valid, Took, Step, WorkerStep, IsRun, OnlyAppended, FrontTried;
      var free := AwaitMutex(ControlRole, patience);
      if !free {
        return None;
      }
      StartSection();
      if control.Spawning? {
        Others(ControlRole);
        BeforeSpawn();
        SpawnSection();
      }
      return Some(control.ret);
    }

    /** The join, and the flag reset. */
    method JoinThread(patience: nat) returns (done: bool)
      requires Valid() && control.Joining?
      modifies this, connection
      ensures Valid() && Later() && isInitialized == old(isInitialized) && threadRunning == old(threadRunning)
      ensures done ==> control == Closing(old(control.after), AllGood) && worker.NoThread?
    {
      hide Valid, Took, Step, WorkerStep, IsRun, OnlyAppended, FrontTried;
      done := AwaitReturn(patience);
      if done {
        StopSection();
        Others(ControlRole);
        StopSection();
      }
    }

    /** Stop from setRunning(false) to the flag reset, if the thread runs. */
    method StopThread(patience: nat) returns (done: bool)
      requires Valid() && (control.ClearingFlag? || control.Closing?)
      modifies this, connection
      ensures Valid() && Later() && isInitialized == old(isInitialized)
      ensures done ==> threadRunning == (old(threadRunning) && !old(control).ClearingFlag?)
      ensures done ==> control == if old(control).Closing? then old(control) else Closing(old(control.after), AllGood)
      ensures done && old(control).ClearingFlag? ==> worker.NoThread?
    {
      hide Valid, Took, Step, WorkerStep, IsRun, OnlyAppended, FrontTried;
      done := true;
      if control.ClearingFlag? {
        done := AwaitMutex(ControlRole, patience);
        if done {
          StopSection();
          done := JoinThread(patience);
        }
      }
    }

    /** The end of Stop: the close and the drain, interrupted any finite number of times. */
    method CloseAndDrain()
      requires Valid() && control.Closing?
      modifies this, connection
      ensures Valid() && Later() && control == AfterStop(old(control.after), old(control.ret))
      ensures isInitialized == old(isInitialized) && threadRunning == old(threadRunning)
      ensures old(worker).NoThread? ==> worker.NoThread?
      ensures sendQueue == []
    {
      hide Valid, Took, Step, WorkerStep, IsRun, OnlyAppended, FrontTried;
      Others(ControlRole);
      StopCloseSection();
      var interruptions: nat := *;
      var empty := false;
      while !empty
        invariant Valid() && Later()
        invariant isInitialized == old(isInitialized) && threadRunning == old(threadRunning)
        invariant old(worker).NoThread? ==> worker.NoThread?
        invariant control == if empty then AfterStop(old(control.after), old(control.ret))
                             else Draining(old(control.after), old(control.ret))
        invariant empty ==> sendQueue == []
        decreases interruptions, |sendQueue|, !empty
      {
        if interruptions > 0 {
          Others(ControlRole);
          interruptions := interruptions - 1;
        } else {
          empty := DrainSection();
        }
      }
    }

    /** What holds whenever the controlling thread has just drained the queue. */
    lemma AfterDrain()
      requires Valid() && sendQueue == [] && (control.Idle? || control.Starting?) && !threadRunning
      ensures !connection.isConnected && heap.live == {} && heap.badFrees == 0 && !channelsConnected
    {
      Safe();
      StoppedMeansFlagClear(View());
    }

    /** What holds when the thread is about to be created. */
    lemma BeforeSpawn()
      requires Valid() && control.Spawning?
      ensures !channelsConnected
    {
      Safe();
      StoppedMeansFlagClear(View());
    }

    /** Producer::Stop. None: still waiting for the mutex or the thread. Otherwise nothing runs, is
        connected, queued or allocated, whatever the code returned. */
    method Stop(patience: nat) returns (ret: Option<HareError>)
      requires Valid() && control.Idle? && isInitialized
      modifies this, connection
      ensures Valid() && Later()
      ensures ret.Some? ==> ret.value == (if old(threadRunning) then AllGood else ThreadNotRunning)
      ensures ret.Some? ==> control == Idle(ret.value) && !threadRunning && !connection.isConnected
      ensures ret.Some? ==> sendQueue == [] && heap.live == {} && heap.badFrees == 0
      ensures ret.Some? ==> !channelsConnected
      ensures ret.Some? && old(threadRunning) ==> worker.NoThread?
    {
      hide Valid, Took, Step, WorkerStep, IsRun, OnlyAppended, FrontTried;
      var free := AwaitMutex(ControlRole, patience);
      if !free {
        return None;
      }
      BeginStopSection(ApiCall.Stop);
      var done := StopThread(patience);
      if !done {
        return None;
      }
      CloseAndDrain();
      AfterDrain();
      return Some(control.ret);
    }

    /** Producer::Restart: it starts again only if Stop reported AllGood. */
    method Restart(patience: nat) returns (ret: Option<HareError>)
      requires Valid() && control.Idle?
      modifies this, connection
      ensures Valid() && Later()
      ensures ret.Some? ==> ret.value == (if !old(isInitialized) then NotInitialized
                                          else if old(threadRunning) then AllGood else ThreadNotRunning)
      ensures ret.Some? ==> control == Idle(ret.value)
      ensures ret.Some? && NoError(ret.value) ==> threadRunning && worker.LoopTest? && !channelsConnected
    {
      hide Valid, Took, Step, WorkerStep, IsRun, OnlyAppended, FrontTried;
      var free := AwaitMutex(ControlRole, patience);
      if !free {
        return None;
      }
      BeginStopSection(ApiCall.Restart);
      if control.Idle? {
        return Some(NotInitialized);
      }
      var done := StopThread(patience);
      if !done {
        return None;
      }
      CloseAndDrain();
      if control.Starting? {
        StartSection();
        Others(ControlRole);
        BeforeSpawn();
        SpawnSection();
      }
      return Some(control.ret);
    }
  }
}
