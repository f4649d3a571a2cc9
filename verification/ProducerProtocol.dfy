/** The producer as a state machine (src/Producer_priv.cpp, src/Producer_api.cpp).

    The publisher thread, one controlling thread and any number of threads inside Send or
    DeclareExchange share the exchange list, the flags and the send queue. A step is a section under
    the producer mutex, a call of the broker with an arbitrary answer, or one unlocked operation on
    the queue. */
module ProducerProtocol {
  import opened HareErrors
  import opened Connection

  // ---- Values ----

  datatype ExchangeProperties = ExchangeProperties(channel: int, connected: bool, isDeclare: bool, kind: string)

  /** What the caller of Send provides. */
  datatype UserMessage = UserMessage(timestamp: Option<int>, body: string)

  /** The heap buffers Send allocates for one message. */
  datatype Buffers = Buffers(exchange: nat, routingKey: nat, message: nat)

  datatype RawMessage = RawMessage(
    exchange: string, channel: int, routingKey: string, timestamp: Option<int>, body: string, buffers: Buffers)

  /** Live buffers, and the number of frees of anything else. */
  datatype Heap = Heap(live: set<nat>, badFrees: nat)

  /** The message as it goes to the broker. */
  function Wire(m: RawMessage): Publication {
    Publication(m.channel, m.exchange, m.routingKey, m.timestamp, m.body)
  }

  function Wires(messages: seq<RawMessage>): seq<Publication> {
    if messages == [] then [] else Wires(messages[..|messages| - 1]) + [Wire(messages[|messages| - 1])]
  }

  lemma OneMoreWire(messages: seq<RawMessage>, m: RawMessage)
    ensures Wires(messages + [m]) == Wires(messages) + [Wire(m)]
  {
    assert (messages + [m])[..|messages|] == messages;
  }

  function FreeOne(h: Heap, buffer: nat): (h': Heap)
    ensures h'.badFrees == h.badFrees <==> buffer in h.live
    ensures h'.live == h.live - {buffer}
  {
    if buffer in h.live then h.(live := h.live - {buffer}) else h.(badFrees := h.badFrees + 1)
  }

  /** hare_free_message_risky. */
  function FreeMessage(h: Heap, m: RawMessage): Heap {
    FreeOne(FreeOne(FreeOne(h, m.buffers.message), m.buffers.routingKey), m.buffers.exchange)
  }

  function BuffersOf(m: RawMessage): set<nat> {
    {m.buffers.exchange, m.buffers.routingKey, m.buffers.message}
  }

  /** What malloc may return: three different addresses that are not live. */
  predicate FreshBuffers(h: Heap, b: Buffers) {
    && b.exchange !in h.live && b.routingKey !in h.live && b.message !in h.live
    && b.exchange != b.routingKey && b.exchange != b.message && b.routingKey != b.message
  }

  // ---- Where each thread is ----

  datatype WorkerPc =
    | NoThread
    | LoopTest                                                         // while (IsRunning())
    | ConnectedTest
    | Connecting
    | FlagTest                                                         // channelsConnected()
    | PassConnectedTest                                                // connectChannels' two tests
    | PassRunningTest
    | Locking
    | NextExchange(rest: seq<string>, allGood: bool)                   // head of its loop
    | Opening(exchange: string, rest: seq<string>, allGood: bool)
    | Declaring(exchange: string, rest: seq<string>, allGood: bool)
    | PassClosing                                                      // closeConnection, mutex released
    | PublishTest                                                      // publishNextInQueue's tests
    | SizeTest
    | Publishing
    | Popping(sent: RawMessage)
    | PublishClosing
    | Dropping(inPass: bool)                                           // clearActiveSendQueue
    | Returned
    | Faulted                                                          // used the front of an empty queue

  datatype After = JustStop | ThenStart | ThenDestroy

  datatype ControlPc =
    | Idle(ret: HareError)
    | Spawning
    | ClearingFlag(after: After)
    | Joining(after: After)
    | Unflagging(after: After)
    | Closing(after: After, ret: HareError)
    | Draining(after: After, ret: HareError)
    | Starting
    | Destroying
    | Gone

  datatype CallerPc =
    | Adding(exchange: string, routingKey: string, message: UserMessage)      // Send, first lock
    | Enqueuing(exchange: string, routingKey: string, message: UserMessage)   // Send, second lock
    | DeclaringExchange(exchange: string, kind: string)
    | Done(ret: HareError)

  // ---- The state ----

  /** m_exchangeList and m_curChannelNumber; `order` lists the exchanges as they got their channels. */
  datatype Registry = Registry(exchanges: map<string, ExchangeProperties>, curChannel: int, order: seq<string>)

  datatype Handled = Handled(message: RawMessage, published: bool)

  /** m_sendQueue and the heap its messages live in. The rest only observes: `enqueued` is every
      message ever queued, as queued; `handled` those that left the queue, in the order they left;
      `accepted` those the broker took, in order; `firstTry` gives, for the i-th message queued, the
      time of its first publish attempt. */
  datatype SendQueue = SendQueue(
    messages: seq<RawMessage>,
    heap: Heap,
    enqueued: seq<RawMessage>,
    handled: seq<Handled>,
    accepted: seq<RawMessage>,
    firstTry: map<nat, int>)

  /** What the broker has been asked, and has answered, on this connection. `calls`: the calls of the
      passes; `everOpen`: the channels OpenChannel succeeded on;
      `open`: those of them that no channel exception has closed since. `accepted`: the exchanges whose
      last declare succeeded, with the type declared; `refused`: those whose last declare failed, with
      the code. */
  datatype Answers = Answers(
    calls: seq<Sent>,
    everOpen: set<int>,
    open: set<int>,
    accepted: map<string, string>,
    refused: map<string, HareError>)

  const NO_ANSWERS := Answers([], {}, {}, map[], map[])

  /** The broker closes a channel by answering a call on it with a channel exception. */
  function OnException(open: set<int>, channel: int, err: HareError): set<int> {
    if err == ChannelException then open - {channel} else open
  }

  function OnOpen(a: Answers, channel: int, err: HareError): Answers {
    var calls := a.calls + [Sent(OpenCall(channel), err)];
    if NoError(err) then a.(calls := calls, everOpen := a.everOpen + {channel}, open := a.open + {channel})
    else a.(calls := calls, open := OnException(a.open, channel, err))
  }

  function OnDeclare(a: Answers, channel: int, exchange: string, kind: string, err: HareError): Answers {
    var calls := a.calls + [Sent(DeclareExchangeCall(channel, exchange, kind), err)];
    if NoError(err) then a.(calls := calls, accepted := a.accepted[exchange := kind], refused := a.refused - {exchange})
    else a.(calls := calls, open := OnException(a.open, channel, err),
            accepted := a.accepted - {exchange}, refused := a.refused[exchange := err])
  }

  /** `answers` and `flagEpoch`, the connection on which the pass that last set the flag ran, only
      observe. */
  datatype State = State(
    registry: Registry,
    initialized: bool,
    running: bool,
    channelsConnected: bool,
    queue: SendQueue,
    conn: Conn,
    answers: Answers,
    flagEpoch: nat,
    worker: WorkerPc,
    control: ControlPc,
    callers: map<nat, CallerPc>)

  const INITIAL := State(Registry(map[], 1, []), false, false, false, SendQueue([], Heap({}, 0), [], [], [], map[]),
                         NO_CONNECTION, NO_ANSWERS, 0, NoThread, Idle(AllGood), map[])

  /** connectChannels holds the producer mutex from its lock() to each of its unlock()s. */
  predicate MutexHeld(w: WorkerPc) {
    w.NextExchange? || w.Opening? || w.Declaring?
  }

  // ---- The exchange list ----

  /** addExchange(exchange): a new exchange gets the next channel. */
  function AddExchange(r: Registry, exchange: string): Registry {
    if exchange in r.exchanges then r
    else Registry(r.exchanges[exchange := ExchangeProperties(r.curChannel, false, false, "direct")],
                  r.curChannel + 1, r.order + [exchange])
  }

  /** addExchange(exchange, type): as above, and the exchange is to be declared. */
  function AddDeclaredExchange(r: Registry, exchange: string, kind: string): Registry {
    if exchange in r.exchanges
    then r.(exchanges := r.exchanges[exchange := r.exchanges[exchange].(isDeclare := true, kind := kind)])
    else Registry(r.exchanges[exchange := ExchangeProperties(r.curChannel, false, true, kind)],
                  r.curChannel + 1, r.order + [exchange])
  }

  /** m_exchangeList[exchange].m_channel; a missing key would be default-constructed with -1. */
  function ChannelFor(r: Registry, exchange: string): int {
    if exchange in r.exchanges then r.exchanges[exchange].channel else -1
  }

  function TypeOf(r: Registry, exchange: string): string {
    if exchange in r.exchanges then r.exchanges[exchange].kind else ""
  }

  // ---- The send queue ----

  function BuiltMessage(r: Registry, exchange: string, routingKey: string, m: UserMessage, b: Buffers): RawMessage {
    RawMessage(exchange, ChannelFor(r, exchange), routingKey, m.timestamp, m.body, b)
  }

  function Enqueue(q: SendQueue, m: RawMessage): SendQueue {
    q.(messages := q.messages + [m], heap := q.heap.(live := q.heap.live + BuffersOf(m)), enqueued := q.enqueued + [m])
  }

  /** Frees the front message's buffers and pops it. */
  function RemoveFront(q: SendQueue, published: bool): SendQueue
    requires q.messages != []
  {
    q.(messages := q.messages[1..],
       heap := FreeMessage(q.heap, q.messages[0]),
       handled := q.handled + [Handled(q.messages[0], published)])
  }

  /** PublishMessage stamps a message that has no timestamp yet. */
  function Stamped(m: RawMessage, now: int): RawMessage {
    if m.timestamp.None? then m.(timestamp := Some(now)) else m
  }

  /** A publish attempt on the front, while connected; `taken` says the broker took it. */
  function TryFront(q: SendQueue, now: int, taken: bool): SendQueue
    requires q.messages != []
  {
    var m, i := Stamped(q.messages[0], now), |q.handled|;
    q.(messages := [m] + q.messages[1..],
       firstTry := if i in q.firstTry then q.firstTry else q.firstTry[i := now],
       accepted := if taken then q.accepted + [m] else q.accepted)
  }

  function Close(s: State): State {
    s.(conn := OnClose(s.conn), answers := NO_ANSWERS)
  }

  // ---- The publisher thread ----

  /** The broker's answer, the clock, and the order the hash map is walked in. */
  datatype Outcome = Outcome(err: HareError, now: int, walk: seq<string>)

  ghost predicate IsWalk(walk: seq<string>, exchanges: map<string, ExchangeProperties>) {
    && (forall i, j :: 0 <= i < j < |walk| ==> walk[i] != walk[j])
    && (forall x :: x in walk <==> x in exchanges)
  }

  ghost predicate WorkerEnabled(s: State, o: Outcome) {
    && !s.worker.NoThread? && !s.worker.Returned? && !s.worker.Faulted?
    && (s.worker.Locking? ==> IsWalk(o.walk, s.registry.exchanges))
  }

  /** One pass over the exchanges. The loop copies each element, so the list's own `connected`
      marks never change. A declare failure that is not a server failure leaves `allGood` as it is. */
  function PassPc(s: State, err: HareError): WorkerPc
    requires MutexHeld(s.worker)
  {
    var exchanges := s.registry.exchanges;
    var answer := if s.conn.connected then err else ServerConnectionFailure;
    match s.worker
    case NextExchange(rest, allGood) =>
      if rest == [] then PublishTest
      else if rest[0] in exchanges && exchanges[rest[0]].connected then NextExchange(rest[1..], allGood)
      else Opening(rest[0], rest[1..], allGood)
    case Opening(x, rest, allGood) =>
      if ServerFailure(answer) then PassClosing
      else if !NoError(answer) then NextExchange(rest, false)
      else if x in exchanges && exchanges[x].isDeclare then Declaring(x, rest, allGood)
      else NextExchange(rest, allGood)
    case Declaring(x, rest, allGood) =>
      if ServerFailure(answer) then PassClosing else NextExchange(rest, allGood)
  }

  /** What a call of the pass adds to the answers. */
  function PassAnswers(s: State, err: HareError): Answers {
    if !s.conn.connected then s.answers
    else
      match s.worker
      case Opening(x, _, _) => OnOpen(s.answers, ChannelFor(s.registry, x), err)
      case Declaring(x, _, _) => OnDeclare(s.answers, ChannelFor(s.registry, x), x, TypeOf(s.registry, x), err)
      case _ => s.answers
  }

  function PassStep(s: State, err: HareError): State
    requires MutexHeld(s.worker)
  {
    var s' := s.(worker := PassPc(s, err), answers := PassAnswers(s, err));
    if s.worker.NextExchange? && s.worker.rest == [] && s.worker.allGood
    then s'.(channelsConnected := true, flagEpoch := s.conn.established)
    else s'
  }

  /** PublishMessage on the queue's front, read without the mutex. */
  function PublishStep(s: State, o: Outcome): State {
    if s.queue.messages == [] then s.(worker := Faulted)
    else if !s.conn.connected then s.(worker := PublishClosing)
    else
      s.(queue := TryFront(s.queue, o.now, NoError(o.err)),
         worker := if ServerFailure(o.err) then PublishClosing
                   else if NoError(o.err) then Popping(Stamped(s.queue.messages[0], o.now))
                   else LoopTest)
  }

  /** The tests of the loop, which only move the thread. */
  function TestPc(s: State, walk: seq<string>): WorkerPc {
    match s.worker
    case LoopTest => if s.running then ConnectedTest else Returned
    case ConnectedTest => if s.conn.connected then FlagTest else Connecting
    case FlagTest => if s.channelsConnected then PublishTest else PassConnectedTest
    case PassConnectedTest => if s.conn.connected then PassRunningTest else PublishTest
    case PassRunningTest => if s.running then Locking else PublishTest
    case Locking => NextExchange(walk, true)
    case PublishTest => if s.conn.connected then SizeTest else LoopTest
    case SizeTest => if s.queue.messages != [] then Publishing else LoopTest
    case w => w
  }

  /** The pop after a publish, and clearActiveSendQueue one message at a time. */
  function RemoveStep(s: State): State {
    match s.worker
    case Popping(_) =>
      if s.queue.messages == [] then s.(worker := Faulted)
      else s.(queue := RemoveFront(s.queue, true), worker := LoopTest)
    case Dropping(inPass) =>
      if s.queue.messages == [] then s.(worker := if inPass then PublishTest else LoopTest)
      else s.(queue := RemoveFront(s.queue, false))
    case _ => s
  }

  function WorkerStep(s: State, o: Outcome): State {
    match s.worker
    case Connecting => s.(conn := OnConnect(s.conn, o.err), worker := if NoError(o.err) then FlagTest else LoopTest)
    case NextExchange(_, _) => PassStep(s, o.err)
    case Opening(_, _, _) => PassStep(s, o.err)
    case Declaring(_, _, _) => PassStep(s, o.err)
    case PassClosing => Close(s).(worker := Dropping(true))
    case PublishClosing => Close(s).(worker := Dropping(false))
    case Publishing => PublishStep(s, o)
    case Popping(_) => RemoveStep(s)
    case Dropping(_) => RemoveStep(s)
    case _ => s.(worker := TestPc(s, o.walk))
  }

  // ---- Send and DeclareExchange ----

  ghost predicate CallerEnabled(s: State, id: nat, b: Buffers) {
    && id in s.callers && !s.callers[id].Done?
    && !MutexHeld(s.worker)
    && (s.callers[id].Enqueuing? ==> FreshBuffers(s.queue.heap, b))
  }

  function CallerStep(s: State, id: nat, b: Buffers): State
    requires id in s.callers
  {
    match s.callers[id]
    case Adding(x, key, m) =>
      var r := AddExchange(s.registry, x);
      s.(registry := r,
         channelsConnected := x in s.registry.exchanges && s.channelsConnected,
         callers := s.callers[id := if ChannelFor(r, x) < 0 then Done(InvalidParameters) else Enqueuing(x, key, m)])
    case Enqueuing(x, key, m) =>
      s.(queue := Enqueue(s.queue, BuiltMessage(s.registry, x, key, m, b)), callers := s.callers[id := Done(AllGood)])
    case DeclaringExchange(x, kind) =>
      var r := AddDeclaredExchange(s.registry, x, kind);
      s.(registry := r, channelsConnected := false,
         callers := s.callers[id := Done(if ChannelFor(r, x) != -1 then AllGood else InvalidParameters)])
    case Done(_) => s
  }

  // ---- The controlling thread ----

  datatype ApiCall = Initialize | Start | Stop | Restart | Destroy

  /** Stop dereferences the connection, so it is only called once initialized. */
  predicate CallEnabled(s: State, call: ApiCall) {
    && s.control.Idle? && !MutexHeld(s.worker)
    && (call.Initialize? ==> !s.running)
    && (call.Stop? ==> s.initialized)
  }

  function StartBody(s: State): State {
    if !s.initialized then s.(control := Idle(NotInitialized))
    else if s.running then s.(control := Idle(ThreadAlreadyRunning))
    else s.(running := true, control := Spawning)
  }

  /** Stop closes the connection and drains the queue even when no thread is running. */
  function StopBody(s: State, after: After): State {
    s.(control := if s.running then ClearingFlag(after) else Closing(after, ThreadNotRunning))
  }

  function CallStep(s: State, call: ApiCall): State {
    match call
    case Initialize => Close(s).(initialized := true, running := false, control := Idle(AllGood))
    case Start => StartBody(s)
    case Stop => StopBody(s, JustStop)
    case Restart => if s.initialized then StopBody(s, ThenStart) else s.(control := Idle(NotInitialized))
    case Destroy =>
      if s.initialized && s.running then StopBody(s, ThenDestroy) else s.(control := Destroying)
  }

  function AfterStop(after: After, ret: HareError): ControlPc {
    match after
    case JustStop => Idle(ret)
    case ThenStart => if NoError(ret) then Starting else Idle(ret)
    case ThenDestroy => Destroying
  }

  predicate ControlEnabled(s: State) {
    match s.control
    case Idle(_) => false
    case ClearingFlag(_) => !MutexHeld(s.worker)
    case Joining(_) => s.worker.Returned?
    case Starting => !MutexHeld(s.worker)
    case Gone => false
    case _ => true
  }

  function ControlStep(s: State): State {
    match s.control
    case Spawning => s.(worker := LoopTest, control := Idle(AllGood))
    case ClearingFlag(after) => s.(running := false, control := Joining(after))
    case Joining(after) => s.(worker := NoThread, control := Unflagging(after))
    case Unflagging(after) => s.(channelsConnected := false, control := Closing(after, AllGood))
    case Closing(after, ret) => Close(s).(control := Draining(after, ret))
    case Draining(after, ret) =>
      if s.queue.messages == [] then s.(control := AfterStop(after, ret))
      else s.(queue := RemoveFront(s.queue, false))
    case Starting => StartBody(s)
    case Destroying => (if s.initialized then Close(s) else s).(control := Gone)
    case _ => s
  }

  // ---- Steps and runs ----

  datatype Action =
    | Work(outcome: Outcome)
    | BeginSend(id: nat, exchange: string, routingKey: string, message: UserMessage)
    | BeginDeclare(id: nat, exchange: string, kind: string)
    | Continue(id: nat, buffers: Buffers)
    | Call(call: ApiCall)
    | ContinueCall

  ghost predicate Enabled(s: State, a: Action) {
    match a
    case Work(o) => WorkerEnabled(s, o)
    case BeginSend(id, _, _, _) => id !in s.callers
    case BeginDeclare(id, _, _) => id !in s.callers
    case Continue(id, b) => CallerEnabled(s, id, b)
    case Call(call) => CallEnabled(s, call)
    case ContinueCall => ControlEnabled(s)
  }

  function Step(s: State, a: Action): State
    requires Enabled(s, a)
  {
    match a
    case Work(o) => WorkerStep(s, o)
    case BeginSend(id, x, key, m) => s.(callers := s.callers[id := Adding(x, key, m)])
    case BeginDeclare(id, x, kind) => s.(callers := s.callers[id := DeclaringExchange(x, kind)])
    case Continue(id, b) => CallerStep(s, id, b)
    case Call(call) => CallStep(s, call)
    case ContinueCall => ControlStep(s)
  }

  ghost predicate IsPath(states: seq<State>, actions: seq<Action>) {
    && |states| == |actions| + 1
    && forall i {:trigger actions[i]} :: 0 <= i < |actions| ==>
         Enabled(states[i], actions[i]) && states[i + 1] == Step(states[i], actions[i])
  }

  ghost predicate IsRun(states: seq<State>, actions: seq<Action>) {
    IsPath(states, actions) && states[0] == INITIAL
  }

  ghost predicate Reachable(s: State) {
    exists states, actions :: IsRun(states, actions) && states[|actions|] == s
  }
}
