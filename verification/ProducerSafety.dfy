/** What every reachable state of the producer satisfies. */
module ProducerSafety {
  import opened HareErrors
  import opened Connection
  import opened ProducerProtocol

  // ---- Life cycle and connection epochs ----

  predicate Lifecycle(s: State) {
    && (s.running || !s.worker.NoThread? ==> s.initialized)
    && (match s.control
        case Idle(_) =>
          && (s.running <==> !s.worker.NoThread?)
          && (s.running ==> !s.worker.Returned?)
          && (!s.running ==> !s.conn.connected)
        case Spawning => s.running && s.worker.NoThread? && !s.conn.connected
        case ClearingFlag(_) => s.running && !s.worker.NoThread? && !s.worker.Returned?
        case Joining(_) => !s.running && !s.worker.NoThread?
        case Unflagging(_) => !s.running && s.worker.NoThread?
        case Closing(_, _) => !s.running && s.worker.NoThread?
        case _ => !s.running && s.worker.NoThread? && !s.conn.connected)
  }

  /** The worker has seen the connection up, and nobody else can close it. */
  predicate OnConnection(w: WorkerPc) {
    || w.FlagTest? || w.PassConnectedTest? || w.PassRunningTest? || w.Locking? || MutexHeld(w) || w.PassClosing?
    || w.SizeTest? || w.Publishing? || w.Popping? || w.PublishClosing?
  }

  predicate Epochs(s: State) {
    && WellBracketed(s.conn)
    && (s.worker.Connecting? || s.worker.Dropping? ==> !s.conn.connected)
    && (OnConnection(s.worker) ==> s.conn.connected)
    && (!s.conn.connected ==> s.answers == NO_ANSWERS)
  }

  // ---- Exchanges and channels ----

  /** Exchange i in order of creation has channel i + 1, so distinct exchanges have distinct channels
      and the channels are exactly 1..curChannel-1. No stored element is ever marked connected. */
  ghost predicate Allocated(r: Registry) {
    && r.curChannel == |r.order| + 1
    && (forall i, j :: 0 <= i < j < |r.order| ==> r.order[i] != r.order[j])
    && (forall x :: x in r.exchanges <==> x in r.order)
    && (forall i :: 0 <= i < |r.order| ==> r.exchanges[r.order[i]].channel == i + 1)
    && (forall x :: x in r.exchanges ==> !r.exchanges[x].connected && 1 <= r.exchanges[x].channel < r.curChannel)
  }

  /** No exchange is forgotten and none changes its channel. */
  ghost predicate Extends(r: Registry, r': Registry) {
    forall x :: x in r.exchanges ==> x in r'.exchanges && r'.exchanges[x].channel == r.exchanges[x].channel
  }

  predicate Routed(r: Registry, m: RawMessage) {
    m.exchange in r.exchanges && m.channel == r.exchanges[m.exchange].channel
  }

  predicate AllRouted(r: Registry, messages: seq<RawMessage>) {
    forall i :: 0 <= i < |messages| ==> Routed(r, messages[i])
  }

  ghost predicate Routing(s: State) {
    && Allocated(s.registry)
    && AllRouted(s.registry, s.queue.messages)
    && (forall id :: id in s.callers && s.callers[id].Enqueuing? ==> s.callers[id].exchange in s.registry.exchanges)
  }

  // ---- The send queue ----

  /** `m` is the i-th message queued, unchanged but for its timestamp: the user's if set, else that
      of its first publish attempt, else none. */
  predicate IsMessage(enqueued: seq<RawMessage>, firstTry: map<nat, int>, i: nat, m: RawMessage)
    requires i < |enqueued|
  {
    && m == enqueued[i].(timestamp := m.timestamp)
    && m.timestamp == if enqueued[i].timestamp.Some? then enqueued[i].timestamp
                      else if i in firstTry then Some(firstTry[i]) else None
  }

  /** Nothing is lost, duplicated or reordered: what left the queue, then the queue, is what entered
      it. */
  ghost predicate Conserved(q: SendQueue) {
    && |q.enqueued| == |q.handled| + |q.messages|
    && (forall i :: 0 <= i < |q.handled| ==> IsMessage(q.enqueued, q.firstTry, i, q.handled[i].message))
    && (forall i :: 0 <= i < |q.messages| ==> IsMessage(q.enqueued, q.firstTry, |q.handled| + i, q.messages[i]))
    && (forall i :: i in q.firstTry ==> i <= |q.handled| && i < |q.enqueued|)
    && (forall i :: 0 <= i < |q.handled| && q.handled[i].published ==> i in q.firstTry)
  }

  /** The published ones among the handled. */
  function Published(handled: seq<Handled>): seq<RawMessage> {
    if handled == [] then []
    else
      var last := handled[|handled| - 1];
      Published(handled[..|handled| - 1]) + (if last.published then [last.message] else [])
  }

  /** The broker took the published messages, in queue order, and the one about to be popped. */
  predicate AcceptedInOrder(q: SendQueue, popping: bool) {
    if popping
    then |q.messages| > 0 && |q.handled| in q.firstTry && q.accepted == Published(q.handled) + [q.messages[0]]
    else q.accepted == Published(q.handled)
  }

  /** The front under the worker's unlocked hands is the message it means. */
  predicate HeadStable(s: State) {
    && !s.worker.Faulted?
    && (s.worker.Publishing? ==> s.queue.messages != [])
    && (s.worker.Popping? ==> s.queue.messages != [] && s.queue.messages[0] == s.worker.sent)
    && AcceptedInOrder(s.queue, s.worker.Popping?)
  }

  // ---- Buffers ----

  function Owned(messages: seq<RawMessage>): set<nat> {
    if messages == [] then {} else BuffersOf(messages[0]) + Owned(messages[1..])
  }

  predicate ThreeBuffers(m: RawMessage) {
    && m.buffers.exchange != m.buffers.routingKey && m.buffers.exchange != m.buffers.message
    && m.buffers.routingKey != m.buffers.message
  }

  predicate Disjoint(messages: seq<RawMessage>) {
    messages == [] ||
    (ThreeBuffers(messages[0]) && BuffersOf(messages[0]) !! Owned(messages[1..]) && Disjoint(messages[1..]))
  }

  /** The live buffers are exactly the three of each queued message, all different, and no free ever
      hit anything else. */
  predicate BuffersOwned(q: SendQueue) {
    q.heap.live == Owned(q.messages) && Disjoint(q.messages) && q.heap.badFrees == 0
  }

  // ---- The channelsConnected flag ----

  predicate InPass(w: WorkerPc) {
    w.PassConnectedTest? || w.PassRunningTest? || w.Locking? || MutexHeld(w)
  }

  /** The exchanges the pass in hand has still to open. */
  function Remaining(w: WorkerPc): seq<string> {
    match w
    case NextExchange(rest, _) => rest
    case Opening(x, rest, _) => [x] + rest
    case Declaring(_, rest, _) => rest
    case _ => []
  }

  predicate AllGoodSoFar(w: WorkerPc) {
    match w
    case NextExchange(_, good) => good
    case Opening(_, _, good) => good
    case Declaring(_, _, good) => good
    case _ => false
  }

  ghost predicate OpenBut(r: Registry, remaining: seq<string>, everOpen: set<int>) {
    forall x :: x in r.exchanges && x !in remaining ==> r.exchanges[x].channel in everOpen
  }

  /** Every exchange in the list has had its channel opened on this connection. */
  ghost predicate AllOpened(s: State) {
    forall x :: x in s.registry.exchanges ==> s.registry.exchanges[x].channel in s.answers.everOpen
  }

  /** And it is open still. */
  ghost predicate AllOpen(s: State) {
    forall x :: x in s.registry.exchanges ==> s.registry.exchanges[x].channel in s.answers.open
  }

  ghost predicate FlagSound(s: State) {
    && (InPass(s.worker) ==> !s.channelsConnected)
    && (AllGoodSoFar(s.worker) ==> OpenBut(s.registry, Remaining(s.worker), s.answers.everOpen))
    && s.flagEpoch <= s.conn.established
    && (s.channelsConnected && s.conn.connected ==>
          if s.flagEpoch == s.conn.established then AllOpened(s) else s.answers.everOpen == {})
  }

  // ---- The pass in hand and its declares ----

  /** The exchanges the pass in hand has still to declare. */
  function ToDeclare(w: WorkerPc): seq<string> {
    if w.Declaring? then [w.exchange] + w.rest else Remaining(w)
  }

  predicate Marked(r: Registry, exchange: string) {
    exchange in r.exchanges && r.exchanges[exchange].isDeclare
  }

  /** The last declare of the exchange was answered with a channel exception. */
  predicate ClosedByDeclare(a: Answers, exchange: string) {
    exchange in a.refused && a.refused[exchange] == ChannelException
  }

  predicate Declared(r: Registry, a: Answers, exchange: string) {
    exchange in a.accepted && a.accepted[exchange] == TypeOf(r, exchange)
  }

  /** What the flag's pass leaves of an exchange it has walked: if it is marked, its declare was
      answered, and its channel is open unless by that answer it was closed. */
  predicate Settled(r: Registry, a: Answers, x: string) {
    x in r.exchanges ==>
      && (Marked(r, x) ==> Declared(r, a, x) || x in a.refused)
      && (r.exchanges[x].channel in a.open <==> !ClosedByDeclare(a, x))
  }

  ghost predicate SettledBut(r: Registry, todo: seq<string>, a: Answers) {
    forall x :: x !in todo ==> Settled(r, a, x)
  }

  /** Every exchange to be declared has been, with its present type, and the broker last said so. */
  ghost predicate AllDeclared(s: State) {
    forall x :: Marked(s.registry, x) ==> Declared(s.registry, s.answers, x)
  }

  ghost predicate AnswersSound(s: State) {
    && s.answers.open <= s.answers.everOpen
    && (forall x :: x in s.answers.refused ==> Marked(s.registry, x) && x !in s.answers.accepted)
    && (s.worker.Declaring? ==> ChannelFor(s.registry, s.worker.exchange) in s.answers.open)
    && (AllGoodSoFar(s.worker) ==> SettledBut(s.registry, ToDeclare(s.worker), s.answers))
    && (s.channelsConnected && s.conn.connected && s.flagEpoch == s.conn.established ==>
          SettledBut(s.registry, [], s.answers))
  }

  /** The pass walks the exchange list, which nobody changes meanwhile. */
  ghost predicate WalksList(s: State) {
    && (forall x :: x in Remaining(s.worker) ==> x in s.registry.exchanges)
    && (s.worker.Declaring? ==> Marked(s.registry, s.worker.exchange))
  }

  // ---- What goes to the broker ----

  /** Channels are opened, and exchanges declared, only as the list has them. */
  predicate AsListed(r: Registry, call: BrokerCall) {
    match call
    case OpenCall(c) => 1 <= c < r.curChannel
    case DeclareExchangeCall(c, x, _) => Marked(r, x) && r.exchanges[x].channel == c
    case _ => false
  }

  /** A declare directly follows the accepted open of its channel. */
  predicate DeclaredOnceOpen(calls: seq<Sent>, n: nat)
    requires n < |calls|
  {
    calls[n].call.DeclareExchangeCall? ==> n > 0 && calls[n - 1] == Sent(OpenCall(calls[n].call.channel), AllGood)
  }

  ghost predicate WireSound(s: State) {
    && (forall n :: 0 <= n < |s.answers.calls| ==>
          AsListed(s.registry, s.answers.calls[n].call) && DeclaredOnceOpen(s.answers.calls, n))
    && (s.worker.Declaring? ==>
          s.answers.calls != []
          && s.answers.calls[|s.answers.calls| - 1] == Sent(OpenCall(ChannelFor(s.registry, s.worker.exchange)), AllGood))
  }

  ghost predicate Inv(s: State) {
    && Lifecycle(s) && Epochs(s) && Routing(s) && Conserved(s.queue) && HeadStable(s)
    && BuffersOwned(s.queue) && FlagSound(s) && WalksList(s) && AnswersSound(s) && WireSound(s)
  }

  // ---- The worker's step by phase ----

  predicate Simple(w: WorkerPc) {
    !MutexHeld(w) && !w.Publishing? && !w.Popping? && !w.Dropping?
  }

  lemma WorkerPhases(s: State, o: Outcome)
    ensures MutexHeld(s.worker) ==> WorkerStep(s, o) == PassStep(s, o.err)
    ensures s.worker.Publishing? ==> WorkerStep(s, o) == PublishStep(s, o)
    ensures s.worker.Popping? || s.worker.Dropping? ==> WorkerStep(s, o) == RemoveStep(s)
    ensures Simple(s.worker) ==>
              var s' := WorkerStep(s, o);
              && s' == s.(worker := s'.worker, conn := s'.conn, answers := s'.answers)
              && (s.worker.PassClosing? || s.worker.PublishClosing? ==>
                    && s'.conn == OnClose(s.conn) && s'.answers == NO_ANSWERS
                    && s'.worker == Dropping(s.worker.PassClosing?))
              && (s.worker.Connecting? ==> s'.conn == OnConnect(s.conn, o.err) && s'.answers == s.answers
                                           && s'.worker == if NoError(o.err) then FlagTest else LoopTest)
              && (!s.worker.PassClosing? && !s.worker.PublishClosing? && !s.worker.Connecting? ==>
                    s' == s.(worker := TestPc(s, o.walk)))
  {
    hide PassStep, PublishStep, RemoveStep, TestPc, OnConnect, OnClose;
  }

  /** What the worker never touches. */
  lemma WorkerFrame(s: State, o: Outcome)
    ensures var s' := WorkerStep(s, o);
            && s'.registry == s.registry && s'.callers == s.callers && s'.control == s.control
            && s'.running == s.running && s'.initialized == s.initialized
  {
    hide WorkerStep, OnConnect, OnClose, PassPc, TestPc, TryFront, RemoveFront;
    WorkerPhases(s, o);
  }

  // ---- Life cycle and epochs ----

  lemma WorkerKeepsLifecycle(s: State, o: Outcome)
    requires Lifecycle(s) && Epochs(s) && WorkerEnabled(s, o)
    ensures Lifecycle(WorkerStep(s, o))
  {
    hide PassPc, TryFront, RemoveFront;
    PassPcFrame(s, o.err);
  }

  lemma PassPcFrame(s: State, err: HareError)
    ensures MutexHeld(s.worker) ==> var w := PassPc(s, err); MutexHeld(w) || w.PassClosing? || w.PublishTest?
  {
  }

  lemma SimpleKeepsEpochs(s: State, o: Outcome)
    requires Epochs(s) && WorkerEnabled(s, o) && Simple(s.worker)
    ensures Epochs(WorkerStep(s, o))
  {
    hide WorkerStep;
    WorkerPhases(s, o);
    CloseOnce(s.conn);
  }

  lemma WorkerKeepsEpochs(s: State, o: Outcome)
    requires Epochs(s) && WorkerEnabled(s, o)
    ensures Epochs(WorkerStep(s, o))
  {
    hide WorkerStep, PassPc, TryFront, RemoveFront, WellBracketed;
    WorkerPhases(s, o);
    PassPcFrame(s, o.err);
    if Simple(s.worker) {
      SimpleKeepsEpochs(s, o);
    }
  }

  /** What Send and DeclareExchange never touch. */
  lemma CallerFrame(s: State, id: nat, b: Buffers)
    requires id in s.callers
    ensures var s' := CallerStep(s, id, b);
            && s' == s.(registry := s'.registry, channelsConnected := s'.channelsConnected, queue := s'.queue,
                        callers := s'.callers)
            && (s'.registry != s.registry ==> !s'.channelsConnected)
            && (s'.channelsConnected ==> s.channelsConnected)
  {
    hide AddDeclaredExchange, Enqueue, BuiltMessage;
  }

  lemma CallersKeepLifecycle(s: State, id: nat, b: Buffers)
    requires Lifecycle(s) && Epochs(s) && CallerEnabled(s, id, b)
    ensures Lifecycle(CallerStep(s, id, b)) && Epochs(CallerStep(s, id, b))
  {
    hide CallerStep;
    CallerFrame(s, id, b);
  }

  lemma ControlKeepsLifecycle(s: State, a: Action)
    requires Lifecycle(s) && Enabled(s, a) && !a.Work? && !a.Continue?
    ensures Lifecycle(Step(s, a))
  {
    hide RemoveFront;
  }

  /** All the controlling thread may do: it closes the connection only while no worker exists, and
      takes messages only from the front of the queue. */
  ghost predicate ControlOnly(s: State, s': State, draining: bool) {
    && s'.registry == s.registry && s'.flagEpoch == s.flagEpoch
    && (s'.channelsConnected ==> s.channelsConnected)
    && ((s'.conn == s.conn && s'.answers == s.answers)
        || (s'.conn == OnClose(s.conn) && s'.answers == NO_ANSWERS && s.worker.NoThread?))
    && (s'.worker == s.worker
        || (s.worker.Returned? && s'.worker.NoThread?) || (s.worker.NoThread? && s'.worker.LoopTest?))
    && (s'.queue == s.queue
        || (draining && s.queue.messages != [] && s'.queue == RemoveFront(s.queue, false) && s.worker.NoThread?))
  }

  lemma ApiFrame(s: State, call: ApiCall)
    requires Lifecycle(s) && CallEnabled(s, call)
    ensures ControlOnly(s, CallStep(s, call), false)
  {
    hide OnClose;
  }

  lemma ContinueFrame(s: State)
    requires Lifecycle(s) && ControlEnabled(s)
    ensures ControlOnly(s, ControlStep(s), s.control.Draining?)
  {
    hide OnClose, RemoveFront;
  }

  lemma ControlFrame(s: State, a: Action)
    requires Lifecycle(s) && Enabled(s, a) && !a.Work? && !a.Continue?
    ensures ControlOnly(s, Step(s, a), a.ContinueCall? && s.control.Draining?)
  {
    hide OnClose, RemoveFront, CallStep, ControlStep;
    match a
    case Call(call) => ApiFrame(s, call);
    case ContinueCall => ContinueFrame(s);
    case _ =>
  }

  lemma ControlKeepsEpochs(s: State, a: Action)
    requires Lifecycle(s) && Epochs(s) && Enabled(s, a) && !a.Work? && !a.Continue?
    ensures Epochs(Step(s, a))
  {
    hide Step, RemoveFront;
    CloseOnce(s.conn);
    ControlFrame(s, a);
  }

  // ---- Channels and routing ----

  /** A new exchange takes the next channel. */
  lemma NewAllocates(r: Registry, x: string, p: ExchangeProperties)
    requires Allocated(r) && x !in r.exchanges && p.channel == r.curChannel && !p.connected
    ensures var r' := Registry(r.exchanges[x := p], r.curChannel + 1, r.order + [x]);
            Allocated(r') && Extends(r, r') && x in r'.exchanges && ChannelFor(r', x) >= 1
  {
  }

  /** A known one keeps it. */
  lemma KnownStaysAllocated(r: Registry, x: string, p: ExchangeProperties)
    requires Allocated(r) && x in r.exchanges && p.channel == r.exchanges[x].channel && !p.connected
    ensures var r' := r.(exchanges := r.exchanges[x := p]);
            Allocated(r') && Extends(r, r') && x in r'.exchanges && ChannelFor(r', x) >= 1
  {
  }

  lemma AddAllocates(r: Registry, x: string)
    requires Allocated(r)
    ensures var r' := AddExchange(r, x); Allocated(r') && Extends(r, r') && x in r'.exchanges && ChannelFor(r', x) >= 1
  {
    if x !in r.exchanges {
      NewAllocates(r, x, ExchangeProperties(r.curChannel, false, false, "direct"));
    }
  }

  lemma AddDeclaredAllocates(r: Registry, x: string, kind: string)
    requires Allocated(r)
    ensures var r' := AddDeclaredExchange(r, x, kind);
            Allocated(r') && Extends(r, r') && x in r'.exchanges && ChannelFor(r', x) >= 1
  {
    if x in r.exchanges {
      assert !r.exchanges[x].connected;
      hide Allocated, Extends;
      KnownStaysAllocated(r, x, r.exchanges[x].(isDeclare := true, kind := kind));
    } else {
      hide Allocated, Extends;
      NewAllocates(r, x, ExchangeProperties(r.curChannel, false, true, kind));
    }
  }

  lemma WorkerQueue(s: State, o: Outcome)
    ensures var q, q' := s.queue, WorkerStep(s, o).queue;
            || q' == q
            || (s.worker.Publishing? && q.messages != [] && s.conn.connected && q' == TryFront(q, o.now, NoError(o.err)))
            || (s.worker.Popping? && q.messages != [] && q' == RemoveFront(q, true))
            || (s.worker.Dropping? && q.messages != [] && q' == RemoveFront(q, false))
  {
    hide WorkerStep, OnConnect, OnClose, PassPc, TestPc, TryFront, RemoveFront;
    WorkerPhases(s, o);
  }

  lemma WorkerKeepsRouting(s: State, o: Outcome)
    requires Routing(s)
    ensures Routing(WorkerStep(s, o))
  {
    hide WorkerStep, Allocated;
    WorkerFrame(s, o);
    WorkerQueue(s, o);
    var q, q' := s.queue, WorkerStep(s, o).queue;
    if q' != q && s.worker.Publishing? {
      assert Routed(s.registry, q.messages[0]);
    }
  }

  lemma CallersKeepRouting(s: State, id: nat, b: Buffers)
    requires Routing(s) && CallerEnabled(s, id, b)
    ensures Routing(CallerStep(s, id, b)) && Extends(s.registry, CallerStep(s, id, b).registry)
  {
    hide AddExchange, AddDeclaredExchange, Allocated;
    match s.callers[id] {
      case Adding(x, _, _) => AddAllocates(s.registry, x);
      case DeclaringExchange(x, kind) => AddDeclaredAllocates(s.registry, x, kind);
      case Enqueuing(x, key, m) =>
    }
  }

  lemma RoutingKept(s: State, a: Action)
    requires Routing(s) && Lifecycle(s) && Enabled(s, a)
    ensures Routing(Step(s, a)) && Extends(s.registry, Step(s, a).registry)
  {
    hide WorkerStep, CallerStep, CallStep, ControlStep, Allocated;
    match a
    case Work(o) =>
      WorkerKeepsRouting(s, o);
      WorkerFrame(s, o);
    case Continue(id, b) => CallersKeepRouting(s, id, b);
    case _ =>
      ControlFrame(s, a);
      ControlKeepsCallers(s, a);
  }

  lemma ControlKeepsCallers(s: State, a: Action)
    requires Enabled(s, a) && !a.Work? && !a.Continue?
    ensures forall id :: id in Step(s, a).callers && Step(s, a).callers[id].Enqueuing? ==>
              id in s.callers && s.callers[id] == Step(s, a).callers[id]
  {
    hide RemoveFront, OnClose;
  }

  // ---- The send queue ----

  lemma EnqueueConserves(q: SendQueue, m: RawMessage)
    requires Conserved(q)
    ensures Conserved(Enqueue(q, m))
  {
  }

  lemma RemoveConserves(q: SendQueue, published: bool)
    requires Conserved(q) && q.messages != []
    requires published ==> |q.handled| in q.firstTry
    ensures Conserved(RemoveFront(q, published))
  {
    hide FreeMessage;
  }

  lemma TryConserves(q: SendQueue, now: int, taken: bool)
    requires Conserved(q) && q.messages != []
    ensures Conserved(TryFront(q, now, taken))
  {
  }

  lemma PublishedOneMore(handled: seq<Handled>, h: Handled)
    ensures Published(handled + [h]) == Published(handled) + (if h.published then [h.message] else [])
  {
    assert (handled + [h])[..|handled|] == handled;
  }

  lemma RemoveAccepted(q: SendQueue, published: bool)
    requires q.messages != [] && AcceptedInOrder(q, published)
    ensures AcceptedInOrder(RemoveFront(q, published), false)
  {
    hide FreeMessage;
    PublishedOneMore(q.handled, Handled(q.messages[0], published));
  }

  lemma WorkerConserves(s: State, o: Outcome)
    requires Conserved(s.queue) && HeadStable(s)
    ensures Conserved(WorkerStep(s, o).queue)
  {
    hide WorkerStep, Conserved, TryFront, RemoveFront;
    WorkerQueue(s, o);
    var q := s.queue;
    if q.messages != [] {
      if s.worker.Publishing? {
        TryConserves(q, o.now, NoError(o.err));
      } else if s.worker.Popping? {
        RemoveConserves(q, true);
      } else if s.worker.Dropping? {
        RemoveConserves(q, false);
      }
    }
  }

  lemma TryAccepted(q: SendQueue, now: int, taken: bool)
    requires q.messages != [] && AcceptedInOrder(q, false)
    ensures AcceptedInOrder(TryFront(q, now, taken), taken)
    ensures TryFront(q, now, taken).messages != [] && TryFront(q, now, taken).messages[0] == Stamped(q.messages[0], now)
  {
  }

  lemma WorkerKeepsHead(s: State, o: Outcome)
    requires HeadStable(s) && Epochs(s) && WorkerEnabled(s, o)
    ensures HeadStable(WorkerStep(s, o))
  {
    hide WorkerStep, PassPc, OnConnect, OnClose, RemoveFront, TryFront, AcceptedInOrder, Stamped;
    WorkerPhases(s, o);
    PassPcFrame(s, o.err);
    if s.queue.messages != [] {
      if s.worker.Popping? {
        RemoveAccepted(s.queue, true);
      } else {
        RemoveAccepted(s.queue, false);
        TryAccepted(s.queue, o.now, NoError(o.err));
      }
    }
  }

  lemma CallerQueue(s: State, id: nat, b: Buffers)
    requires CallerEnabled(s, id, b)
    ensures var q' := CallerStep(s, id, b).queue;
            if s.callers[id].Enqueuing?
            then var c := s.callers[id];
                 q' == Enqueue(s.queue, BuiltMessage(s.registry, c.exchange, c.routingKey, c.message, b))
            else q' == s.queue
  {
    hide AddExchange, AddDeclaredExchange, Enqueue, BuiltMessage;
  }

  lemma CallersKeepQueue(s: State, id: nat, b: Buffers)
    requires Conserved(s.queue) && HeadStable(s) && CallerEnabled(s, id, b)
    ensures Conserved(CallerStep(s, id, b).queue) && HeadStable(CallerStep(s, id, b))
  {
    CallerQueue(s, id, b);
    CallerFrame(s, id, b);
    hide CallerStep, Conserved;
    if s.callers[id].Enqueuing? {
      var c := s.callers[id];
      EnqueueConserves(s.queue, BuiltMessage(s.registry, c.exchange, c.routingKey, c.message, b));
    }
  }

  lemma ControlKeepsQueue(s: State, a: Action)
    requires Lifecycle(s) && Conserved(s.queue) && HeadStable(s) && Enabled(s, a) && !a.Work? && !a.Continue?
    ensures Conserved(Step(s, a).queue) && HeadStable(Step(s, a))
  {
    hide Step, Conserved, RemoveFront;
    ControlFrame(s, a);
    if s.queue.messages != [] && s.worker.NoThread? {
      RemoveConserves(s.queue, false);
      RemoveAccepted(s.queue, false);
    }
  }

  // ---- Buffers ----

  lemma {:induction false} OwnedAppend(messages: seq<RawMessage>, m: RawMessage)
    requires Disjoint(messages) && ThreeBuffers(m) && BuffersOf(m) !! Owned(messages)
    ensures Owned(messages + [m]) == Owned(messages) + BuffersOf(m) && Disjoint(messages + [m])
  {
    if messages == [] {
      assert [m][1..] == [];
      assert messages + [m] == [m];
    } else {
      assert (messages + [m])[1..] == messages[1..] + [m];
      OwnedAppend(messages[1..], m);
    }
  }

  lemma EnqueueOwns(q: SendQueue, m: RawMessage)
    requires BuffersOwned(q) && FreshBuffers(q.heap, m.buffers)
    ensures BuffersOwned(Enqueue(q, m))
  {
    OwnedAppend(q.messages, m);
  }

  lemma RemoveOwns(q: SendQueue, published: bool)
    requires BuffersOwned(q) && q.messages != []
    ensures BuffersOwned(RemoveFront(q, published))
  {
    var m := q.messages[0];
    assert FreeMessage(q.heap, m) == Heap(q.heap.live - BuffersOf(m), 0);
    assert Owned(q.messages) - BuffersOf(m) == Owned(q.messages[1..]);
  }

  lemma TryOwns(q: SendQueue, now: int, taken: bool)
    requires BuffersOwned(q) && q.messages != []
    ensures BuffersOwned(TryFront(q, now, taken))
  {
    assert TryFront(q, now, taken).messages[1..] == q.messages[1..];
  }

  lemma WorkerOwns(s: State, o: Outcome)
    requires BuffersOwned(s.queue)
    ensures BuffersOwned(WorkerStep(s, o).queue)
  {
    hide WorkerStep, BuffersOwned, TryFront, RemoveFront;
    WorkerQueue(s, o);
    var q := s.queue;
    if q.messages != [] {
      RemoveOwns(q, true);
      RemoveOwns(q, false);
      TryOwns(q, o.now, NoError(o.err));
    }
  }

  lemma OthersOwn(s: State, a: Action)
    requires Lifecycle(s) && BuffersOwned(s.queue) && Enabled(s, a) && !a.Work?
    ensures BuffersOwned(Step(s, a).queue)
  {
    hide CallerStep, CallStep, ControlStep, BuffersOwned, RemoveFront, Enqueue;
    if a.Continue? {
      CallerQueue(s, a.id, a.buffers);
      if s.callers[a.id].Enqueuing? {
        var c := s.callers[a.id];
        EnqueueOwns(s.queue, BuiltMessage(s.registry, c.exchange, c.routingKey, c.message, a.buffers));
      }
    } else {
      ControlFrame(s, a);
      if s.queue.messages != [] {
        RemoveOwns(s.queue, false);
      }
    }
  }

  // ---- The flag ----

  /** What the head of the loop does. */
  lemma HeadFrame(s: State, err: HareError)
    requires s.worker.NextExchange?
    ensures var s', w := PassStep(s, err), PassPc(s, err);
            && s' == s.(worker := w, channelsConnected := s'.channelsConnected, flagEpoch := s'.flagEpoch)
            && (s.worker.rest == [] ==>
                  && w.PublishTest?
                  && (if s.worker.allGood then s'.channelsConnected && s'.flagEpoch == s.conn.established
                      else s'.channelsConnected == s.channelsConnected && s'.flagEpoch == s.flagEpoch))
            && (s.worker.rest != [] ==>
                  && s'.channelsConnected == s.channelsConnected && s'.flagEpoch == s.flagEpoch
                  && (w == Opening(s.worker.rest[0], s.worker.rest[1..], s.worker.allGood)
                      || w == NextExchange(s.worker.rest[1..], s.worker.allGood)))
  {
  }

  lemma HeadKeepsFlag(s: State, err: HareError)
    requires FlagSound(s) && Epochs(s) && Allocated(s.registry) && s.worker.NextExchange?
    ensures FlagSound(PassStep(s, err))
  {
    assert s.conn.connected;
    if s.worker.rest != [] {
      assert s.worker.rest == [s.worker.rest[0]] + s.worker.rest[1..];
      assert PassPc(s, err) == Opening(s.worker.rest[0], s.worker.rest[1..], s.worker.allGood);
    }
    hide PassStep, PassPc, Epochs, Allocated;
    HeadFrame(s, err);
  }

  /** What a call of the pass does. */
  lemma CallFrame(s: State, err: HareError)
    requires s.worker.Opening? || s.worker.Declaring?
    ensures PassStep(s, err) == s.(worker := PassPc(s, err), answers := PassAnswers(s, err))
    ensures var a, a' := s.answers, PassAnswers(s, err);
            && a.everOpen <= a'.everOpen
            && (!s.conn.connected ==> a' == a)
            && (s.worker.Opening? && s.conn.connected && NoError(err) ==>
                  ChannelFor(s.registry, s.worker.exchange) in a'.everOpen)
  {
    hide PassPc, ChannelFor;
  }

  lemma CallGoesOn(s: State, err: HareError)
    requires s.worker.Opening? || s.worker.Declaring?
    ensures var w := PassPc(s, err);
            && (InPass(w) ==> MutexHeld(w))
            && (w.Declaring? ==> s.worker.Opening? && w.exchange == s.worker.exchange && Marked(s.registry, w.exchange))
            && (AllGoodSoFar(w) ==>
                  && AllGoodSoFar(s.worker) && Remaining(w) == s.worker.rest
                  && (s.worker.Opening? ==> s.conn.connected && NoError(err))
                  && (s.worker.Opening? && !w.Declaring? ==> !Marked(s.registry, s.worker.exchange)))
            && (MutexHeld(w) ==> !w.Opening? && Remaining(w) == s.worker.rest)
  {
  }

  lemma CallKeepsFlag(s: State, err: HareError)
    requires FlagSound(s) && (s.worker.Opening? || s.worker.Declaring?)
    ensures FlagSound(PassStep(s, err))
  {
    hide PassStep, PassPc, PassAnswers;
    CallFrame(s, err);
    CallGoesOn(s, err);
  }

  lemma PassKeepsFlag(s: State, err: HareError)
    requires FlagSound(s) && Epochs(s) && Allocated(s.registry) && MutexHeld(s.worker)
    ensures FlagSound(PassStep(s, err))
  {
    hide FlagSound, Epochs, Allocated, PassStep;
    if s.worker.NextExchange? {
      HeadKeepsFlag(s, err);
    } else {
      CallKeepsFlag(s, err);
    }
  }

  lemma SimpleKeepsFlag(s: State, o: Outcome)
    requires FlagSound(s) && Epochs(s) && WorkerEnabled(s, o) && Simple(s.worker)
    ensures FlagSound(WorkerStep(s, o))
  {
    hide WorkerStep;
    WorkerPhases(s, o);
  }

  lemma WorkerKeepsFlag(s: State, o: Outcome)
    requires FlagSound(s) && Epochs(s) && Allocated(s.registry) && WorkerEnabled(s, o)
    ensures FlagSound(WorkerStep(s, o))
  {
    hide WorkerStep, PassStep, TryFront, RemoveFront, Allocated;
    WorkerPhases(s, o);
    if MutexHeld(s.worker) {
      PassKeepsFlag(s, o.err);
    } else if Simple(s.worker) {
      SimpleKeepsFlag(s, o);
    }
  }

  lemma OthersKeepFlag(s: State, a: Action)
    requires FlagSound(s) && Lifecycle(s) && Epochs(s) && Enabled(s, a) && !a.Work?
    ensures FlagSound(Step(s, a))
  {
    hide CallerStep, CallStep, ControlStep;
    if a.Continue? {
      CallerFrame(s, a.id, a.buffers);
    } else {
      ControlFrame(s, a);
    }
  }

  // ---- The pass and its declares ----

  lemma WorkerWalksList(s: State, o: Outcome)
    requires WalksList(s) && WorkerEnabled(s, o)
    ensures WalksList(WorkerStep(s, o))
  {
    hide WorkerStep, PassStep, PassPc, TryFront, RemoveFront;
    WorkerPhases(s, o);
    if s.worker.NextExchange? {
      HeadFrame(s, o.err);
      if s.worker.rest != [] {
        assert s.worker.rest == [s.worker.rest[0]] + s.worker.rest[1..];
      }
    } else if MutexHeld(s.worker) {
      CallFrame(s, o.err);
      CallGoesOn(s, o.err);
    }
  }

  lemma OthersWalkList(s: State, a: Action)
    requires WalksList(s) && Lifecycle(s) && Enabled(s, a) && !a.Work?
    ensures WalksList(Step(s, a))
  {
    hide CallerStep, CallStep, ControlStep;
    if a.Continue? {
      CallerFrame(s, a.id, a.buffers);
    } else {
      ControlFrame(s, a);
    }
  }

  lemma HeadKeepsAnswers(s: State, err: HareError)
    requires AnswersSound(s) && s.worker.NextExchange? && !s.channelsConnected
    requires forall x :: x in s.registry.exchanges ==> !s.registry.exchanges[x].connected
    ensures AnswersSound(PassStep(s, err))
  {
    if s.worker.rest != [] {
      assert PassPc(s, err) == Opening(s.worker.rest[0], s.worker.rest[1..], s.worker.allGood);
      assert s.worker.rest == [s.worker.rest[0]] + s.worker.rest[1..];
    }
    hide PassStep, PassPc, Settled;
    HeadFrame(s, err);
  }

  /** An answered open settles an exchange that is not marked, and no call unsettles another. */
  lemma OpenSettles(r: Registry, a: Answers, y: string, err: HareError, x: string)
    requires Allocated(r) && y in r.exchanges && NoError(err)
    ensures var a' := OnOpen(a, ChannelFor(r, y), err);
            && (x != y && Settled(r, a, x) ==> Settled(r, a', x))
            && (!Marked(r, y) && y !in a.refused ==> Settled(r, a', y))
  {
    if x in r.exchanges && x != y {
      DistinctChannels(r, x, y);
    }
  }

  lemma DeclareSettles(r: Registry, a: Answers, y: string, err: HareError, x: string)
    requires Allocated(r) && y in r.exchanges && ChannelFor(r, y) in a.open
    ensures var a' := OnDeclare(a, ChannelFor(r, y), y, TypeOf(r, y), err);
            (x == y || Settled(r, a, x)) ==> Settled(r, a', x)
  {
    if x in r.exchanges && x != y {
      DistinctChannels(r, x, y);
    }
  }

  lemma DistinctChannels(r: Registry, x: string, y: string)
    requires Allocated(r) && x in r.exchanges && y in r.exchanges && x != y
    ensures r.exchanges[x].channel != r.exchanges[y].channel
  {
    var i :| 0 <= i < |r.order| && r.order[i] == x;
    var j :| 0 <= j < |r.order| && r.order[j] == y;
  }

  lemma OpeningKeepsAnswers(s: State, err: HareError)
    requires AnswersSound(s) && WalksList(s) && Allocated(s.registry) && s.worker.Opening?
    requires s.conn.connected && !s.channelsConnected
    ensures AnswersSound(PassStep(s, err))
  {
    var y := s.worker.exchange;
    assert y in Remaining(s.worker);
    assert PassAnswers(s, err) == OnOpen(s.answers, ChannelFor(s.registry, y), err);
    CallFrame(s, err);
    CallGoesOn(s, err);
    hide PassStep, PassPc, PassAnswers, Settled, Allocated;
    if NoError(err) && s.worker.allGood {
      forall x | x !in ToDeclare(PassPc(s, err)) ensures Settled(s.registry, OnOpen(s.answers, ChannelFor(s.registry, y), err), x) {
        OpenSettles(s.registry, s.answers, y, err, x);
      }
    }
  }

  lemma DeclaringKeepsAnswers(s: State, err: HareError)
    requires AnswersSound(s) && WalksList(s) && Allocated(s.registry) && s.worker.Declaring?
    requires s.conn.connected && !s.channelsConnected
    ensures AnswersSound(PassStep(s, err))
  {
    var y, r, a := s.worker.exchange, s.registry, s.answers;
    assert PassAnswers(s, err) == OnDeclare(a, ChannelFor(r, y), y, TypeOf(r, y), err);
    CallFrame(s, err);
    CallGoesOn(s, err);
    hide PassStep, PassPc, PassAnswers, Settled, Allocated;
    if s.worker.allGood {
      forall x | x !in s.worker.rest ensures Settled(r, OnDeclare(a, ChannelFor(r, y), y, TypeOf(r, y), err), x) {
        DeclareSettles(r, a, y, err, x);
      }
    }
  }

  /** A pass whose opens have all been accepted sets the flag with every declare answered. */
  lemma PassKeepsAnswers(s: State, err: HareError)
    requires AnswersSound(s) && FlagSound(s) && WalksList(s) && Epochs(s) && Allocated(s.registry) && MutexHeld(s.worker)
    ensures AnswersSound(PassStep(s, err))
  {
    assert s.conn.connected && !s.channelsConnected;
    assert forall x :: x in s.registry.exchanges ==> !s.registry.exchanges[x].connected;
    hide AnswersSound, FlagSound, WalksList, Epochs, Allocated, PassStep;
    if s.worker.NextExchange? {
      HeadKeepsAnswers(s, err);
    } else if s.worker.Opening? {
      OpeningKeepsAnswers(s, err);
    } else {
      DeclaringKeepsAnswers(s, err);
    }
  }

  lemma SimpleKeepsAnswers(s: State, o: Outcome)
    requires AnswersSound(s) && FlagSound(s) && Epochs(s) && WorkerEnabled(s, o) && Simple(s.worker)
    ensures AnswersSound(WorkerStep(s, o))
  {
    hide WorkerStep, WellBracketed, AllOpened, OpenBut, Declared, Marked, ClosedByDeclare;
    WorkerPhases(s, o);
  }

  lemma QueueStepFrame(s: State, o: Outcome)
    requires s.worker.Publishing? || s.worker.Popping? || s.worker.Dropping?
    ensures var s' := WorkerStep(s, o);
            s' == s.(queue := s'.queue, worker := s'.worker) && !MutexHeld(s'.worker)
  {
    hide TryFront, RemoveFront, Stamped;
  }

  lemma QueueStepKeepsAnswers(s: State, o: Outcome)
    requires AnswersSound(s) && (s.worker.Publishing? || s.worker.Popping? || s.worker.Dropping?)
    ensures AnswersSound(WorkerStep(s, o))
  {
    hide WorkerStep, Settled;
    QueueStepFrame(s, o);
  }

  lemma WorkerKeepsAnswers(s: State, o: Outcome)
    requires AnswersSound(s) && FlagSound(s) && WalksList(s) && Epochs(s) && Allocated(s.registry) && WorkerEnabled(s, o)
    ensures AnswersSound(WorkerStep(s, o))
  {
    WorkerPhases(s, o);
    hide WorkerStep, PassStep, PublishStep, RemoveStep, Allocated, Epochs, FlagSound, AnswersSound, WalksList;
    if MutexHeld(s.worker) {
      PassKeepsAnswers(s, o.err);
    } else if Simple(s.worker) {
      SimpleKeepsAnswers(s, o);
    } else {
      QueueStepKeepsAnswers(s, o);
    }
  }

  lemma MarksStay(r: Registry, x: string, kind: string)
    ensures forall y :: Marked(r, y) ==> Marked(AddExchange(r, x), y) && Marked(AddDeclaredExchange(r, x, kind), y)
  {
  }

  lemma OthersKeepAnswers(s: State, a: Action)
    requires AnswersSound(s) && FlagSound(s) && Lifecycle(s) && Epochs(s) && Enabled(s, a) && !a.Work?
    ensures AnswersSound(Step(s, a))
  {
    hide CallStep, ControlStep;
    if a.Continue? {
      CallerFrame(s, a.id, a.buffers);
      match s.callers[a.id] {
        case Adding(x, _, _) => MarksStay(s.registry, x, "");
        case DeclaringExchange(x, kind) => MarksStay(s.registry, x, kind);
        case _ =>
      }
    } else {
      ControlFrame(s, a);
    }
  }

  // ---- What goes to the broker ----

  lemma OneMoreCall(r: Registry, calls: seq<Sent>, e: Sent)
    requires forall n :: 0 <= n < |calls| ==> AsListed(r, calls[n].call) && DeclaredOnceOpen(calls, n)
    requires AsListed(r, e.call)
    requires e.call.DeclareExchangeCall? ==>
               calls != [] && calls[|calls| - 1] == Sent(OpenCall(e.call.channel), AllGood)
    ensures var calls' := calls + [e];
            forall n :: 0 <= n < |calls'| ==> AsListed(r, calls'[n].call) && DeclaredOnceOpen(calls', n)
  {
    var calls' := calls + [e];
    forall n | 0 <= n < |calls'| ensures AsListed(r, calls'[n].call) && DeclaredOnceOpen(calls', n) {
      if n < |calls| {
        assert calls'[n] == calls[n] && DeclaredOnceOpen(calls, n);
      }
    }
  }

  /** The call a pass makes for its exchange. */
  function PassCall(s: State): BrokerCall
    requires s.worker.Opening? || s.worker.Declaring?
  {
    var c := ChannelFor(s.registry, s.worker.exchange);
    if s.worker.Opening? then OpenCall(c)
    else DeclareExchangeCall(c, s.worker.exchange, TypeOf(s.registry, s.worker.exchange))
  }

  lemma CallIsSent(s: State, err: HareError)
    requires s.worker.Opening? || s.worker.Declaring?
    ensures PassAnswers(s, err).calls ==
            if s.conn.connected then s.answers.calls + [Sent(PassCall(s), err)] else s.answers.calls
    ensures PassPc(s, err).Declaring? ==> s.worker.Opening? && s.conn.connected && NoError(err)
  {
  }

  lemma PassKeepsWire(s: State, err: HareError)
    requires WireSound(s) && WalksList(s) && Allocated(s.registry) && (s.worker.Opening? || s.worker.Declaring?)
    ensures WireSound(PassStep(s, err))
  {
    var x := s.worker.exchange;
    assert s.worker.Opening? ==> x in Remaining(s.worker);
    assert AsListed(s.registry, PassCall(s));
    CallFrame(s, err);
    CallGoesOn(s, err);
    CallIsSent(s, err);
    OneMoreCall(s.registry, s.answers.calls, Sent(PassCall(s), err));
    hide PassStep, PassPc, PassAnswers, AsListed, DeclaredOnceOpen, Allocated;
  }

  lemma WorkerKeepsWire(s: State, o: Outcome)
    requires WireSound(s) && WalksList(s) && Allocated(s.registry) && WorkerEnabled(s, o)
    ensures WireSound(WorkerStep(s, o))
  {
    WorkerPhases(s, o);
    hide WorkerStep, Allocated, AsListed, DeclaredOnceOpen;
    if s.worker.Opening? || s.worker.Declaring? {
      PassKeepsWire(s, o.err);
      hide WireSound;
    } else if s.worker.NextExchange? {
      HeadFrame(s, o.err);
      hide PassStep, PassPc;
    } else if Simple(s.worker) {
      hide PassStep, PublishStep, RemoveStep;
    } else {
      QueueStepFrame(s, o);
      hide PassStep, PublishStep, RemoveStep;
    }
  }

  lemma ListGrows(r: Registry, r': Registry, call: BrokerCall)
    requires AsListed(r, call) && Extends(r, r') && r.curChannel <= r'.curChannel
    requires forall y :: Marked(r, y) ==> Marked(r', y)
    ensures AsListed(r', call)
  {
  }

  lemma AddGrows(r: Registry, x: string, kind: string)
    requires Allocated(r)
    ensures Extends(r, AddExchange(r, x)) && r.curChannel <= AddExchange(r, x).curChannel
    ensures Extends(r, AddDeclaredExchange(r, x, kind)) && r.curChannel <= AddDeclaredExchange(r, x, kind).curChannel
    ensures forall y :: Marked(r, y) ==> Marked(AddExchange(r, x), y) && Marked(AddDeclaredExchange(r, x, kind), y)
  {
    AddAllocates(r, x);
    AddDeclaredAllocates(r, x, kind);
    MarksStay(r, x, kind);
    hide Allocated;
  }

  lemma OthersKeepWire(s: State, a: Action)
    requires WireSound(s) && Lifecycle(s) && Allocated(s.registry) && Enabled(s, a) && !a.Work?
    ensures WireSound(Step(s, a))
  {
    hide CallStep, ControlStep, AddExchange, AddDeclaredExchange, Allocated, AsListed, DeclaredOnceOpen;
    if a.Continue? {
      var r := s.registry;
      var r' := CallerStep(s, a.id, a.buffers).registry;
      CallerFrame(s, a.id, a.buffers);
      match s.callers[a.id] {
        case Adding(x, _, _) => AddGrows(r, x, "");
        case DeclaringExchange(x, kind) => AddGrows(r, x, kind);
        case _ =>
      }
      forall n | 0 <= n < |s.answers.calls| ensures AsListed(r', s.answers.calls[n].call) {
        if r' != r {
          ListGrows(r, r', s.answers.calls[n].call);
        }
      }
    } else {
      ControlFrame(s, a);
    }
  }

  // ---- All of it ----

  lemma InvKept(s: State, a: Action)
    requires Inv(s) && Enabled(s, a)
    ensures Inv(Step(s, a)) && Extends(s.registry, Step(s, a).registry)
  {
    RoutingKept(s, a);
    assert Allocated(s.registry);
    hide WorkerStep, CallerStep, CallStep, ControlStep;
    hide Lifecycle, Epochs, Routing, Conserved, HeadStable, BuffersOwned, FlagSound, WalksList, AnswersSound, WireSound, Extends;
    match a
    case Work(o) =>
      WorkerKeepsLifecycle(s, o);
      WorkerKeepsEpochs(s, o);
      WorkerConserves(s, o);
      WorkerKeepsHead(s, o);
      WorkerOwns(s, o);
      WorkerKeepsFlag(s, o);
      WorkerWalksList(s, o);
      WorkerKeepsAnswers(s, o);
      WorkerKeepsWire(s, o);
    case Continue(id, b) =>
      CallersKeepLifecycle(s, id, b);
      CallersKeepQueue(s, id, b);
      OthersOwn(s, a);
      OthersKeepFlag(s, a);
      OthersWalkList(s, a);
      OthersKeepAnswers(s, a);
      OthersKeepWire(s, a);
    case _ =>
      ControlKeepsLifecycle(s, a);
      ControlKeepsEpochs(s, a);
      ControlKeepsQueue(s, a);
      OthersOwn(s, a);
      OthersKeepFlag(s, a);
      OthersWalkList(s, a);
      OthersKeepAnswers(s, a);
      OthersKeepWire(s, a);
  }
}
