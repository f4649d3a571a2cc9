/** The mutexes of the library. Every function is written as the locks it takes, with its other
    choices left open; any number of threads run any calls, in any order, beside any number of
    worker threads. Message callbacks may make any call of a Producer, Stop included, but none of the
    Consumer that runs them. */
module Locks {

  datatype Lock = ConsumerMutex | HandlerMutex | PendingMutex | ConsumerConn | ProducerMutex | ProducerConn

  /** Locks are nested in rising rank only. A callback runs under the handler mutex. */
  function Rank(l: Lock): nat {
    match l
    case ConsumerMutex => 1
    case HandlerMutex => 2
    case PendingMutex => 2
    case ConsumerConn => 2
    case ProducerMutex => 4
    case ProducerConn => 5
  }

  const TOP_RANK := 6

  datatype Worker = ConsumerThread | ProducerThread

  /** A join is a wait for all a worker may wait for, so it ranks below that. */
  function JoinRank(w: Worker): nat {
    match w
    case ConsumerThread => 0
    case ProducerThread => 3
  }

  datatype Prog =
    | Skip
    | Acquire(l: Lock)
    | Release(l: Lock)
    | Join(worker: Worker)
    | Seq(first: Prog, second: Prog)
    | Choice(left: Prog, right: Prog)
    | Loop(body: Prog)

  /** The locks a thread holds, the last taken first. */
  datatype Held = Nothing | Holding(top: Lock, below: Held)

  predicate Holds(h: Held, l: Lock) {
    h.Holding? && (h.top == l || Holds(h.below, l))
  }

  // ---- The functions of the source ----

  function Locked(l: Lock, p: Prog): Prog {
    Seq(Acquire(l), Seq(p, Release(l)))
  }

  function Just(l: Lock): Prog {
    Locked(l, Skip)
  }

  function Maybe(p: Prog): Prog {
    Choice(Skip, p)
  }

  /** A ConnectionBase operation that returns at once when not connected, such as OpenChannel or
      CloseConnection. */
  function Guarded(conn: Lock): Prog {
    Maybe(Just(conn))
  }

  /** connectBasic, then login if that went well. */
  function Connect(conn: Lock): Prog {
    Seq(Just(conn), Maybe(Just(conn)))
  }

  function SetupAndConsume(): Prog {
    var push := Just(PendingMutex);
    var consume := Seq(Just(ConsumerConn), Maybe(push));
    var bind := Seq(Just(HandlerMutex), Seq(Just(HandlerMutex), Seq(Just(HandlerMutex), Seq(Just(HandlerMutex),
                Seq(Just(ConsumerConn), Choice(push, consume))))));
    var declare := Seq(Just(HandlerMutex), Seq(Just(ConsumerConn), Choice(push, Seq(Just(HandlerMutex), bind))));
    Seq(Guarded(ConsumerConn), Choice(push, declare))
  }

  /** Its loop is left early after a server failure. */
  function StartConsumption(): Prog {
    Locked(ConsumerMutex,
           Seq(Just(PendingMutex), Seq(Just(HandlerMutex), Seq(Loop(SetupAndConsume()), Maybe(Just(PendingMutex))))))
  }

  function ConnectAndStartConsumption(): Prog {
    Seq(Connect(ConsumerConn), Maybe(Seq(StartConsumption(), Maybe(Guarded(ConsumerConn)))))
  }

  /** What a message callback may do: any calls of a producer. */
  function Callback(): Prog {
    var control := Choice(Choice(InitializeProducer(), StartProducer()),
                          Choice(StopProducer(), Choice(RestartProducer(), DestroyProducer())));
    Loop(Choice(Choice(Send(), Just(ProducerMutex)), control))
  }

  function Process(): Prog {
    Locked(HandlerMutex, Maybe(Callback()))
  }

  function PullNextMessage(): Prog {
    Maybe(Seq(Just(ConsumerConn), Seq(Guarded(ConsumerConn),
          Maybe(Choice(Process(), Seq(Just(ConsumerMutex), Maybe(Guarded(ConsumerConn))))))))
  }

  function ConsumerLoop(): Prog {
    var retry := Seq(Just(PendingMutex), Maybe(Seq(Just(PendingMutex), SetupAndConsume())));
    Seq(Just(ConsumerMutex),
        Loop(Seq(Maybe(ConnectAndStartConsumption()), Seq(Maybe(PullNextMessage()), Seq(retry, Just(ConsumerMutex))))))
  }

  function Subscribe(): Prog {
    var push := Seq(Just(ConsumerMutex), Maybe(Just(PendingMutex)));
    Seq(Just(ConsumerMutex), Maybe(Seq(Just(HandlerMutex), Maybe(Seq(Just(HandlerMutex), push)))))
  }

  function StopConsumer(): Prog {
    var stop := Seq(Just(ConsumerMutex), Seq(Join(ConsumerThread), Guarded(ConsumerConn)));
    Seq(Just(PendingMutex), Seq(Just(ConsumerMutex), Maybe(Seq(Just(ConsumerMutex), Maybe(stop)))))
  }

  function Send(): Prog {
    Seq(Just(ProducerMutex), Maybe(Just(ProducerMutex)))
  }

  /** OpenChannel and perhaps DeclareExchange, for one exchange. */
  function OpenOne(): Prog {
    Seq(Guarded(ProducerConn), Maybe(Guarded(ProducerConn)))
  }

  /** connectChannels from its lock() on. A server failure leaves the loop, and the mutex, before
      the connection is closed. */
  function ManualPass(): Prog {
    Seq(Acquire(ProducerMutex),
        Seq(Loop(OpenOne()),
            Choice(Release(ProducerMutex), Seq(OpenOne(), Seq(Release(ProducerMutex), Guarded(ProducerConn))))))
  }

  function ConnectChannels(): Prog {
    Seq(Just(ProducerMutex), Maybe(Seq(Just(ProducerMutex), Maybe(ManualPass()))))
  }

  function PublishNextInQueue(): Prog {
    Seq(Just(ProducerMutex), Maybe(Seq(Guarded(ProducerConn), Maybe(Choice(Guarded(ProducerConn), Just(ProducerMutex))))))
  }

  function ProducerLoop(): Prog {
    var work := Seq(Just(ProducerMutex), Seq(Maybe(ConnectChannels()), PublishNextInQueue()));
    var iteration := Seq(Just(ProducerMutex), Choice(work, Seq(Connect(ProducerConn), Maybe(work))));
    Seq(Just(ProducerMutex), Loop(Seq(iteration, Just(ProducerMutex))))
  }

  function StartProducer(): Prog {
    Seq(Just(ProducerMutex), Maybe(Seq(Just(ProducerMutex), Maybe(Seq(Just(ProducerMutex), Just(ProducerMutex))))))
  }

  function StopProducer(): Prog {
    var stop := Seq(Just(ProducerMutex), Join(ProducerThread));
    Seq(Just(ProducerMutex), Seq(Maybe(Seq(Just(ProducerMutex), Maybe(stop))), Guarded(ProducerConn)))
  }

  /** The connection it replaces is closed by its destructor, under the mutex. */
  function InitializeProducer(): Prog {
    Seq(Locked(ProducerMutex, Guarded(ProducerConn)), Seq(Just(ProducerMutex), Just(ProducerMutex)))
  }

  function RestartProducer(): Prog {
    Seq(Just(ProducerMutex), Maybe(Seq(StopProducer(), Maybe(StartProducer()))))
  }

  function DestroyProducer(): Prog {
    Seq(Just(ProducerMutex),
        Maybe(Seq(Just(ProducerMutex), Seq(Maybe(StopProducer()), Seq(Loop(Just(ProducerConn)), Guarded(ProducerConn))))))
  }

  /** The calls a user may make. */
  datatype Call =
    | ConsumerSubscribe | ConsumerInitialize | ConsumerStart | ConsumerStop | ConsumerRestart | ConsumerDestroy
    | ProducerSend | ProducerDeclare | ProducerQueueSize
    | ProducerInitialize | ProducerStart | ProducerStop | ProducerRestart | ProducerDestroy

  /** Initialize replaces the connection, whose destructor closes it. */
  function CallBody(call: Call): Prog {
    match call
    case ConsumerSubscribe => Subscribe()
    case ConsumerInitialize => Guarded(ConsumerConn)
    case ConsumerStart => Just(ConsumerMutex)
    case ConsumerStop => StopConsumer()
    case ConsumerRestart => Seq(StopConsumer(), Maybe(Just(ConsumerMutex)))
    case ConsumerDestroy => Seq(Maybe(StopConsumer()), Maybe(Guarded(ConsumerConn)))
    case ProducerSend => Send()
    case ProducerDeclare => Just(ProducerMutex)
    case ProducerQueueSize => Just(ProducerMutex)
    case ProducerInitialize => InitializeProducer()
    case ProducerStart => StartProducer()
    case ProducerStop => StopProducer()
    case ProducerRestart => RestartProducer()
    case ProducerDestroy => DestroyProducer()
  }

  function WorkerBody(w: Worker): Prog {
    match w
    case ConsumerThread => ConsumerLoop()
    case ProducerThread => ProducerLoop()
  }

  function Bodies(calls: seq<Call>): seq<Prog> {
    if calls == [] then [] else [CallBody(calls[0])] + Bodies(calls[1..])
  }

  // ---- Threads and runs ----

  datatype Role = User | Works(worker: Worker)

  /** `todo` is what the thread has still to do, the next first. */
  datatype Thread = Thread(role: Role, todo: seq<Prog>, held: Held)

  type World = map<nat, Thread>

  predicate Finished(t: Thread) {
    t.todo == []
  }

  /** What a thread does next; `pick` settles a choice, and whether a loop goes round again. */
  function Next(todo: seq<Prog>, pick: bool): seq<Prog> {
    if todo == [] then []
    else
      match todo[0]
      case Seq(p, q) => [p, q] + todo[1..]
      case Choice(p, q) => [if pick then p else q] + todo[1..]
      case Loop(p) => if pick then [p] + todo else todo[1..]
      case _ => todo[1..]
  }

  function NextHeld(t: Thread): Held {
    if t.todo == [] then t.held
    else
      match t.todo[0]
      case Acquire(l) => Holding(l, t.held)
      case Release(l) => if t.held.Holding? && t.held.top == l then t.held.below else t.held
      case _ => t.held
  }

  /** `id` waits for `other`: for a lock it holds, or for its end. */
  predicate WaitsFor(w: World, id: nat, other: nat)
    requires id in w && other in w
  {
    var t := w[id];
    t.todo != [] &&
    match t.todo[0]
    case Acquire(l) => Holds(w[other].held, l)
    case Join(worker) => w[other].role == Works(worker) && !Finished(w[other])
    case _ => false
  }

  ghost predicate CanStep(w: World, id: nat) {
    id in w && !Finished(w[id]) && forall other :: other in w ==> !WaitsFor(w, id, other)
  }

  datatype Step =
    | Spawn(id: nat, calls: seq<Call>)         // a user thread
    | SpawnWorker(id: nat, worker: Worker)
    | Advance(id: nat, pick: bool)

  ghost predicate Enabled(w: World, s: Step) {
    match s
    case Spawn(id, _) => id !in w
    case SpawnWorker(id, _) => id !in w
    case Advance(id, _) => CanStep(w, id)
  }

  function Apply(w: World, s: Step): World
    requires s.Advance? ==> s.id in w
  {
    match s
    case Spawn(id, calls) => w[id := Thread(User, Bodies(calls), Nothing)]
    case SpawnWorker(id, worker) => w[id := Thread(Works(worker), [WorkerBody(worker)], Nothing)]
    case Advance(id, pick) => w[id := Thread(w[id].role, Next(w[id].todo, pick), NextHeld(w[id]))]
  }

  ghost predicate IsRun(worlds: seq<World>, steps: seq<Step>) {
    && |worlds| == |steps| + 1 && worlds[0] == map[]
    && forall i {:trigger steps[i]} :: 0 <= i < |steps| ==>
         Enabled(worlds[i], steps[i]) && worlds[i + 1] == Apply(worlds[i], steps[i])
  }

  ghost predicate Reachable(w: World) {
    exists worlds, steps :: IsRun(worlds, steps) && worlds[|steps|] == w
  }

  // ---- The discipline ----

  datatype Checked = Bad | Good(held: Held)

  predicate Outranks(l: Lock, h: Held) {
    h.Holding? ==> Rank(h.top) < Rank(l)
  }

  /** A worker waits only for what ranks above the join that waits for it. */
  function Floor(r: Role): int {
    match r
    case User => -1
    case Works(w) => JoinRank(w)
  }

  /** What is held after `p`, if on every path it takes locks and joins in rising rank above `floor`,
      releases the last lock taken, and keeps its loops balanced. */
  function Check(p: Prog, h: Held, floor: int): Checked {
    match p
    case Skip => Good(h)
    case Acquire(l) => if Outranks(l, h) && floor < Rank(l) then Good(Holding(l, h)) else Bad
    case Release(l) => if h.Holding? && h.top == l then Good(h.below) else Bad
    case Join(w) => if (h.Holding? ==> Rank(h.top) < JoinRank(w)) && floor < JoinRank(w) then Good(h) else Bad
    case Seq(p, q) =>
      var c := Check(p, h, floor);
      if c.Good? then Check(q, c.held, floor) else Bad
    case Choice(p, q) => if Check(p, h, floor) == Check(q, h, floor) then Check(p, h, floor) else Bad
    case Loop(p) => if Check(p, h, floor) == Good(h) then Good(h) else Bad
  }

  function CheckAll(todo: seq<Prog>, h: Held, floor: int): Checked {
    if todo == [] then Good(h)
    else
      var c := Check(todo[0], h, floor);
      if c.Good? then CheckAll(todo[1..], c.held, floor) else Bad
  }

  /** `p` keeps the discipline and ends holding what it began with. */
  predicate Balanced(p: Prog, h: Held, floor: int) {
    Check(p, h, floor) == Good(h)
  }

  lemma LockedIsBalanced(l: Lock, p: Prog, h: Held, floor: int)
    requires Outranks(l, h) && floor < Rank(l) && Balanced(p, Holding(l, h), floor)
    ensures Balanced(Locked(l, p), h, floor)
  {
    assert Check(Seq(p, Release(l)), Holding(l, h), floor) == Good(h);
  }

  /** How programs compose. */
  lemma Compose(floor: int)
    ensures forall h :: Balanced(Skip, h, floor)
    ensures forall p, q, h :: Balanced(p, h, floor) && Balanced(q, h, floor) ==> Balanced(Seq(p, q), h, floor)
    ensures forall p, q, h :: Balanced(p, h, floor) && Balanced(q, h, floor) ==> Balanced(Choice(p, q), h, floor)
    ensures forall p, h :: Balanced(p, h, floor) ==> Balanced(Loop(p), h, floor)
    ensures forall l, p, h :: Outranks(l, h) && floor < Rank(l) && Balanced(p, Holding(l, h), floor) ==> Balanced(Locked(l, p), h, floor)
    ensures forall l, h :: Outranks(l, h) && floor < Rank(l) ==> Balanced(Just(l), h, floor)
    ensures forall worker, h: Held :: (h.Holding? ==> Rank(h.top) < JoinRank(worker)) && floor < JoinRank(worker) ==>
              Balanced(Join(worker), h, floor)
  {
    forall l, p, h | Outranks(l, h) && floor < Rank(l) && Balanced(p, Holding(l, h), floor) ensures Balanced(Locked(l, p), h, floor) {
      LockedIsBalanced(l, p, h, floor);
    }
    forall l, h | Outranks(l, h) && floor < Rank(l) ensures Balanced(Just(l), h, floor) {
      LockedIsBalanced(l, Skip, h, floor);
    }
  }

  lemma SetupIsBalanced(h: Held)
    requires h == Nothing || h == Holding(ConsumerMutex, Nothing)
    ensures Balanced(SetupAndConsume(), h, 0)
  {
    Compose(0);
    hide Balanced, Just, Locked;
  }

  lemma StartUpIsBalanced()
    ensures Balanced(ConnectAndStartConsumption(), Nothing, 0)
  {
    Compose(0);
    SetupIsBalanced(Holding(ConsumerMutex, Nothing));
    hide Balanced, Just, Locked, SetupAndConsume;
    assert Balanced(StartConsumption(), Nothing, 0);
    hide StartConsumption;
  }

  /** Stopping a producer is in order for a user and for a callback. */
  lemma ProducerCallsAreBalanced(h: Held, floor: int)
    requires (h == Nothing && floor == -1) || (h == Holding(HandlerMutex, Nothing) && floor == 0)
    ensures Balanced(StartProducer(), h, floor) && Balanced(StopProducer(), h, floor)
    ensures Balanced(InitializeProducer(), h, floor) && Balanced(RestartProducer(), h, floor)
    ensures Balanced(DestroyProducer(), h, floor)
  {
    Compose(floor);
    assert Balanced(Join(ProducerThread), h, floor);
    hide Balanced, Just, Locked;
  }

  lemma CallbackIsBalanced()
    ensures Balanced(Callback(), Holding(HandlerMutex, Nothing), 0)
  {
    Compose(0);
    ProducerCallsAreBalanced(Holding(HandlerMutex, Nothing), 0);
    hide Balanced, Just, Locked, StartProducer, StopProducer, InitializeProducer, RestartProducer, DestroyProducer;
  }

  lemma PullIsBalanced()
    ensures Balanced(PullNextMessage(), Nothing, 0)
  {
    Compose(0);
    CallbackIsBalanced();
    hide Balanced, Just, Locked, Callback;
    assert Balanced(Process(), Nothing, 0);
    hide Process;
  }

  lemma ConsumerLoopIsBalanced()
    ensures Balanced(ConsumerLoop(), Nothing, 0)
  {
    Compose(0);
    SetupIsBalanced(Nothing);
    StartUpIsBalanced();
    PullIsBalanced();
    hide Balanced, Just, Locked, SetupAndConsume, ConnectAndStartConsumption, PullNextMessage;
  }

  lemma PassIsBalanced()
    ensures Balanced(ManualPass(), Nothing, 3)
  {
    Compose(3);
    var h := Holding(ProducerMutex, Nothing);
    assert Balanced(OpenOne(), h, 3) by {
      hide Balanced, Just, Locked;
    }
    hide OpenOne, Guarded;
    assert Balanced(Guarded(ProducerConn), Nothing, 3);
    assert Check(Seq(OpenOne(), Seq(Release(ProducerMutex), Guarded(ProducerConn))), h, 3) == Good(Nothing);
  }

  lemma ProducerLoopIsBalanced()
    ensures Balanced(ProducerLoop(), Nothing, 3)
  {
    Compose(3);
    PassIsBalanced();
    hide Balanced, Just, Locked, ManualPass;
  }

  lemma WorkersAreBalanced(w: Worker)
    ensures Balanced(WorkerBody(w), Nothing, JoinRank(w))
  {
    ConsumerLoopIsBalanced();
    ProducerLoopIsBalanced();
    hide Balanced, ConsumerLoop, ProducerLoop;
  }

  lemma CallsAreBalanced(call: Call)
    ensures Balanced(CallBody(call), Nothing, -1)
  {
    Compose(-1);
    ProducerCallsAreBalanced(Nothing, -1);
    ConsumerCallsAreBalanced();
    hide Balanced, Just, Locked, StartProducer, StopProducer, InitializeProducer, RestartProducer, DestroyProducer;
    hide Subscribe, StopConsumer;
    match call
    case ConsumerRestart => assert Balanced(Maybe(Just(ConsumerMutex)), Nothing, -1);
    case ConsumerDestroy =>
      assert Balanced(Maybe(StopConsumer()), Nothing, -1) && Balanced(Maybe(Guarded(ConsumerConn)), Nothing, -1);
    case _ =>
  }

  lemma ConsumerCallsAreBalanced()
    ensures Balanced(Subscribe(), Nothing, -1) && Balanced(StopConsumer(), Nothing, -1)
  {
    Compose(-1);
    assert Balanced(Join(ConsumerThread), Nothing, -1);
    hide Balanced, Just, Locked;
  }

  lemma {:induction false} BodiesCheck(calls: seq<Call>)
    ensures CheckAll(Bodies(calls), Nothing, -1) == Good(Nothing)
  {
    if calls != [] {
      CallsAreBalanced(calls[0]);
      BodiesCheck(calls[1..]);
      hide CallBody;
    }
  }

  lemma WorkerChecks(worker: Worker)
    ensures CheckAll([WorkerBody(worker)], Nothing, JoinRank(worker)) == Good(Nothing)
  {
    WorkersAreBalanced(worker);
    hide WorkerBody;
    var p := WorkerBody(worker);
    assert [p][1..] == [];
    assert Check([p][0], Nothing, JoinRank(worker)) == Good(Nothing);
  }

  predicate MayTake(p: Prog, l: Lock) {
    match p
    case Acquire(m) => m == l
    case Seq(a, b) => MayTake(a, l) || MayTake(b, l)
    case Choice(a, b) => MayTake(a, l) || MayTake(b, l)
    case Loop(a) => MayTake(a, l)
    case _ => false
  }

  /** How it composes. */
  lemma TakeRules(l: Lock)
    ensures !MayTake(Skip, l) && forall w :: !MayTake(Join(w), l)
    ensures forall a, b :: MayTake(Seq(a, b), l) <==> MayTake(a, l) || MayTake(b, l)
    ensures forall a, b :: MayTake(Choice(a, b), l) <==> MayTake(a, l) || MayTake(b, l)
    ensures forall a :: MayTake(Loop(a), l) <==> MayTake(a, l)
    ensures forall m :: (MayTake(Acquire(m), l) <==> m == l) && !MayTake(Release(m), l)
    ensures forall m, p :: MayTake(Locked(m, p), l) <==> m == l || MayTake(p, l)
    ensures forall m :: MayTake(Just(m), l) <==> m == l
  {
    forall m, p ensures MayTake(Locked(m, p), l) <==> m == l || MayTake(p, l) {
      assert MayTake(Seq(p, Release(m)), l) <==> MayTake(p, l);
    }
  }

  lemma ProducerCallsTake(l: Lock)
    ensures MayTake(StartProducer(), l) <==> l == ProducerMutex
    ensures MayTake(Send(), l) <==> l == ProducerMutex
    ensures MayTake(StopProducer(), l) <==> l == ProducerMutex || l == ProducerConn
    ensures MayTake(InitializeProducer(), l) <==> l == ProducerMutex || l == ProducerConn
    ensures MayTake(RestartProducer(), l) <==> l == ProducerMutex || l == ProducerConn
    ensures MayTake(DestroyProducer(), l) <==> l == ProducerMutex || l == ProducerConn
  {
    TakeRules(l);
    hide MayTake, Just, Locked;
  }

  /** Which mutexes each call takes. */
  lemma CallsTake(call: Call, l: Lock)
    ensures MayTake(CallBody(call), l) <==>
            match call
            case ConsumerSubscribe => l == ConsumerMutex || l == HandlerMutex || l == PendingMutex
            case ConsumerInitialize => l == ConsumerConn
            case ConsumerStart => l == ConsumerMutex
            case ConsumerStop => l == PendingMutex || l == ConsumerMutex || l == ConsumerConn
            case ConsumerRestart => l == PendingMutex || l == ConsumerMutex || l == ConsumerConn
            case ConsumerDestroy => l == PendingMutex || l == ConsumerMutex || l == ConsumerConn
            case ProducerSend => l == ProducerMutex
            case ProducerDeclare => l == ProducerMutex
            case ProducerQueueSize => l == ProducerMutex
            case ProducerStart => l == ProducerMutex
            case _ => l == ProducerMutex || l == ProducerConn
  {
    TakeRules(l);
    ProducerCallsTake(l);
    hide MayTake, Just, Locked, StartProducer, StopProducer, InitializeProducer, RestartProducer, DestroyProducer, Send;
  }

  lemma SetupTakes(l: Lock)
    ensures MayTake(SetupAndConsume(), l) <==> l == ConsumerConn || l == HandlerMutex || l == PendingMutex
    ensures MayTake(ConnectAndStartConsumption(), l) <==>
              l == ConsumerMutex || l == ConsumerConn || l == HandlerMutex || l == PendingMutex
  {
    TakeRules(l);
    hide MayTake, Just, Locked;
    assert MayTake(SetupAndConsume(), l) <==> l == ConsumerConn || l == HandlerMutex || l == PendingMutex;
    hide SetupAndConsume;
    assert MayTake(StartConsumption(), l) <==> l == ConsumerMutex || l == ConsumerConn || l == HandlerMutex || l == PendingMutex;
    hide StartConsumption;
  }

  lemma PullTakes(l: Lock)
    ensures MayTake(PullNextMessage(), l) <==>
              l == ConsumerMutex || l == HandlerMutex || l == ConsumerConn || l == ProducerMutex || l == ProducerConn
  {
    TakeRules(l);
    ProducerCallsTake(l);
    hide MayTake, Just, Locked, StartProducer, StopProducer, InitializeProducer, RestartProducer, DestroyProducer, Send;
    assert MayTake(Callback(), l) <==> l == ProducerMutex || l == ProducerConn;
    hide Callback;
    assert MayTake(Process(), l) <==> l == HandlerMutex || l == ProducerMutex || l == ProducerConn;
    hide Process;
  }

  /** The publisher takes the producer's mutexes only; the consumer's worker may, through callbacks, take
      all. */
  lemma WorkersTake(w: Worker, l: Lock)
    ensures MayTake(WorkerBody(w), l) <==> w.ConsumerThread? || l == ProducerMutex || l == ProducerConn
  {
    TakeRules(l);
    SetupTakes(l);
    PullTakes(l);
    hide MayTake, Just, Locked, SetupAndConsume, ConnectAndStartConsumption, PullNextMessage;
  }

  // ---- What every reachable world satisfies ----

  predicate Rising(h: Held) {
    h.Holding? ==> Outranks(h.top, h.below) && Rising(h.below)
  }

  lemma {:induction false} TopOutranks(h: Held, l: Lock)
    requires Rising(h) && Holds(h, l)
    ensures Rank(l) <= Rank(h.top)
  {
    if h.top != l {
      TopOutranks(h.below, l);
    }
  }

  predicate Disciplined(t: Thread) {
    Rising(t.held) && CheckAll(t.todo, t.held, Floor(t.role)) == Good(Nothing)
  }

  ghost predicate Inv(w: World) {
    && (forall id :: id in w ==> Disciplined(w[id]))
    && (forall id, other, l :: id in w && other in w && id != other && Holds(w[id].held, l) ==> !Holds(w[other].held, l))
  }

  /** Advancing a thread keeps the discipline. */
  lemma NextIsDisciplined(t: Thread, pick: bool)
    requires Disciplined(t) && t.todo != []
    ensures Disciplined(Thread(t.role, Next(t.todo, pick), NextHeld(t)))
  {
    var rest := t.todo[1..];
    match t.todo[0]
    case Seq(p, q) =>
      assert ([p, q] + rest)[1..] == [q] + rest;
      assert ([q] + rest)[1..] == rest;
    case Choice(p, q) =>
      assert ([p] + rest)[1..] == rest;
      assert ([q] + rest)[1..] == rest;
    case Loop(p) => assert ([p] + t.todo)[1..] == t.todo;
    case _ =>
  }

  lemma NewlyHeld(t: Thread, l: Lock)
    requires t.todo != [] && Holds(NextHeld(t), l) && !Holds(t.held, l)
    ensures t.todo[0] == Acquire(l)
  {
  }

  lemma SpawnKeepsInv(w: World, id: nat, t: Thread)
    requires Inv(w) && id !in w && Disciplined(t) && t.held == Nothing
    ensures Inv(w[id := t])
  {
    hide Disciplined;
  }

  lemma InvKept(w: World, s: Step)
    requires Inv(w) && Enabled(w, s)
    ensures Inv(Apply(w, s))
  {
    hide Inv, CanStep, Bodies, WorkerBody, CheckAll;
    match s
    case Spawn(id, calls) =>
      BodiesCheck(calls);
      SpawnKeepsInv(w, id, Thread(User, Bodies(calls), Nothing));
    case SpawnWorker(id, worker) =>
      WorkerChecks(worker);
      SpawnKeepsInv(w, id, Thread(Works(worker), [WorkerBody(worker)], Nothing));
    case Advance(id, pick) => AdvanceKeepsInv(w, id, pick);
  }

  lemma AdvanceKeepsInv(w: World, id: nat, pick: bool)
    requires Inv(w) && CanStep(w, id)
    ensures Inv(Apply(w, Advance(id, pick)))
  {
    NextIsDisciplined(w[id], pick);
    hide Disciplined, Next, NextHeld, Holds;
    forall other, l | other in w && other != id && Holds(NextHeld(w[id]), l) ensures !Holds(w[other].held, l) {
      if !Holds(w[id].held, l) {
        NewlyHeld(w[id], l);
        assert !WaitsFor(w, id, other);
      }
    }
  }

  lemma {:induction false} InvAlongRun(worlds: seq<World>, steps: seq<Step>, i: nat)
    requires IsRun(worlds, steps) && i <= |steps|
    ensures Inv(worlds[i])
  {
    if i > 0 {
      InvAlongRun(worlds, steps, i - 1);
      assert steps[i - 1] == steps[i - 1];
      InvKept(worlds[i - 1], steps[i - 1]);
    }
  }

  lemma InvHolds(w: World)
    requires Reachable(w)
    ensures Inv(w)
  {
    var worlds, steps :| IsRun(worlds, steps) && worlds[|steps|] == w;
    InvAlongRun(worlds, steps, |steps|);
  }

  // ---- Deadlock freedom ----

  /** A lock has one owner, and a finished thread holds none. */
  lemma LocksExclude(w: World, id: nat, other: nat, l: Lock)
    requires Reachable(w) && id in w && other in w && Holds(w[id].held, l)
    ensures !Finished(w[id])
    ensures Holds(w[other].held, l) ==> other == id
  {
    InvHolds(w);
  }

  /** Where a thread stands in the order of waits. */
  function WaitRank(t: Thread): (r: int)
    ensures 0 <= r <= TOP_RANK
  {
    if t.todo == [] then TOP_RANK
    else
      match t.todo[0]
      case Join(worker) => JoinRank(worker)
      case Acquire(l) => Rank(l)
      case _ => TOP_RANK
  }

  /** A worker never waits for anything as low as the join that waits for it. */
  lemma AboveFloor(t: Thread)
    requires Disciplined(t)
    ensures Floor(t.role) < WaitRank(t)
  {
  }

  /** Who is waited for is not done, and itself waits only for something higher. */
  lemma WaitsRise(w: World, id: nat, other: nat)
    requires Inv(w) && id in w && other in w && WaitsFor(w, id, other)
    ensures !Finished(w[other]) && WaitRank(w[id]) < WaitRank(w[other])
  {
    assert Disciplined(w[other]);
    if w[id].todo[0].Acquire? {
      TopOutranks(w[other].held, w[id].todo[0].l);
    }
  }

  ghost predicate IsWait(w: World, path: seq<nat>) {
    && path != []
    && (forall i :: 0 <= i < |path| ==> path[i] in w)
    && (forall i {:trigger path[i]} :: 0 < i < |path| ==> WaitsFor(w, path[i - 1], path[i]))
  }

  lemma {:induction false} WaitsRiseAlong(w: World, path: seq<nat>, i: nat)
    requires Inv(w) && IsWait(w, path) && i < |path|
    ensures WaitRank(w[path[i]]) >= WaitRank(w[path[0]]) + i
  {
    if i > 0 {
      WaitsRiseAlong(w, path, i - 1);
      assert path[i] in w;
      WaitsRise(w, path[i - 1], path[i]);
    }
  }

  /** No reachable world has a circular wait, through locks, joins or both; in particular no thread
      waits for itself. However many threads there are, no chain of waits exceeds seven. */
  lemma NoCircularWait(w: World, path: seq<nat>)
    requires Reachable(w) && IsWait(w, path)
    ensures |path| > 1 ==> path[0] != path[|path| - 1]
    ensures |path| <= 7
  {
    InvHolds(w);
    hide Inv, Reachable, WaitRank, WaitsFor;
    WaitsRiseAlong(w, path, |path| - 1);
  }

  /** Every unfinished thread can step, or waits for one that can, perhaps through others. */
  lemma SomeoneCanStep(w: World, id: nat) returns (path: seq<nat>)
    requires Reachable(w) && id in w && !Finished(w[id])
    ensures IsWait(w, path) && path[0] == id && CanStep(w, path[|path| - 1])
  {
    InvHolds(w);
    path := ChainFrom(w, id);
  }

  lemma {:induction false} ChainFrom(w: World, id: nat) returns (path: seq<nat>)
    requires Inv(w) && id in w && !Finished(w[id])
    ensures IsWait(w, path) && path[0] == id && CanStep(w, path[|path| - 1])
    decreases TOP_RANK - WaitRank(w[id])
  {
    if other :| other in w && WaitsFor(w, id, other) {
      WaitsRise(w, id, other);
      var rest := ChainFrom(w, other);
      path := [id] + rest;
      forall i {:trigger path[i]} | 0 < i < |path| ensures path[i] in w && path[i - 1] in w && WaitsFor(w, path[i - 1], path[i]) {
        assert path[i] == rest[i - 1];
        assert i > 1 ==> path[i - 1] == rest[i - 2];
      }
    } else {
      path := [id];
    }
  }

  /** A thread waiting in a Stop's join holds no lock its worker could want, so the worker never waits
      for it. In the consumer's it holds no lock at all, and nobody waits for it. */
  lemma JoinIsUnwanted(w: World, id: nat, worker: Worker)
    requires Reachable(w) && id in w && !Finished(w[id]) && w[id].todo[0] == Join(worker)
    ensures forall l :: Holds(w[id].held, l) ==> Rank(l) < JoinRank(worker)
    ensures forall other :: other in w && w[other].role == Works(worker) ==> !WaitsFor(w, other, id)
    ensures worker.ConsumerThread? ==>
              w[id].held == Nothing && w[id].role == User && forall other :: other in w ==> !WaitsFor(w, other, id)
  {
    InvHolds(w);
    assert Disciplined(w[id]);
    forall l | Holds(w[id].held, l) ensures Rank(l) < JoinRank(worker) {
      TopOutranks(w[id].held, l);
    }
    forall other | other in w && w[other].role == Works(worker) ensures !WaitsFor(w, other, id) {
      AboveFloor(w[other]);
      if WaitsFor(w, other, id) {
        WaitsRise(w, other, id);
      }
    }
  }

  // ---- connectChannels' manual lock ----

  datatype Tally = Varies | Times(n: nat)

  /** How often `event` happens on every path through `p`, if that does not depend on the path. */
  function Count(p: Prog, event: Prog): Tally {
    match p
    case Seq(a, b) =>
      if Count(a, event).Times? && Count(b, event).Times? then Times(Count(a, event).n + Count(b, event).n) else Varies
    case Choice(a, b) => if Count(a, event) == Count(b, event) then Count(a, event) else Varies
    case Loop(a) => if Count(a, event) == Times(0) then Times(0) else Varies
    case _ => if p == event then Times(1) else Times(0)
  }

  function CountAll(todo: seq<Prog>, event: Prog): Tally {
    if todo == [] then Times(0)
    else
      var c, rest := Count(todo[0], event), CountAll(todo[1..], event);
      if c.Times? && rest.Times? then Times(c.n + rest.n) else Varies
  }

  /** What a thread has still to do after some choices, and how often `event` happens on the way. */
  function After(todo: seq<Prog>, picks: seq<bool>): seq<Prog>
    decreases |picks|
  {
    if picks == [] then todo else After(Next(todo, picks[0]), picks[1..])
  }

  function Happens(todo: seq<Prog>, event: Prog, picks: seq<bool>): nat
    decreases |picks|
  {
    if picks == [] || todo == [] then 0
    else (if todo[0] == event then 1 else 0) + Happens(Next(todo, picks[0]), event, picks[1..])
  }

  lemma NextCounts(todo: seq<Prog>, event: Prog, pick: bool)
    requires todo != [] && CountAll(todo, event).Times? && (event.Acquire? || event.Release?)
    ensures var rest := CountAll(Next(todo, pick), event);
            rest.Times? && CountAll(todo, event).n == rest.n + (if todo[0] == event then 1 else 0)
  {
    var rest := todo[1..];
    match todo[0]
    case Seq(p, q) =>
      assert ([p, q] + rest)[1..] == [q] + rest;
      assert ([q] + rest)[1..] == rest;
    case Choice(p, q) =>
      assert ([p] + rest)[1..] == rest;
      assert ([q] + rest)[1..] == rest;
    case Loop(p) => assert ([p] + todo)[1..] == todo;
    case _ =>
  }

  lemma {:induction false} CountIsRight(todo: seq<Prog>, event: Prog, picks: seq<bool>)
    requires CountAll(todo, event).Times? && (event.Acquire? || event.Release?)
    requires After(todo, picks) == []
    ensures Happens(todo, event, picks) == CountAll(todo, event).n
    decreases |picks|
  {
    if picks != [] && todo != [] {
      NextCounts(todo, event, picks[0]);
      CountIsRight(Next(todo, picks[0]), event, picks[1..]);
    }
  }

  /** Whichever way connectChannels leaves its loop, it takes the mutex once and releases it once. */
  lemma ManualLockReleasedOnce(picks: seq<bool>)
    requires After([ManualPass()], picks) == []
    ensures Happens([ManualPass()], Acquire(ProducerMutex), picks) == 1
    ensures Happens([ManualPass()], Release(ProducerMutex), picks) == 1
  {
    ManualCount(Acquire(ProducerMutex));
    ManualCount(Release(ProducerMutex));
    CountIsRight([ManualPass()], Acquire(ProducerMutex), picks);
    CountIsRight([ManualPass()], Release(ProducerMutex), picks);
  }

  lemma ManualCount(event: Prog)
    requires event == Acquire(ProducerMutex) || event == Release(ProducerMutex)
    ensures CountAll([ManualPass()], event) == Times(1)
  {
    assert Count(Just(ProducerConn), event) == Times(0) by {
      assert Count(Seq(Skip, Release(ProducerConn)), event) == Times(0);
    }
    hide Just;
    assert Count(Guarded(ProducerConn), event) == Times(0);
    assert Count(OpenOne(), event) == Times(0) by {
      hide Guarded;
      assert Count(Maybe(Guarded(ProducerConn)), event) == Times(0);
    }
    hide OpenOne, Guarded;
    assert Count(Seq(OpenOne(), Seq(Release(ProducerMutex), Guarded(ProducerConn))), event) == Count(Release(ProducerMutex), event) by {
      assert Count(Seq(Release(ProducerMutex), Guarded(ProducerConn)), event) == Count(Release(ProducerMutex), event);
    }
  }
}
