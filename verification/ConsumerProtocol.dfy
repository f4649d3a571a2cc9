/** The consumer as a state machine (src/Consumer_priv.cpp, src/Consumer_api.cpp).

    Three kinds of threads share the state: the worker thread, one controlling thread that calls
    Initialize, Start, Stop, Restart and the destructor, and any number of threads inside Subscribe.
    One step is one section of code between two points where another thread can be seen: a section
    under a mutex, or a call of the broker, whose answer is arbitrary. */
module ConsumerProtocol {
  import opened HareErrors
  import opened Bindings
  import opened Connection

  // ---- Where each thread is ----

  /** Whether setupAndConsume runs inside startConsumption, with the channels still to visit, or for
      a channel popped off the pending queue. */
  datatype Caller = StartUp(rest: seq<int>) | Retry

  datatype SetupCall = Open | Declare | Bind | Consume

  datatype WorkerPc =
    | NoThread
    | LoopTest                                        // while (IsRunning())
    | ConnectedTest
    | Connecting
    | Locking                                         // startConsumption takes the consumer mutex
    | Emptying
    | Listing
    | NextChannel(rest: seq<int>, last: HareError)    // head of the start-up loop
    | Setting(channel: int, next: SetupCall, caller: Caller)
    | PushingBack(channel: int, err: HareError, caller: Caller)
    | Aborting                                        // startConsumption reported a server failure
    | Pulling
    | PullFailed                                      // ConsumeMessage did; IsRunning() comes next
    | PullClosing
    | SizeTest
    | Popping
    | Returned
    | Faulted                                         // popped an empty queue: undefined behaviour

  /** What the controlling thread does after Stop. */
  datatype After = JustStop | ThenStart | ThenDestroy

  datatype ControlPc =
    | Idle(ret: HareError)
    | StopTesting(after: After)       // pending emptied; IsInitialized() and IsRunning() come next
    | ClearingFlag(after: After)
    | Joining(after: After)
    | Closing(after: After)
    | Starting
    | Destroying
    | Gone

  datatype SubscribePc =
    | Begun(pair: BindingPair, callback: Callback, properties: QueueProperties)
    | Adding(pair: BindingPair, callback: Callback, properties: QueueProperties)
    | PropertySetting(channel: int, properties: QueueProperties)
    | RunningTest(channel: int)
    | Pushing(channel: int)
    | Done(ret: HareError)

  // ---- The state ----

  /** Observations that steer nothing.
      `consuming`: channels whose last set-up on this connection reported AllGood.
      `calls`: the broker calls on this connection that reported success, as a declare always does.
      `listed`, `known`, `attempted`: the last channel list taken by startConsumption, how many
      channels were registered then, and every channel whose set-up began since.
      `pushed`, `popped`: the pending queue's traffic since it was last emptied.
      `retried`: outcomes of the retries finished since then. */
  datatype Monitor = Monitor(
    consuming: set<int>,
    calls: seq<BrokerCall>,
    listed: seq<int>,
    known: nat,
    attempted: seq<int>,
    pushed: seq<int>,
    popped: seq<int>,
    retried: seq<(int, bool)>,
    iterations: nat)

  datatype State = State(
    table: Table,
    initialized: bool,
    running: bool,
    pending: seq<int>,
    conn: Conn,
    worker: WorkerPc,
    control: ControlPc,
    subscribers: map<nat, SubscribePc>,
    mon: Monitor)

  const INITIAL := State([], false, false, [], NO_CONNECTION, NoThread, Idle(AllGood), map[],
                         Monitor({}, [], [], 0, [], [], [], [], 0))

  /** startConsumption holds the consumer mutex for its whole body. */
  predicate MutexHeld(w: WorkerPc) {
    || w.Emptying? || w.Listing? || w.NextChannel?
    || (w.Setting? && w.caller.StartUp?) || (w.PushingBack? && w.caller.StartUp?)
  }

  function Push(s: State, channel: int): State {
    s.(pending := s.pending + [channel], mon := s.mon.(pushed := s.mon.pushed + [channel]))
  }

  function EmptyPending(s: State): State {
    s.(pending := [], mon := s.mon.(pushed := [], popped := [], retried := []))
  }

  function Close(s: State): State {
    s.(conn := OnClose(s.conn), mon := s.mon.(consuming := {}, calls := []))
  }

  // ---- The worker ----

  /** The broker's answer to the worker's next call, and the order the hash map is walked in. */
  datatype Outcome = Outcome(err: HareError, list: seq<int>)

  ghost predicate WorkerEnabled(s: State, o: Outcome) {
    && !s.worker.NoThread? && !s.worker.Returned? && !s.worker.Faulted?
    && (s.worker.Listing? ==> IsChannelList(o.list, |s.table|))
  }

  /** Where the worker goes when setupAndConsume returns. */
  function AfterSetup(caller: Caller, err: HareError): WorkerPc {
    match caller
    case StartUp(rest) => if ServerFailure(err) then Aborting else NextChannel(rest, err)
    case Retry => LoopTest
  }

  function SetupStep(s: State, err: HareError): State
    requires s.worker.Setting?
  {
    var c, caller := s.worker.channel, s.worker.caller;
    match s.worker.next
    case Open =>
      var answer := if s.conn.connected then err else ServerConnectionFailure;
      var tried := s.mon.(consuming := s.mon.consuming - {c});
      if NoError(answer)
      then s.(worker := Setting(c, Declare, caller), mon := tried.(calls := s.mon.calls + [OpenCall(c)]))
      else s.(worker := PushingBack(c, answer, caller), mon := tried)
    case Declare =>
      s.(worker := Setting(c, Bind, caller),
         mon := s.mon.(calls := s.mon.calls + [DeclareCall(c, PropertiesOf(s.table, c))]))
    case Bind =>
      if NoError(err)
      then s.(worker := Setting(c, Consume, caller),
              mon := s.mon.(calls := s.mon.calls + [BindCall(c, PairOf(s.table, c))]))
      else s.(worker := PushingBack(c, err, caller))
    case Consume =>
      if NoError(err)
      then s.(worker := AfterSetup(caller, AllGood),
              mon := s.mon.(calls := s.mon.calls + [ConsumeCall(c)],
                            consuming := s.mon.consuming + {c},
                            retried := if caller.Retry? then s.mon.retried + [(c, true)] else s.mon.retried))
      else s.(worker := PushingBack(c, err, caller))
  }

  function WorkerStep(s: State, o: Outcome): State {
    match s.worker
    case LoopTest =>
      if s.running then s.(worker := ConnectedTest, mon := s.mon.(iterations := s.mon.iterations + 1))
      else s.(worker := Returned)
    case ConnectedTest => s.(worker := if s.conn.connected then Pulling else Connecting)
    case Connecting =>
      s.(conn := OnConnect(s.conn, o.err), worker := if NoError(o.err) then Locking else SizeTest)
    case Locking => s.(worker := Emptying)
    case Emptying => EmptyPending(s).(worker := Listing)
    case Listing =>
      s.(worker := NextChannel(o.list, AllGood),
         mon := s.mon.(listed := o.list, known := |s.table|, attempted := []))
    case NextChannel(rest, last) =>
      if rest == [] then s.(worker := if NoError(last) then Pulling else SizeTest)
      else s.(worker := Setting(rest[0], Open, StartUp(rest[1..])),
              mon := s.mon.(attempted := s.mon.attempted + [rest[0]]))
    case Setting(_, _, _) => SetupStep(s, o.err)
    case PushingBack(c, err, caller) =>
      var s' := Push(s, c);
      s'.(worker := AfterSetup(caller, err),
          mon := s'.mon.(retried := if caller.Retry? then s.mon.retried + [(c, false)] else s.mon.retried))
    case Aborting => Close(s).(worker := SizeTest)
    case Pulling => s.(worker := if s.conn.connected && ServerFailure(o.err) then PullFailed else SizeTest)
    case PullFailed => s.(worker := if s.running then PullClosing else SizeTest)
    case PullClosing => Close(s).(worker := SizeTest)
    case SizeTest => s.(worker := if s.pending != [] then Popping else LoopTest)
    case Popping =>
      if s.pending == [] then s.(worker := Faulted)
      else s.(pending := s.pending[1..],
              worker := Setting(s.pending[0], Open, Retry),
              mon := s.mon.(popped := s.mon.popped + [s.pending[0]],
                            attempted := s.mon.attempted + [s.pending[0]]))
    case _ => s
  }

  // ---- Subscribe ----

  ghost predicate SubscribeEnabled(s: State, id: nat) {
    && id in s.subscribers
    && !s.subscribers[id].Done?
    && (s.subscribers[id].Begun? || s.subscribers[id].RunningTest? ==> !MutexHeld(s.worker))
  }

  function SubscribeStep(s: State, id: nat): State
    requires id in s.subscribers
  {
    match s.subscribers[id]
    case Begun(pair, callback, properties) =>
      s.(subscribers := s.subscribers[id := if s.initialized then Adding(pair, callback, properties)
                                            else Done(NotInitialized)])
    case Adding(pair, callback, properties) =>
      var (table, channel) := AddProcessor(s.table, pair, callback);
      s.(table := table,
         subscribers := s.subscribers[id := if channel == -1 then Done(UnableToSubscribe)
                                            else PropertySetting(channel, properties)])
    case PropertySetting(channel, properties) =>
      s.(table := WithProperties(s.table, channel, properties),
         subscribers := s.subscribers[id := RunningTest(channel)])
    case RunningTest(channel) =>
      s.(subscribers := s.subscribers[id := if s.running then Pushing(channel) else Done(AllGood)])
    case Pushing(channel) => Push(s, channel).(subscribers := s.subscribers[id := Done(AllGood)])
    case Done(_) => s
  }

  // ---- The controlling thread ----

  datatype ApiCall = Initialize | Start | Stop | Restart | Destroy

  /** Initialize comes before the worker runs, and Start and Initialize run under or beside the
      consumer mutex; a call begins only when the previous one has returned. */
  ghost predicate CallEnabled(s: State, call: ApiCall) {
    && s.control.Idle?
    && (call.Initialize? ==> !s.running)
    && (call.Start? ==> !MutexHeld(s.worker))
  }

  function StartBody(s: State): State {
    if !s.initialized then s.(control := Idle(NotInitialized))
    else if s.running then s.(control := Idle(ThreadAlreadyRunning))
    else s.(running := true, worker := LoopTest, control := Idle(AllGood))
  }

  /** Stop's first act, before any test, is to empty the pending queue. */
  function CallStep(s: State, call: ApiCall): State {
    match call
    case Initialize => Close(s).(initialized := true, running := false, control := Idle(AllGood))
    case Start => StartBody(s)
    case Stop => EmptyPending(s).(control := StopTesting(JustStop))
    case Restart => EmptyPending(s).(control := StopTesting(ThenStart))
    case Destroy =>
      if s.running then EmptyPending(s).(control := StopTesting(ThenDestroy))
      else s.(control := Destroying)
  }

  /** What follows Stop returning `ret`. */
  function AfterStop(after: After, ret: HareError): ControlPc {
    match after
    case JustStop => Idle(ret)
    case ThenStart => if NoError(ret) then Starting else Idle(ret)
    case ThenDestroy => Destroying
  }

  ghost predicate ControlEnabled(s: State) {
    match s.control
    case Idle(_) => false
    case StopTesting(_) => !MutexHeld(s.worker)
    case ClearingFlag(_) => !MutexHeld(s.worker)
    case Joining(_) => s.worker.Returned?
    case Closing(_) => true
    case Starting => !MutexHeld(s.worker)
    case Destroying => true
    case Gone => false
  }

  function ControlStep(s: State, err: HareError): State {
    match s.control
    case StopTesting(after) =>
      s.(control := if !s.initialized then AfterStop(after, NotInitialized)
                    else if !s.running then AfterStop(after, ThreadNotRunning)
                    else ClearingFlag(after))
    case ClearingFlag(after) => s.(running := false, control := Joining(after))
    case Joining(after) => s.(worker := NoThread, control := Closing(after))
    case Closing(after) =>
      Close(s).(control := AfterStop(after, if s.conn.connected then err else AllGood))
    case Starting => StartBody(s)
    case Destroying => (if s.initialized then Close(s) else s).(initialized := false, control := Gone)
    case _ => s
  }

  // ---- Steps and runs ----

  datatype Action =
    | Work(outcome: Outcome)
    | BeginSubscribe(id: nat, pair: BindingPair, callback: Callback, properties: QueueProperties)
    | ContinueSubscribe(id: nat)
    | Call(call: ApiCall)
    | ContinueCall(err: HareError)

  ghost predicate Enabled(s: State, a: Action) {
    match a
    case Work(o) => WorkerEnabled(s, o)
    case BeginSubscribe(id, _, _, _) => id !in s.subscribers
    case ContinueSubscribe(id) => SubscribeEnabled(s, id)
    case Call(call) => CallEnabled(s, call)
    case ContinueCall(_) => ControlEnabled(s)
  }

  function Step(s: State, a: Action): State
    requires Enabled(s, a)
  {
    match a
    case Work(o) => WorkerStep(s, o)
    case BeginSubscribe(id, pair, callback, properties) =>
      s.(subscribers := s.subscribers[id := Begun(pair, callback, properties)])
    case ContinueSubscribe(id) => SubscribeStep(s, id)
    case Call(call) => CallStep(s, call)
    case ContinueCall(err) => ControlStep(s, err)
  }

  /** `states` is the path that `actions` take from its first state. */
  ghost predicate IsPath(states: seq<State>, actions: seq<Action>) {
    && |states| == |actions| + 1
    && forall i {:trigger actions[i]} :: 0 <= i < |actions| ==>
         Enabled(states[i], actions[i]) && states[i + 1] == Step(states[i], actions[i])
  }

  ghost predicate IsRun(states: seq<State>, actions: seq<Action>) {
    IsPath(states, actions) && states[0] == INITIAL
  }

  ghost predicate Reachable(s: State) {
    exists states, actions :: IsRun(states, actions) && states[|actions|] == s
  }
}
