/** What becomes of what the callers of Send and DeclareExchange give, and what a Start begins with,
    over whole runs. */
module ProducerHistories {
  import opened HareErrors
  import opened Connection
  import opened ProducerProtocol
  import opened ProducerSafety
  import opened ProducerTheorems

  // ---- A caller passes on what it was given ----

  /** The call a thread still works on. */
  predicate WorksOn(p: CallerPc, id: nat, a: Action) {
    match p
    case Adding(x, key, m) => a == BeginSend(id, x, key, m)
    case Enqueuing(x, key, m) => a == BeginSend(id, x, key, m)
    case DeclaringExchange(x, kind) => a == BeginDeclare(id, x, kind)
    case Done(_) => false
  }

  lemma {:induction false} WorksOnItsCall(states: seq<State>, actions: seq<Action>, j: nat, id: nat) returns (k: nat)
    requires IsRun(states, actions) && j <= |actions| && id in states[j].callers && !states[j].callers[id].Done?
    ensures k < j && WorksOn(states[j].callers[id], id, actions[k])
  {
    hide IsRun, IsPath, Step, Enabled;
    if j == 0 {
      NobodyAtStart(states, actions);
    } else {
      StepOfRun(states, actions, j - 1);
      if id !in states[j - 1].callers {
        NewCaller(states[j - 1], actions[j - 1], id);
        k := j - 1;
      } else {
        GoesOn(states[j - 1], actions[j - 1], id);
        k := WorksOnItsCall(states, actions, j - 1, id);
      }
    }
  }

  lemma NobodyAtStart(states: seq<State>, actions: seq<Action>)
    requires IsRun(states, actions)
    ensures states[0].callers == map[] && states[0].registry == INITIAL.registry && states[0].queue == INITIAL.queue
  {
  }

  lemma NewCaller(s: State, a: Action, id: nat)
    requires Enabled(s, a) && id !in s.callers && id in Step(s, a).callers
    ensures WorksOn(Step(s, a).callers[id], id, a)
  {
    hide WorkerStep, AddExchange, AddDeclaredExchange, RemoveFront;
    if a.Work? {
      WorkerFrame(s, a.outcome);
    }
  }

  lemma GoesOn(s: State, a: Action, id: nat)
    requires Enabled(s, a) && id in s.callers && id in Step(s, a).callers && !Step(s, a).callers[id].Done?
    ensures !s.callers[id].Done?
    ensures forall begin :: WorksOn(s.callers[id], id, begin) <==> WorksOn(Step(s, a).callers[id], id, begin)
  {
    hide WorkerStep, AddExchange, AddDeclaredExchange, RemoveFront;
    if a.Work? {
      WorkerFrame(s, a.outcome);
    }
  }

  // ---- What is queued is what was sent ----

  /** The threads that have queued a message before step j, in the order they did. */
  function QueuedBy(states: seq<State>, actions: seq<Action>, j: nat): seq<nat>
    requires j <= |actions| && |states| == |actions| + 1
  {
    if j == 0 then []
    else QueuedBy(states, actions, j - 1) + (if Queues(states[j - 1], actions[j - 1]) then [actions[j - 1].id] else [])
  }

  /** The message is what an Enqueuing thread holds. */
  predicate BuiltFrom(m: RawMessage, p: CallerPc) {
    p.Enqueuing? && m.exchange == p.exchange && m.routingKey == p.routingKey
    && m.timestamp == p.message.timestamp && m.body == p.message.body
  }

  /** What a step adds to the record of messages queued. */
  predicate RecordsQueued(s: State, a: Action, enqueued: seq<RawMessage>, enqueued': seq<RawMessage>) {
    if Queues(s, a) then
      |enqueued'| == |enqueued| + 1 && enqueued <= enqueued'
      && a.Continue? && a.id in s.callers && BuiltFrom(enqueued'[|enqueued|], s.callers[a.id])
    else enqueued' == enqueued
  }

  lemma EnqueuedStep(s: State, a: Action)
    requires Inv(s) && Enabled(s, a)
    ensures RecordsQueued(s, a, s.queue.enqueued, Step(s, a).queue.enqueued)
  {
    assert Lifecycle(s);
    hide Inv, CallStep, ControlStep, WorkerStep, FreeMessage;
    if a.Work? {
      WorkerQueue(s, a.outcome);
    } else if a.Continue? {
      CallerQueue(s, a.id, a.buffers);
      hide CallerStep;
    } else {
      ControlFrame(s, a);
    }
  }

  lemma {:induction false} EnqueuedCount(states: seq<State>, actions: seq<Action>, j: nat)
    requires IsRun(states, actions) && j <= |actions|
    ensures |states| == |actions| + 1 && |QueuedBy(states, actions, j)| == |states[j].queue.enqueued|
  {
    hide IsRun, IsPath, Step, Enabled, Inv, Queues;
    if j == 0 {
      NobodyAtStart(states, actions);
      RunLength(states, actions);
    } else {
      StepOfRun(states, actions, j - 1);
      EnqueuedCount(states, actions, j - 1);
      InvAlongRun(states, actions, j - 1);
      EnqueuedStep(states[j - 1], actions[j - 1]);
    }
  }

  lemma RunLength(states: seq<State>, actions: seq<Action>)
    requires IsRun(states, actions)
    ensures |states| == |actions| + 1
  {
  }

  /** The message and the call, as far as the caller decides. */
  predicate GivenBy(m: RawMessage, a: Action) {
    && a.BeginSend? && m.exchange == a.exchange && m.routingKey == a.routingKey
    && m.timestamp == a.message.timestamp && m.body == a.message.body
  }

  lemma BuiltIsGiven(m: RawMessage, p: CallerPc, id: nat, a: Action)
    requires BuiltFrom(m, p) && WorksOn(p, id, a)
    ensures GivenBy(m, a) && a.id == id && !p.Done?
  {
  }

  lemma EnqueuingWorks(s: State, a: Action)
    requires Queues(s, a)
    ensures a.Continue? && a.id in s.callers && s.callers[a.id].Enqueuing? && !s.callers[a.id].Done?
  {
  }

  lemma {:induction false} QueuedAsGiven(states: seq<State>, actions: seq<Action>, j: nat, n: nat) returns (k: nat)
    requires IsRun(states, actions) && j <= |actions| && n < |states[j].queue.enqueued|
    ensures |states| == |actions| + 1 && n < |QueuedBy(states, actions, j)|
    ensures k < j && GivenBy(states[j].queue.enqueued[n], actions[k]) && actions[k].id == QueuedBy(states, actions, j)[n]
  {
    EnqueuedCount(states, actions, j);
    hide IsRun, IsPath, Step, Enabled, Inv, Queues, GivenBy, BuiltFrom, WorksOn;
    if j == 0 {
      NobodyAtStart(states, actions);
    } else {
      var s, a := states[j - 1], actions[j - 1];
      EnqueuedCount(states, actions, j - 1);
      StepOfRun(states, actions, j - 1);
      InvAlongRun(states, actions, j - 1);
      EnqueuedStep(s, a);
      if n < |s.queue.enqueued| {
        k := QueuedAsGiven(states, actions, j - 1, n);
      } else {
        EnqueuingWorks(s, a);
        k := WorksOnItsCall(states, actions, j - 1, a.id);
        BuiltIsGiven(states[j].queue.enqueued[n], s.callers[a.id], a.id, actions[k]);
      }
    }
  }

  /** On every run, the n-th message ever queued is that of the n-th Send to queue one: the call, step
      k, gave its exchange, its routing key, its timestamp if any, and its body. */
  lemma EnqueuedAsSent(states: seq<State>, actions: seq<Action>, j: nat, n: nat) returns (k: nat)
    requires IsRun(states, actions) && j <= |actions| && n < |states[j].queue.enqueued|
    ensures |states| == |actions| + 1 && n < |QueuedBy(states, actions, j)|
    ensures k < j && actions[k].BeginSend? && actions[k].id == QueuedBy(states, actions, j)[n]
    ensures var m := states[j].queue.enqueued[n];
            && m.exchange == actions[k].exchange && m.routingKey == actions[k].routingKey
            && m.timestamp == actions[k].message.timestamp && m.body == actions[k].message.body
  {
    k := QueuedAsGiven(states, actions, j, n);
    hide IsRun, QueuedBy;
  }

  lemma CallerStays(s: State, a: Action, id: nat)
    requires Enabled(s, a) && id in s.callers
    ensures id in Step(s, a).callers
    ensures s.callers[id].Done? ==> Step(s, a).callers[id] == s.callers[id]
    ensures Queues(s, a) && a.id == id ==> !s.callers[id].Done? && Step(s, a).callers[id] == Done(AllGood)
  {
    hide WorkerStep, AddExchange, AddDeclaredExchange, RemoveFront;
    if a.Work? {
      WorkerFrame(s, a.outcome);
    }
  }

  /** The threads are different ones, and have returned. */
  ghost predicate OnceEach(ids: seq<nat>, callers: map<nat, CallerPc>) {
    && (forall m, n :: 0 <= m < n < |ids| ==> ids[m] != ids[n])
    && (forall n :: 0 <= n < |ids| ==> ids[n] in callers && callers[ids[n]].Done?)
  }

  lemma OnceMore(s: State, a: Action, ids: seq<nat>)
    requires Enabled(s, a) && OnceEach(ids, s.callers)
    ensures OnceEach(ids + (if Queues(s, a) then [a.id] else []), Step(s, a).callers)
  {
    hide Enabled, Step, Queues;
    forall n | 0 <= n < |ids| ensures ids[n] in Step(s, a).callers && Step(s, a).callers[ids[n]].Done? {
      CallerStays(s, a, ids[n]);
    }
    if Queues(s, a) {
      QueuesForItself(s, a);
      CallerStays(s, a, a.id);
    }
  }

  /** No Send queues more than one message. */
  lemma {:induction false} QueuedOnce(states: seq<State>, actions: seq<Action>, j: nat)
    requires IsRun(states, actions) && j <= |actions|
    ensures |states| == |actions| + 1 && OnceEach(QueuedBy(states, actions, j), states[j].callers)
  {
    hide IsRun, IsPath, Step, Enabled, Queues;
    if j == 0 {
      RunLength(states, actions);
    } else {
      StepOfRun(states, actions, j - 1);
      QueuedOnce(states, actions, j - 1);
      hide OnceEach;
      OnceMore(states[j - 1], actions[j - 1], QueuedBy(states, actions, j - 1));
    }
  }

  lemma QueuesForItself(s: State, a: Action)
    requires Queues(s, a)
    ensures a.Continue? && a.id in s.callers && !s.callers[a.id].Done?
  {
  }

  /** A Send that has returned ALL_GOOD has queued its message. */
  lemma {:induction false} SendIsQueued(states: seq<State>, actions: seq<Action>, k: nat, j: nat)
    requires IsRun(states, actions) && k < j <= |actions| && actions[k].BeginSend?
    ensures |states| == |actions| + 1 && actions[k].id in states[j].callers
    ensures var p := states[j].callers[actions[k].id];
            p.Adding? || p.Enqueuing? || (p.Done? && (p.ret == AllGood ==> actions[k].id in QueuedBy(states, actions, j)))
    decreases j
  {
    hide IsRun, IsPath, Step, Enabled, Inv, Queues;
    StepOfRun(states, actions, j - 1);
    if k == j - 1 {
      SendBegins(states[k], actions[k]);
    } else {
      SendIsQueued(states, actions, k, j - 1);
      assert Allocated(states[j - 1].registry) by {
        InvAlongRun(states, actions, j - 1);
        AllocatedIn(states[j - 1]);
      }
      SendGoesOn(states[j - 1], actions[j - 1], actions[k].id);
    }
  }

  lemma AllocatedIn(s: State)
    requires Inv(s)
    ensures Allocated(s.registry)
  {
  }

  lemma SendBegins(s: State, a: Action)
    requires Enabled(s, a) && a.BeginSend?
    ensures a.id in Step(s, a).callers && Step(s, a).callers[a.id].Adding?
  {
  }

  lemma SendGoesOn(s: State, a: Action, id: nat)
    requires Enabled(s, a) && id in s.callers && !s.callers[id].DeclaringExchange? && Allocated(s.registry)
    ensures id in Step(s, a).callers
    ensures var p, p' := s.callers[id], Step(s, a).callers[id];
            || p' == p
            || (p.Adding? && p'.Enqueuing?)
            || (p.Enqueuing? && p' == Done(AllGood) && Queues(s, a) && a.id == id)
  {
    hide WorkerStep, AddDeclaredExchange, RemoveFront, Allocated;
    if a.Work? {
      WorkerFrame(s, a.outcome);
    } else if a.Continue? && s.callers[a.id].Adding? {
      AddAllocates(s.registry, s.callers[a.id].exchange);
      hide AddExchange;
    }
  }

  /** The n-th message queued, wherever it now is. */
  lemma MessageAt(q: SendQueue, n: nat) returns (m: RawMessage)
    requires Conserved(q) && n < |q.enqueued|
    ensures if n < |q.handled| then m == q.handled[n].message
            else n < |q.handled| + |q.messages| && m == q.messages[n - |q.handled|]
    ensures var sent := q.enqueued[n];
            && m.exchange == sent.exchange && m.routingKey == sent.routingKey && m.body == sent.body
            && m.timestamp == if sent.timestamp.Some? then sent.timestamp
                              else if n in q.firstTry then Some(q.firstTry[n]) else None
  {
    m := if n < |q.handled| then q.handled[n].message else q.messages[n - |q.handled|];
    assert n >= |q.handled| ==> IsMessage(q.enqueued, q.firstTry, |q.handled| + (n - |q.handled|), m);
  }

  lemma ConservedAlong(states: seq<State>, actions: seq<Action>, j: nat)
    requires IsRun(states, actions) && j <= |actions|
    ensures |states| == |actions| + 1 && Conserved(states[j].queue)
  {
    RunLength(states, actions);
    InvAlongRun(states, actions, j);
    hide IsRun, Conserved, Lifecycle, Epochs, Routing, HeadStable, BuffersOwned, FlagSound, WalksList, AnswersSound, WireSound;
  }

  /** Wherever the n-th message queued now is, it is what some Send gave: its timestamp is the user's if
      one was given, else that of its first connected publish attempt, else none. */
  lemma MessageAsSent(states: seq<State>, actions: seq<Action>, j: nat, n: nat) returns (k: nat, m: RawMessage)
    requires IsRun(states, actions) && j <= |actions| && n < |states[j].queue.enqueued|
    ensures var q := states[j].queue;
            if n < |q.handled| then m == q.handled[n].message
            else n < |q.handled| + |q.messages| && m == q.messages[n - |q.handled|]
    ensures k < j && actions[k].BeginSend?
    ensures m.exchange == actions[k].exchange && m.routingKey == actions[k].routingKey && m.body == actions[k].message.body
    ensures m.timestamp == if actions[k].message.timestamp.Some? then actions[k].message.timestamp
                           else if n in states[j].queue.firstTry then Some(states[j].queue.firstTry[n]) else None
  {
    hide *;
    ConservedAlong(states, actions, j);
    k := EnqueuedAsSent(states, actions, j, n);
    m := MessageAt(states[j].queue, n);
  }

  /** And so is everything the broker ever took: the i-th message it took is that of the n-th Send to
      queue one, n being at[i], which rises with i. It went out with the user's timestamp or, without
      one, that of its first connected attempt. */
  lemma AcceptedAsSent(states: seq<State>, actions: seq<Action>, j: nat, i: nat) returns (at: seq<nat>, k: nat)
    requires IsRun(states, actions) && j <= |actions| && i < |states[j].queue.accepted|
    ensures |at| == |states[j].queue.accepted| && forall a, b :: 0 <= a < b < |at| ==> at[a] < at[b]
    ensures |states| == |actions| + 1 && at[i] < |QueuedBy(states, actions, j)|
    ensures k < j && actions[k].BeginSend? && actions[k].id == QueuedBy(states, actions, j)[at[i]]
    ensures var m, sent := states[j].queue.accepted[i], actions[k];
            && m.exchange == sent.exchange && m.routingKey == sent.routingKey && m.body == sent.message.body
            && (sent.message.timestamp.Some? ==> m.timestamp == sent.message.timestamp)
            && (sent.message.timestamp.None? ==>
                  at[i] in states[j].queue.firstTry && m.timestamp == Some(states[j].queue.firstTry[at[i]]))
  {
    hide *;
    RunLength(states, actions);
    PrefixReachable(states, actions, j);
    at := AcceptedIsSubsequence(states[j]);
    k := EnqueuedAsSent(states, actions, j, at[i]);
    var q := states[j].queue;
    StampedAsSent(q.enqueued, q.firstTry, at[i], q.accepted[i]);
  }

  lemma StampedAsSent(enqueued: seq<RawMessage>, firstTry: map<nat, int>, n: nat, m: RawMessage)
    requires n < |enqueued| && n in firstTry && IsMessage(enqueued, firstTry, n, m)
    ensures m.exchange == enqueued[n].exchange && m.routingKey == enqueued[n].routingKey && m.body == enqueued[n].body
    ensures m.timestamp == if enqueued[n].timestamp.Some? then enqueued[n].timestamp else Some(firstTry[n])
  {
  }

  lemma PrefixReachable(states: seq<State>, actions: seq<Action>, j: nat)
    requires IsRun(states, actions) && j <= |actions|
    ensures Reachable(states[j])
  {
    var states', actions' := states[..j + 1], actions[..j];
    forall i | 0 <= i < |actions'| ensures Enabled(states'[i], actions'[i]) && states'[i + 1] == Step(states'[i], actions'[i]) {
      StepOfRun(states, actions, i);
    }
    hide Step, Enabled;
    assert IsRun(states', actions') && states'[|actions'|] == states[j];
  }

  // ---- What is declared is what DeclareExchange was called for ----

  predicate Marks(s: State, a: Action, exchange: string) {
    a.Continue? && a.id in s.callers && s.callers[a.id].DeclaringExchange? && s.callers[a.id].exchange == exchange
  }

  /** The type of the last DeclareExchange for the exchange. */
  function LastType(states: seq<State>, actions: seq<Action>, exchange: string, j: nat): Option<string>
    requires j <= |actions| && |states| == |actions| + 1
  {
    if j == 0 then None
    else if Marks(states[j - 1], actions[j - 1], exchange) then Some(states[j - 1].callers[actions[j - 1].id].kind)
    else LastType(states, actions, exchange, j - 1)
  }

  /** An exchange as the list has it: marked with the given type, or not marked. */
  predicate ListedAs(r: Registry, exchange: string, kind: Option<string>) {
    match kind
    case Some(k) => exchange in r.exchanges && r.exchanges[exchange].isDeclare && r.exchanges[exchange].kind == k
    case None =>
      exchange in r.exchanges ==> !r.exchanges[exchange].isDeclare && r.exchanges[exchange].kind == "direct"
  }

  lemma AddMarksNone(r: Registry, x: string, exchange: string, kind: Option<string>)
    requires ListedAs(r, exchange, kind)
    ensures ListedAs(AddExchange(r, x), exchange, kind)
  {
  }

  lemma DeclareMarksOne(r: Registry, x: string, k: string, exchange: string, kind: Option<string>)
    requires ListedAs(r, exchange, kind)
    ensures ListedAs(AddDeclaredExchange(r, x, k), exchange, if x == exchange then Some(k) else kind)
  {
  }

  lemma MarkStep(s: State, a: Action, exchange: string, kind: Option<string>)
    requires Inv(s) && Enabled(s, a) && ListedAs(s.registry, exchange, kind)
    ensures ListedAs(Step(s, a).registry, exchange,
                     if Marks(s, a, exchange) then Some(s.callers[a.id].kind) else kind)
  {
    assert Lifecycle(s);
    hide Inv, WorkerStep, CallStep, ControlStep, AddExchange, AddDeclaredExchange, ListedAs;
    if a.Work? {
      WorkerFrame(s, a.outcome);
    } else if a.Continue? {
      match s.callers[a.id] {
        case Adding(x, _, _) => AddMarksNone(s.registry, x, exchange, kind);
        case DeclaringExchange(x, k) => DeclareMarksOne(s.registry, x, k, exchange, kind);
        case _ =>
      }
    } else {
      ControlFrame(s, a);
    }
  }

  lemma {:induction false} ListedAlong(states: seq<State>, actions: seq<Action>, exchange: string, j: nat)
    requires IsRun(states, actions) && j <= |actions|
    ensures |states| == |actions| + 1
    ensures ListedAs(states[j].registry, exchange, LastType(states, actions, exchange, j))
  {
    hide IsRun, IsPath, Step, Enabled, Inv, Marks;
    if j == 0 {
      NobodyAtStart(states, actions);
      RunLength(states, actions);
    } else {
      StepOfRun(states, actions, j - 1);
      ListedAlong(states, actions, exchange, j - 1);
      InvAlongRun(states, actions, j - 1);
      hide ListedAs;
      MarkStep(states[j - 1], actions[j - 1], exchange, LastType(states, actions, exchange, j - 1));
    }
  }

  /** On every run, an exchange is to be declared if and only if some DeclareExchange was called for it,
      and then with the type of the last one; a Send marks none. */
  lemma MarkedAsDeclared(states: seq<State>, actions: seq<Action>, exchange: string, j: nat)
    requires IsRun(states, actions) && j <= |actions|
    ensures |states| == |actions| + 1
    ensures var r, given := states[j].registry.exchanges, LastType(states, actions, exchange, j);
            && (exchange in r && r[exchange].isDeclare <==> given.Some?)
            && (given.Some? ==> r[exchange].kind == given.value)
            && (given.None? && exchange in r ==> r[exchange].kind == "direct")
  {
    ListedAlong(states, actions, exchange, j);
    hide IsRun, LastType;
  }

  /** And the type of that step is the one given to DeclareExchange. */
  lemma MarkWasGiven(states: seq<State>, actions: seq<Action>, exchange: string, j: nat) returns (k: nat)
    requires IsRun(states, actions) && j < |actions| && |states| == |actions| + 1 && Marks(states[j], actions[j], exchange)
    ensures k < j && actions[k] == BeginDeclare(actions[j].id, exchange, states[j].callers[actions[j].id].kind)
  {
    k := WorksOnItsCall(states, actions, j, actions[j].id);
  }

  // ---- What a Start begins with ----

  /** Unless the thread runs, or is being stopped, the flag is clear. */
  predicate FlagCleared(s: State) {
    match s.control
    case Idle(_) => !s.running ==> !s.channelsConnected
    case ClearingFlag(_) => true
    case Joining(_) => true
    case Unflagging(_) => true
    case _ => !s.channelsConnected
  }

  lemma FlagClearedStep(s: State, a: Action)
    requires Lifecycle(s) && FlagCleared(s) && Enabled(s, a)
    ensures FlagCleared(Step(s, a))
  {
    hide RemoveFront, OnClose;
    if a.Work? {
      hide WorkerStep;
      WorkerFrame(s, a.outcome);
    } else if a.Continue? {
      hide CallerStep;
      CallerFrame(s, a.id, a.buffers);
    }
  }

  lemma {:induction false} FlagClearedAlong(states: seq<State>, actions: seq<Action>, j: nat)
    requires IsRun(states, actions) && j <= |actions|
    ensures FlagCleared(states[j])
  {
    hide IsRun, IsPath, Step, Enabled, Inv, FlagCleared;
    if j == 0 {
      ClearAtStart(states, actions);
    } else {
      StepOfRun(states, actions, j - 1);
      FlagClearedAlong(states, actions, j - 1);
      InvAlongRun(states, actions, j - 1);
      LifecycleIn(states[j - 1]);
      FlagClearedStep(states[j - 1], actions[j - 1]);
    }
  }

  lemma ClearAtStart(states: seq<State>, actions: seq<Action>)
    requires IsRun(states, actions)
    ensures FlagCleared(states[0])
  {
  }

  lemma LifecycleIn(s: State)
    requires Inv(s)
    ensures Lifecycle(s)
  {
  }

  /** A stopped producer has its flag clear, whatever the broker and the callers did. */
  lemma StoppedMeansFlagClear(s: State)
    requires Reachable(s) && (s.control.Idle? || s.control.Spawning? || s.control.Starting? || s.control.Gone?)
    requires s.control.Idle? ==> !s.running
    ensures !s.channelsConnected
  {
    var states, actions :| IsRun(states, actions) && states[|actions|] == s;
    FlagClearedAlong(states, actions, |actions|);
  }

  /** No pass has begun since the start, so nothing is published but by a thread being stopped. */
  predicate NoPassYet(s: State) {
    && !s.channelsConnected
    && (|| s.worker.NoThread? || s.worker.LoopTest? || s.worker.ConnectedTest? || s.worker.Connecting?
        || s.worker.FlagTest? || s.worker.PassConnectedTest? || s.worker.PassRunningTest? || s.worker.Locking?
        || (!s.running && !MutexHeld(s.worker) && !s.worker.PassClosing?))
  }

  lemma NoPassStep(s: State, a: Action)
    requires Inv(s) && NoPassYet(s) && Enabled(s, a) && !(a.Work? && s.worker.Locking?)
    ensures NoPassYet(Step(s, a))
  {
    assert Lifecycle(s) && Epochs(s);
    hide Inv, WorkerStep, CallerStep, CallStep, ControlStep;
    if a.Work? {
      NoPassWorkerStep(s, a.outcome);
      hide NoPassYet;
    } else if a.Continue? {
      CallerFrame(s, a.id, a.buffers);
    } else {
      NoPassControlStep(s, a);
      hide NoPassYet;
    }
  }

  lemma NoPassControlStep(s: State, a: Action)
    requires Lifecycle(s) && NoPassYet(s) && Enabled(s, a) && !a.Work? && !a.Continue?
    ensures NoPassYet(Step(s, a))
  {
    hide RemoveFront, OnClose, WorkerStep, CallerStep;
  }

  lemma NoPassWorkerStep(s: State, o: Outcome)
    requires NoPassYet(s) && Epochs(s) && !s.worker.Locking?
    ensures NoPassYet(WorkerStep(s, o))
  {
    WorkerPhases(s, o);
    if Simple(s.worker) {
      hide WorkerStep, OnConnect, OnClose;
    } else {
      QueueStepFrame(s, o);
      NoClosing(s, o);
      WorkerFrame(s, o);
      hide WorkerStep;
    }
  }

  lemma NoClosing(s: State, o: Outcome)
    requires s.worker.Publishing? || s.worker.Popping? || s.worker.Dropping?
    ensures !WorkerStep(s, o).worker.PassClosing?
  {
    hide TryFront, RemoveFront, Stamped;
  }

  ghost predicate PassBegins(states: seq<State>, actions: seq<Action>, k: nat)
    requires k < |actions| && |states| == |actions| + 1
  {
    actions[k].Work? && states[k].worker.Locking?
  }

  lemma {:induction false} NoPassAlong(states: seq<State>, actions: seq<Action>, i: nat, j: nat)
    requires IsRun(states, actions) && i < j <= |actions| && |states| == |actions| + 1
    requires actions[i] == ContinueCall && states[i].control.Spawning?
    requires forall k: nat :: i < k < j ==> !PassBegins(states, actions, k)
    ensures NoPassYet(states[j])
    decreases j
  {
    hide IsRun, IsPath, Step, Enabled, Inv, NoPassYet;
    StepOfRun(states, actions, j - 1);
    if i == j - 1 {
      FlagClearedAlong(states, actions, i);
      SpawnStep(states[i]);
    } else {
      NoPassAlong(states, actions, i, j - 1);
      InvAlongRun(states, actions, j - 1);
      assert !PassBegins(states, actions, j - 1);
      NoPassStep(states[j - 1], actions[j - 1]);
    }
  }

  lemma SpawnStep(s: State)
    requires Enabled(s, ContinueCall) && s.control.Spawning? && FlagCleared(s)
    ensures NoPassYet(Step(s, ContinueCall))
  {
  }

  /** After a Start, a running producer publishes nothing before a pass over the exchanges has begun; and
      on the first connection after it, that pass began on this very connection. */
  lemma NothingPublishedBeforePass(states: seq<State>, actions: seq<Action>, i: nat, j: nat) returns (k: nat)
    requires IsRun(states, actions) && i < j <= |actions| && |states| == |actions| + 1
    requires actions[i] == ContinueCall && states[i].control.Spawning?
    requires states[j].worker.Publishing? && states[j].running
    ensures i < k < j && PassBegins(states, actions, k)
    ensures states[j].conn.established == states[i].conn.established + 1 ==> states[k].conn == states[j].conn
  {
    if forall k: nat :: i < k < j ==> !PassBegins(states, actions, k) {
      NoPassAlong(states, actions, i, j);
      hide IsRun, PassBegins;
      assert false;
    } else {
      k :| i < k < j && PassBegins(states, actions, k);
      InvAlongRun(states, actions, i);
      InvAlongRun(states, actions, k);
      InvAlongRun(states, actions, j);
      EstablishedRises(states, actions, k, j);
      ConnectedSince(states, actions, i, k);
      SameConnection(states[k].conn, states[j].conn);
      hide IsRun, PassBegins, WellBracketed, Routing, Conserved, FlagSound, AnswersSound, WireSound, BuffersOwned, WalksList;
    }
  }

  lemma SameConnection(c: Conn, d: Conn)
    ensures WellBracketed(c) && WellBracketed(d) && c.connected && d.connected && c.established == d.established ==> c == d
  {
  }

  /** Between a disconnected and a later connected state a connection was made. */
  lemma {:induction false} ConnectedSince(states: seq<State>, actions: seq<Action>, i: nat, k: nat)
    requires IsRun(states, actions) && i <= k <= |actions| && !states[i].conn.connected
    ensures states[k].conn.connected ==> states[k].conn.established > states[i].conn.established
    decreases k
  {
    hide *;
    if i < k {
      StepOfRun(states, actions, k - 1);
      ConnectedSince(states, actions, i, k - 1);
      EstablishedRises(states, actions, i, k - 1);
      EstablishedRises(states, actions, k - 1, k);
      InvAlongRun(states, actions, k - 1);
      if !states[k - 1].conn.connected && states[k].conn.connected {
        ConnectsAnew(states[k - 1], actions[k - 1]);
      }
    }
  }

  lemma ConnectsAnew(s: State, a: Action)
    requires Inv(s) && Enabled(s, a) && !s.conn.connected && Step(s, a).conn.connected
    ensures Step(s, a).conn.established > s.conn.established
  {
    OpenStep(s, a, 0);
    hide Step, Inv;
  }
}
