/** Theorems about every run of the producer. */
module ProducerTheorems {
  import opened HareErrors
  import opened Connection
  import opened ProducerProtocol
  import opened ProducerSafety

  lemma InvAtStart(states: seq<State>, actions: seq<Action>)
    requires IsRun(states, actions)
    ensures Inv(states[0])
  {
    assert Inv(INITIAL);
  }

  lemma StepOfRun(states: seq<State>, actions: seq<Action>, i: nat)
    requires IsRun(states, actions) && i < |actions|
    ensures |states| == |actions| + 1
    ensures Enabled(states[i], actions[i]) && states[i + 1] == Step(states[i], actions[i])
  {
    hide Enabled, Step;
    assert actions[i] == actions[i];
  }

  lemma {:induction false} InvAlongRun(states: seq<State>, actions: seq<Action>, i: nat)
    requires IsRun(states, actions) && i <= |actions|
    ensures Inv(states[i])
  {
    hide *;
    if i == 0 {
      InvAtStart(states, actions);
    } else {
      StepOfRun(states, actions, i - 1);
      InvAlongRun(states, actions, i - 1);
      InvKept(states[i - 1], actions[i - 1]);
    }
  }

  lemma InvHolds(s: State)
    requires Reachable(s)
    ensures Inv(s)
  {
    var states, actions :| IsRun(states, actions) && states[|actions|] == s;
    InvAlongRun(states, actions, |actions|);
  }

  lemma RunExtends(states: seq<State>, actions: seq<Action>, a: Action)
    requires IsRun(states, actions) && Enabled(states[|actions|], a)
    ensures IsRun(states + [Step(states[|actions|], a)], actions + [a])
  {
    hide Step;
    var states', actions' := states + [Step(states[|actions|], a)], actions + [a];
    forall i | 0 <= i < |actions'|
      ensures Enabled(states'[i], actions'[i]) && states'[i + 1] == Step(states'[i], actions'[i])
    {
      if i < |actions| {
        assert actions'[i] == actions[i];
      }
    }
  }

  lemma Go(s: State, a: Action) returns (s': State)
    requires Reachable(s) && Enabled(s, a)
    ensures Reachable(s') && s' == Step(s, a)
  {
    hide Step;
    var states, actions :| IsRun(states, actions) && states[|actions|] == s;
    RunExtends(states, actions, a);
    s' := Step(s, a);
    assert (states + [s'])[|actions + [a]|] == s';
  }

  // ---- Conservation and order ----

  /** Messages without their timestamps, the only field the library may fill in. */
  function Unstamped(messages: seq<RawMessage>): (r: seq<RawMessage>)
    ensures |r| == |messages| && forall i :: 0 <= i < |r| ==> r[i] == messages[i].(timestamp := None)
  {
    seq(|messages|, i requires 0 <= i < |messages| => messages[i].(timestamp := None))
  }

  function Messages(handled: seq<Handled>): (r: seq<RawMessage>)
    ensures |r| == |handled| && forall i :: 0 <= i < |r| ==> r[i] == handled[i].message
  {
    seq(|handled|, i requires 0 <= i < |handled| => handled[i].message)
  }

  /** What entered the queue is what left it, published or dropped, followed by what is in it. */
  lemma SendQueueConserved(s: State)
    requires Reachable(s)
    ensures Unstamped(s.queue.enqueued) == Unstamped(Messages(s.queue.handled)) + Unstamped(s.queue.messages)
  {
    var q := s.queue;
    assert Conserved(q) by {
      InvHolds(s);
    }
    hide Reachable;
    forall i | 0 <= i < |q.enqueued|
      ensures q.enqueued[i].(timestamp := None) == (Unstamped(Messages(q.handled)) + Unstamped(q.messages))[i]
    {
      if i < |q.handled| {
        assert IsMessage(q.enqueued, q.firstTry, i, q.handled[i].message);
      } else {
        assert IsMessage(q.enqueued, q.firstTry, |q.handled| + (i - |q.handled|), q.messages[i - |q.handled|]);
      }
    }
  }

  /** Where the published messages stand among the handled ones. */
  function PublishedAt(handled: seq<Handled>): (at: seq<nat>)
    ensures |at| == |Published(handled)|
    ensures forall k :: 0 <= k < |at| ==> at[k] < |handled| && handled[at[k]] == Handled(Published(handled)[k], true)
    ensures forall j, k :: 0 <= j < k < |at| ==> at[j] < at[k]
  {
    if handled == [] then []
    else
      var n := |handled| - 1;
      PublishedAt(handled[..n]) + (if handled[n].published then [n] else [])
  }

  /** The broker took messages in the order they were sent, each at most once: the k-th accepted
      message is the at[k]-th sent, stamped, and `at` strictly increases. */
  lemma AcceptedIsSubsequence(s: State) returns (at: seq<nat>)
    requires Reachable(s)
    ensures |at| == |s.queue.accepted|
    ensures forall k :: 0 <= k < |at| ==>
              && at[k] < |s.queue.enqueued| && at[k] in s.queue.firstTry
              && IsMessage(s.queue.enqueued, s.queue.firstTry, at[k], s.queue.accepted[k])
    ensures forall j, k :: 0 <= j < k < |at| ==> at[j] < at[k]
  {
    InvHolds(s);
    var q := s.queue;
    at := PublishedAt(q.handled);
    if s.worker.Popping? {
      assert IsMessage(q.enqueued, q.firstTry, |q.handled| + 0, q.messages[0]);
      at := at + [|q.handled|];
    }
  }

  /** Messages are dropped only by closeConnection or Stop, once the connection is down, and leave
      one at a time from the front. */
  lemma DropsOnlyWhenClosed(s: State, a: Action)
    requires Reachable(s) && Enabled(s, a)
    ensures var q, q' := s.queue, Step(s, a).queue;
            || q'.handled == q.handled
            || (q.messages != [] && q'.handled == q.handled + [Handled(q.messages[0], true)]
                && a.Work? && s.worker.Popping?)
            || (q.messages != [] && q'.handled == q.handled + [Handled(q.messages[0], false)] && !s.conn.connected
                && ((a.Work? && s.worker.Dropping?) || (a.ContinueCall? && s.control.Draining?)))
  {
    InvHolds(s);
    StepQueue(s, a);
    hide Step, FreeMessage;
  }

  /** Everything a step can do to the send queue. */
  lemma StepQueue(s: State, a: Action)
    requires Inv(s) && Enabled(s, a)
    ensures var q, q' := s.queue, Step(s, a).queue;
            || q' == q
            || (a.Continue? && exists m :: q' == Enqueue(q, m))
            || (q.messages != [] && a.Work? && s.worker.Publishing? && s.conn.connected
                && q' == TryFront(q, a.outcome.now, NoError(a.outcome.err)))
            || (q.messages != [] && a.Work? && s.worker.Popping? && q' == RemoveFront(q, true))
            || (q.messages != [] && q' == RemoveFront(q, false) && !s.conn.connected
                && ((a.Work? && s.worker.Dropping?) || (a.ContinueCall? && s.control.Draining?)))
  {
    hide WorkerStep, CallerStep, CallStep, ControlStep, Enqueue, TryFront, RemoveFront;
    if a.Work? {
      WorkerQueue(s, a.outcome);
    } else if a.Continue? {
      CallerQueue(s, a.id, a.buffers);
    } else {
      ControlFrame(s, a);
    }
  }

  // ---- Head stability ----

  /** While the publisher works on the front without the mutex, the other threads only append. */
  lemma OthersOnlyAppend(s: State, a: Action)
    requires Reachable(s) && Enabled(s, a) && !a.Work? && !s.worker.NoThread?
    ensures s.queue.messages <= Step(s, a).queue.messages
    ensures Step(s, a).queue.handled == s.queue.handled
  {
    InvHolds(s);
    if a.Continue? {
      hide CallerStep;
      CallerQueue(s, a.id, a.buffers);
    } else {
      hide Step;
      ControlFrame(s, a);
    }
  }

  /** The message freed and popped after a successful publish is the one just published. */
  lemma PopsWhatWasPublished(s: State, o: Outcome)
    requires Reachable(s) && s.worker.Popping?
    ensures s.queue.messages != [] && s.queue.messages[0] == s.worker.sent
    ensures s.queue.accepted != [] && s.queue.accepted[|s.queue.accepted| - 1] == s.worker.sent
    ensures WorkerStep(s, o).queue.handled == s.queue.handled + [Handled(s.worker.sent, true)]
    ensures WorkerStep(s, o).queue.messages == s.queue.messages[1..]
  {
    InvHolds(s);
  }

  // ---- Channels and routing ----

  /** Distinct exchanges have distinct channels, which are exactly 1..curChannel-1, and every queued
      message carries its exchange's channel. */
  lemma ChannelsAndRouting(s: State)
    requires Reachable(s)
    ensures forall x, y :: x in s.registry.exchanges && y in s.registry.exchanges && x != y ==>
              s.registry.exchanges[x].channel != s.registry.exchanges[y].channel
    ensures forall x :: x in s.registry.exchanges ==> 1 <= s.registry.exchanges[x].channel < s.registry.curChannel
    ensures |s.registry.order| == s.registry.curChannel - 1
    ensures forall i :: 0 <= i < |s.registry.order| ==>
              s.registry.order[i] in s.registry.exchanges && s.registry.exchanges[s.registry.order[i]].channel == i + 1
    ensures AllRouted(s.registry, s.queue.messages)
  {
    assert Routing(s) by {
      InvHolds(s);
    }
    hide Reachable, AllRouted;
    var r := s.registry;
    forall x, y | x in r.exchanges && y in r.exchanges && x != y
      ensures r.exchanges[x].channel != r.exchanges[y].channel
    {
      var i :| 0 <= i < |r.order| && r.order[i] == x;
      var j :| 0 <= j < |r.order| && r.order[j] == y;
    }
  }

  /** Along a run no exchange is forgotten or renumbered, not even by a restart. */
  lemma {:induction false} ChannelsNeverChange(states: seq<State>, actions: seq<Action>, i: nat, j: nat)
    requires IsRun(states, actions) && i <= j <= |actions|
    ensures Extends(states[i].registry, states[j].registry)
    decreases j
  {
    hide *;
    if i == j {
      ExtendsSelf(states, actions, i);
    } else {
      StepOfRun(states, actions, j - 1);
      ChannelsNeverChange(states, actions, i, j - 1);
      InvAlongRun(states, actions, j - 1);
      InvKept(states[j - 1], actions[j - 1]);
      ExtendsOn(states[i].registry, states[j - 1].registry, states[j].registry);
    }
  }

  lemma ExtendsSelf(states: seq<State>, actions: seq<Action>, i: nat)
    requires IsRun(states, actions) && i <= |actions|
    ensures Extends(states[i].registry, states[i].registry)
  {
  }

  lemma ExtendsOn(r: Registry, r': Registry, r'': Registry)
    requires Extends(r, r') && Extends(r', r'')
    ensures Extends(r, r'')
  {
  }

  // ---- Buffers ----

  lemma {:induction false} OwnedAre(messages: seq<RawMessage>, b: nat)
    ensures b in Owned(messages) <==> exists i :: 0 <= i < |messages| && b in BuffersOf(messages[i])
  {
    if messages != [] {
      OwnedAre(messages[1..], b);
      if i :| 0 <= i < |messages| && b in BuffersOf(messages[i]) {
        assert i > 0 ==> messages[1..][i - 1] == messages[i];
      }
      if i :| 0 <= i < |messages[1..]| && b in BuffersOf(messages[1..][i]) {
        assert messages[i + 1] == messages[1..][i];
      }
    }
  }

  lemma {:induction false} DisjointAre(messages: seq<RawMessage>, i: nat, j: nat)
    requires Disjoint(messages) && i < j < |messages|
    ensures BuffersOf(messages[i]) !! BuffersOf(messages[j]) && |BuffersOf(messages[i])| == 3
  {
    if i > 0 {
      DisjointAre(messages[1..], i - 1, j - 1);
    } else {
      var m := messages[0];
      assert |{m.buffers.exchange, m.buffers.routingKey}| == 2;
      assert BuffersOf(m) == {m.buffers.exchange, m.buffers.routingKey} + {m.buffers.message};
      forall b | b in BuffersOf(messages[j]) ensures b !in BuffersOf(m) {
        assert messages[1..][j - 1] == messages[j];
        OwnedAre(messages[1..], b);
      }
    }
  }

  /** The live buffers are exactly those of the queued messages, no two messages share one, and no
      buffer was ever freed twice. So none is left once the queue is empty. */
  lemma BuffersExactlyQueued(s: State)
    requires Reachable(s)
    ensures s.queue.heap.badFrees == 0
    ensures forall b :: b in s.queue.heap.live <==>
              exists i :: 0 <= i < |s.queue.messages| && b in BuffersOf(s.queue.messages[i])
    ensures forall i, j :: 0 <= i < j < |s.queue.messages| ==>
              BuffersOf(s.queue.messages[i]) !! BuffersOf(s.queue.messages[j])
    ensures s.queue.heap.live == {} <==> s.queue.messages == []
  {
    InvHolds(s);
    var m := s.queue.messages;
    forall b ensures b in s.queue.heap.live <==> exists i :: 0 <= i < |m| && b in BuffersOf(m[i]) {
      OwnedAre(m, b);
    }
    forall i, j | 0 <= i < j < |m| ensures BuffersOf(m[i]) !! BuffersOf(m[j]) {
      DisjointAre(m, i, j);
    }
    assert m != [] ==> m[0].buffers.exchange in BuffersOf(m[0]);
  }

  /** Stop ends with an empty queue and no live buffer. */
  lemma StopFreesAll(s: State)
    requires Reachable(s) && s.control.Draining? && !ControlStep(s).control.Draining?
    ensures ControlStep(s).queue.messages == [] && ControlStep(s).queue.heap.live == {}
    ensures !s.running && !s.conn.connected && s.worker.NoThread?
  {
    assert Lifecycle(s) && BuffersOwned(s.queue) by {
      InvHolds(s);
    }
    hide Reachable, RemoveFront, Disjoint;
  }

  /** Between the destructor's first test and its end: a running producer is being stopped and its
      queue drained; the queue of another is left alone. */
  predicate Destructing(running: bool, queued: seq<RawMessage>, s: State) {
    if running then
      match s.control
      case ClearingFlag(after) => after.ThenDestroy?
      case Joining(after) => after.ThenDestroy?
      case Unflagging(after) => after.ThenDestroy?
      case Closing(after, _) => after.ThenDestroy?
      case Draining(after, _) => after.ThenDestroy?
      case c => (c.Destroying? || c.Gone?) && s.queue.messages == []
    else (s.control.Destroying? || s.control.Gone?) && s.queue.messages == queued
  }

  predicate Queues(s: State, a: Action) {
    a.Continue? && a.id in s.callers && s.callers[a.id].Enqueuing?
  }

  lemma DestructorStep(running: bool, queued: seq<RawMessage>, s: State, a: Action)
    requires Inv(s) && Enabled(s, a) && !Queues(s, a) && Destructing(running, queued, s)
    ensures Destructing(running, queued, Step(s, a))
  {
    assert Lifecycle(s);
    hide WorkerStep, CallerStep, CallStep, ControlStep, RemoveFront, Inv;
    if a.Work? {
      WorkerFrame(s, a.outcome);
    } else if a.Continue? {
      CallerFrame(s, a.id, a.buffers);
      CallerQueue(s, a.id, a.buffers);
    } else if a.ContinueCall? {
      DestructorContinues(running, queued, s);
      hide Destructing;
    }
  }

  lemma DestructorContinues(running: bool, queued: seq<RawMessage>, s: State)
    requires ControlEnabled(s) && Destructing(running, queued, s)
    ensures Destructing(running, queued, ControlStep(s))
  {
    hide RemoveFront, OnClose;
  }

  lemma DestructorBegins(s: State)
    requires Inv(s) && CallEnabled(s, Destroy)
    ensures Destructing(s.running, s.queue.messages, CallStep(s, Destroy))
  {
  }

  lemma {:induction false} DestructorGoesOn(states: seq<State>, actions: seq<Action>, k: nat)
    requires IsPath(states, actions) && 0 < k <= |actions|
    requires Reachable(states[0]) && actions[0] == Call(Destroy)
    requires forall i :: 0 <= i < |actions| ==> !Queues(states[i], actions[i])
    ensures Reachable(states[k]) && Destructing(states[0].running, states[0].queue.messages, states[k])
  {
    hide Step, Enabled, Inv, Reachable, Destructing, Queues, CallEnabled;
    var s, a := states[k - 1], actions[k - 1];
    assert Enabled(s, a) && states[k] == Step(s, a) by {
      assert a == actions[k - 1];
    }
    if k == 1 {
      DestroyStep(s);
      InvHolds(s);
      DestructorBegins(s);
    } else {
      DestructorGoesOn(states, actions, k - 1);
      InvHolds(s);
      DestructorStep(states[0].running, states[0].queue.messages, s, a);
    }
    var s' := Go(s, a);
  }

  lemma DestroyStep(s: State)
    requires Enabled(s, Call(Destroy))
    ensures CallEnabled(s, Destroy) && Step(s, Call(Destroy)) == CallStep(s, Destroy)
  {
  }

  /** Exactly when the destructor leaks: it leaves buffers behind if and only if the producer was not
      running and had messages queued when it was called. (No Send is queueing meanwhile.) */
  lemma DestructorLeaksIffQueued(states: seq<State>, actions: seq<Action>)
    requires IsPath(states, actions) && |actions| > 0
    requires Reachable(states[0]) && actions[0] == Call(Destroy) && states[|actions|].control.Gone?
    requires forall i :: 0 <= i < |actions| ==> !Queues(states[i], actions[i])
    ensures states[|actions|].queue.heap.live != {} <==> !states[0].running && states[0].queue.messages != []
  {
    DestructorGoesOn(states, actions, |actions|);
    BuffersExactlyQueued(states[|actions|]);
  }

  // ---- The channelsConnected flag ----

  /** Exactly when the flag can be trusted: while connected, it means that every exchange's channel is
      open if and only if the pass that set it ran on this connection and none of its declares was
      answered with a channel exception (or there is no exchange). */
  lemma FlagTrustedIffSetHere(s: State)
    requires Reachable(s) && s.channelsConnected && s.conn.connected
    ensures AllOpen(s) <==>
              || s.registry.exchanges == map[]
              || (s.flagEpoch == s.conn.established
                  && forall x :: x in s.registry.exchanges ==> !ClosedByDeclare(s.answers, x))
  {
    assert FlagSound(s) && AnswersSound(s) by {
      InvHolds(s);
    }
    hide Reachable;
    if s.registry.exchanges != map[] {
      assert exists x :: x in s.registry.exchanges;
    }
    if s.flagEpoch == s.conn.established {
      forall x | x in s.registry.exchanges
        ensures s.registry.exchanges[x].channel in s.answers.open <==> !ClosedByDeclare(s.answers, x)
      {
        assert Settled(s.registry, s.answers, x);
      }
    }
  }

  lemma FlagEpochRises(s: State, a: Action)
    requires Inv(s) && Enabled(s, a)
    ensures s.flagEpoch <= Step(s, a).flagEpoch
  {
    hide CallerStep, CallStep, ControlStep, TryFront, RemoveFront, PassPc, TestPc;
    if a.Continue? {
      CallerFrame(s, a.id, a.buffers);
    } else if !a.Work? {
      ControlFrame(s, a);
    }
  }

  lemma {:induction false} FlagEpochRisesAlong(states: seq<State>, actions: seq<Action>, i: nat, j: nat)
    requires IsRun(states, actions) && i <= j <= |actions|
    ensures states[i].flagEpoch <= states[j].flagEpoch
    decreases j
  {
    hide *;
    if i < j {
      StepOfRun(states, actions, j - 1);
      FlagEpochRisesAlong(states, actions, i, j - 1);
      InvAlongRun(states, actions, j - 1);
      FlagEpochRises(states[j - 1], actions[j - 1]);
    }
  }

  /** From the pass that set the flag until its connection is closed, the flag is that pass's. */
  lemma FlagStaysHere(states: seq<State>, actions: seq<Action>, i: nat, j: nat)
    requires IsRun(states, actions) && i < j <= |actions|
    requires actions[i].Work? && states[i].worker == NextExchange([], true) && states[j].conn == states[i].conn
    ensures states[j].conn.connected && states[j].flagEpoch == states[j].conn.established
  {
    assert states[i + 1] == Step(states[i], actions[i]);
    assert states[i + 1].flagEpoch == states[i].conn.established;
    hide Step;
    assert states[i].conn.connected by {
      InvAlongRun(states, actions, i);
    }
    FlagEpochRisesAlong(states, actions, i + 1, j);
    InvAlongRun(states, actions, j);
    hide IsRun, Lifecycle, Epochs, Routing, Conserved, HeadStable, BuffersOwned, WalksList, AnswersSound;
  }

  /** Until then, whatever Send and DeclareExchange did in between, the flag means that every exchange
      in the list was opened on this connection. */
  lemma FlagSoundUntilClose(states: seq<State>, actions: seq<Action>, i: nat, j: nat)
    requires IsRun(states, actions) && i < j <= |actions|
    requires actions[i].Work? && states[i].worker == NextExchange([], true)
    requires states[j].conn == states[i].conn && states[j].channelsConnected
    ensures AllOpened(states[j])
  {
    FlagStaysHere(states, actions, i, j);
    InvAlongRun(states, actions, j);
    hide IsRun, Lifecycle, Epochs, Routing, Conserved, HeadStable, BuffersOwned, WalksList, AnswersSound;
  }

  /** It does not mean that they are declared, though every declare has been answered: while the flag
      is set on the connection of its pass, every exchange to be declared has been, with its present
      type, if and only if no exchange had its last declare refused. */
  lemma FlagMeansDeclaredIff(s: State)
    requires Reachable(s) && s.channelsConnected && s.conn.connected && s.flagEpoch == s.conn.established
    ensures AllDeclared(s) <==> s.answers.refused == map[]
  {
    assert AnswersSound(s) by {
      InvHolds(s);
    }
    hide Reachable;
    forall x | Marked(s.registry, x) ensures Declared(s.registry, s.answers, x) || x in s.answers.refused {
      assert Settled(s.registry, s.answers, x);
    }
    if s.answers.refused != map[] {
      var x :| x in s.answers.refused;
      assert Marked(s.registry, x) && !Declared(s.registry, s.answers, x);
    }
  }

  // ---- What goes to the broker ----

  /** Each call of a pass goes to the broker with the channel, and for a declare the name and the type,
      that the list has for the exchange it walks; only a marked exchange is declared. */
  lemma PassCallsAsListed(s: State, o: Outcome)
    requires Reachable(s) && (s.worker.Opening? || s.worker.Declaring?)
    ensures s.conn.connected && s.worker.exchange in s.registry.exchanges
    ensures var x := s.worker.exchange;
            var p := s.registry.exchanges[x];
            && (s.worker.Declaring? ==> p.isDeclare)
            && WorkerStep(s, o).answers.calls == s.answers.calls
                 + [Sent(if s.worker.Opening? then OpenCall(p.channel) else DeclareExchangeCall(p.channel, x, p.kind), o.err)]
  {
    InvHolds(s);
    assert s.worker.Opening? ==> s.worker.exchange in Remaining(s.worker);
    assert Epochs(s) && WalksList(s);
    hide Reachable, Inv, PassPc;
    CallFrame(s, o.err);
    CallIsSent(s, o.err);
  }

  /** On every connection, each declare follows the accepted open of its exchange's channel. */
  lemma DeclaresFollowOpens(s: State, n: nat)
    requires Reachable(s) && n < |s.answers.calls| && s.answers.calls[n].call.DeclareExchangeCall?
    ensures var DeclareExchangeCall(c, x, kind) := s.answers.calls[n].call;
            && n > 0 && s.answers.calls[n - 1] == Sent(OpenCall(c), AllGood)
            && x in s.registry.exchanges && s.registry.exchanges[x].isDeclare && s.registry.exchanges[x].channel == c
  {
    assert WireSound(s) by {
      InvHolds(s);
    }
    assert AsListed(s.registry, s.answers.calls[n].call) && DeclaredOnceOpen(s.answers.calls, n);
  }

  // ---- Which channels are open ----

  /** A call of the pass on a channel. */
  predicate Calls(s: State, a: Action, c: int) {
    && a.Work? && (s.worker.Opening? || s.worker.Declaring?) && ChannelFor(s.registry, s.worker.exchange) == c
    && s.conn.connected
  }

  /** OpenChannel(c) is answered with success. */
  predicate Opens(s: State, a: Action, c: int) {
    Calls(s, a, c) && s.worker.Opening? && NoError(a.outcome.err)
  }

  /** A call on c is answered with a channel exception. */
  predicate Excepts(s: State, a: Action, c: int) {
    Calls(s, a, c) && a.outcome.err == ChannelException
  }

  /** Step i opens the channel, and up to step j neither is it closed nor the connection. */
  ghost predicate OpenSince(states: seq<State>, actions: seq<Action>, i: nat, j: nat, c: int)
    requires i < j <= |actions| && |states| == |actions| + 1
  {
    && Opens(states[i], actions[i], c) && states[i].conn == states[j].conn
    && forall k {:trigger actions[k]} :: i < k < j ==> !Excepts(states[k], actions[k], c)
  }

  ghost predicate OpenedBefore(states: seq<State>, actions: seq<Action>, j: nat, c: int)
    requires j <= |actions| && |states| == |actions| + 1
  {
    exists i: nat :: i < j && OpenSince(states, actions, i, j, c)
  }

  /** What a step does to an open channel. */
  predicate TouchesOpen(s: State, s': State, opens: bool, excepts: bool, c: int) {
    && s.conn.established <= s'.conn.established
    && (s'.conn == s.conn ==> (c in s'.answers.open <==> opens || (c in s.answers.open && !excepts)))
    && (s'.conn != s.conn ==>
          c !in s'.answers.open && !opens && (s'.conn.connected ==> s.conn.established < s'.conn.established))
  }

  lemma PassTouchesOpen(s: State, o: Outcome, c: int)
    requires MutexHeld(s.worker)
    ensures TouchesOpen(s, PassStep(s, o.err), Opens(s, Work(o), c), Excepts(s, Work(o), c), c)
  {
    hide PassPc, ChannelFor, TypeOf;
  }

  lemma WorkerTouchesOpen(s: State, o: Outcome, c: int)
    requires Epochs(s)
    ensures TouchesOpen(s, WorkerStep(s, o), Opens(s, Work(o), c), Excepts(s, Work(o), c), c)
  {
    WorkerPhases(s, o);
    if MutexHeld(s.worker) {
      PassTouchesOpen(s, o, c);
      hide *;
    } else if !Simple(s.worker) {
      QueueStepFrame(s, o);
      hide WorkerStep, PublishStep, RemoveStep, WellBracketed;
    } else {
      hide WorkerStep, TestPc, WellBracketed;
    }
  }

  lemma OpenStep(s: State, a: Action, c: int)
    requires Inv(s) && Enabled(s, a)
    ensures TouchesOpen(s, Step(s, a), Opens(s, a, c), Excepts(s, a, c), c)
    ensures s.conn.established <= Step(s, a).conn.established
  {
    assert Lifecycle(s) && Epochs(s);
    hide Inv, CallerStep, CallStep, ControlStep, WorkerStep, RemoveFront, WellBracketed;
    if a.Continue? {
      CallerFrame(s, a.id, a.buffers);
    } else if a.Work? {
      WorkerTouchesOpen(s, a.outcome, c);
    } else {
      ControlFrame(s, a);
    }
  }

  lemma {:induction false} EstablishedRises(states: seq<State>, actions: seq<Action>, i: nat, j: nat)
    requires IsRun(states, actions) && i <= j <= |actions|
    ensures states[i].conn.established <= states[j].conn.established
    decreases j
  {
    hide *;
    if i < j {
      StepOfRun(states, actions, j - 1);
      EstablishedRises(states, actions, i, j - 1);
      InvAlongRun(states, actions, j - 1);
      OpenStep(states[j - 1], actions[j - 1], 0);
    }
  }

  /** A new connection is none of the earlier ones. */
  lemma NewConnection(states: seq<State>, actions: seq<Action>, j: nat, c: int)
    requires IsRun(states, actions) && 0 < j <= |actions| && states[j].conn != states[j - 1].conn
    ensures !OpenedBefore(states, actions, j, c)
  {
    var k := j - 1;
    StepOfRun(states, actions, k);
    InvAlongRun(states, actions, k);
    OpenStep(states[k], actions[k], c);
    hide IsRun, Step, Enabled, Inv;
    forall i: nat | i < j && Opens(states[i], actions[i], c) ensures states[i].conn != states[j].conn {
      EstablishedRises(states, actions, i, k);
    }
  }

  /** What the last step adds to a channel's record. */
  lemma OneMoreStep(states: seq<State>, actions: seq<Action>, k: nat, c: int)
    requires k < |actions| && |states| == |actions| + 1 && states[k + 1].conn == states[k].conn
    ensures OpenedBefore(states, actions, k + 1, c) <==>
              || Opens(states[k], actions[k], c)
              || (OpenedBefore(states, actions, k, c) && !Excepts(states[k], actions[k], c))
  {
    hide Opens, Excepts;
    var j := k + 1;
    if OpenedBefore(states, actions, j, c) {
      var i: nat :| i < j && OpenSince(states, actions, i, j, c);
      if i < k {
        assert actions[k] == actions[k];
        assert OpenSince(states, actions, i, k, c);
      }
    }
    if Opens(states[k], actions[k], c) {
      assert OpenSince(states, actions, k, j, c);
    }
    if OpenedBefore(states, actions, k, c) && !Excepts(states[k], actions[k], c) {
      var i: nat :| i < k && OpenSince(states, actions, i, k, c);
      assert OpenSince(states, actions, i, j, c);
    }
  }

  /** On every run a channel counts as open exactly if OpenChannel succeeded on it on this connection,
      and no call on it has been answered with a channel exception since. */
  lemma {:induction false} OpenIffOpened(states: seq<State>, actions: seq<Action>, j: nat, c: int)
    requires IsRun(states, actions) && j <= |actions|
    ensures c in states[j].answers.open <==> OpenedBefore(states, actions, j, c)
  {
    hide Step, Enabled, Inv, Opens, Excepts, OpenedBefore;
    if j == 0 {
      NothingOpened(states, actions, c);
    } else {
      var k := j - 1;
      StepOfRun(states, actions, k);
      OpenIffOpened(states, actions, k, c);
      InvAlongRun(states, actions, k);
      OpenStep(states[k], actions[k], c);
      if states[j].conn != states[k].conn {
        NewConnection(states, actions, j, c);
      } else {
        OneMoreStep(states, actions, k, c);
      }
    }
  }

  lemma NothingOpened(states: seq<State>, actions: seq<Action>, c: int)
    requires |states| == |actions| + 1
    ensures !OpenedBefore(states, actions, 0, c)
  {
  }

  /** A call of the pass for an exchange. */
  predicate CallsFor(s: State, a: Action, exchange: string) {
    a.Work? && (s.worker.Opening? || s.worker.Declaring?) && s.worker.exchange == exchange && s.conn.connected
  }

  /** Its OpenChannel is answered with success. */
  predicate Accepts(s: State, a: Action, exchange: string) {
    CallsFor(s, a, exchange) && s.worker.Opening? && NoError(a.outcome.err)
  }

  /** A call for it is answered with a channel exception. */
  predicate ClosesChannel(s: State, a: Action, exchange: string) {
    CallsFor(s, a, exchange) && a.outcome.err == ChannelException
  }

  /** A pass on this connection opened the exchange's channel, and no call for it was answered with a
      channel exception since. */
  ghost predicate AcceptedBefore(states: seq<State>, actions: seq<Action>, j: nat, exchange: string)
    requires j <= |actions| && |states| == |actions| + 1
  {
    exists i: nat :: i < j && AcceptedSince(states, actions, i, j, exchange)
  }

  ghost predicate AcceptedSince(states: seq<State>, actions: seq<Action>, i: nat, j: nat, exchange: string)
    requires i < j <= |actions| && |states| == |actions| + 1
  {
    && Accepts(states[i], actions[i], exchange) && states[i].conn == states[j].conn
    && forall k {:trigger actions[k]} :: i < k < j ==> !ClosesChannel(states[k], actions[k], exchange)
  }

  /** The pass calls on an exchange's channel for that exchange: no other ever had the channel. */
  lemma CallsForItsExchange(states: seq<State>, actions: seq<Action>, i: nat, j: nat, x: string)
    requires IsRun(states, actions) && i < j <= |actions| && x in states[j].registry.exchanges
    ensures Calls(states[i], actions[i], states[j].registry.exchanges[x].channel) <==> CallsFor(states[i], actions[i], x)
  {
    ChannelsNeverChange(states, actions, i, j);
    InvAlongRun(states, actions, i);
    InvAlongRun(states, actions, j);
    var s, r := states[i], states[j].registry;
    hide IsRun, Lifecycle, Epochs, Conserved, HeadStable, BuffersOwned, FlagSound, AnswersSound;
    if s.worker.Opening? || s.worker.Declaring? {
      var y := s.worker.exchange;
      assert s.worker.Opening? ==> y in Remaining(s.worker);
      assert y in s.registry.exchanges && y in r.exchanges;
      hide Allocated;
      if y != x {
        DistinctChannels(r, x, y);
      }
    }
  }

  /** Whether the message about to be published goes out on an open channel: if and only if a pass on
      this connection opened the channel of its exchange, and no open or declare for that exchange was
      answered with a channel exception since. While the flag is set, that is if and only if its pass
      ran on this connection and the exchange's last declare did not close the channel. */
  lemma PublishesOnOpenChannelIff(states: seq<State>, actions: seq<Action>, j: nat)
    requires IsRun(states, actions) && j <= |actions| && states[j].worker.Publishing?
    ensures states[j].queue.messages != []
    ensures var s, m := states[j], states[j].queue.messages[0];
            && (m.channel in s.answers.open <==> AcceptedBefore(states, actions, j, m.exchange))
            && (s.channelsConnected ==>
                  (m.channel in s.answers.open <==>
                     s.flagEpoch == s.conn.established && !ClosedByDeclare(s.answers, m.exchange)))
  {
    var s := states[j];
    InvAlongRun(states, actions, j);
    var m := s.queue.messages[0];
    FrontOfFlag(s);
    assert Routed(s.registry, m);
    OpenIffOpened(states, actions, j, m.channel);
    hide Inv, Calls, CallsFor, IsRun, OpenedBefore, AcceptedBefore;
    forall i: nat | i < j ensures Calls(states[i], actions[i], m.channel) <==> CallsFor(states[i], actions[i], m.exchange) {
      CallsForItsExchange(states, actions, i, j, m.exchange);
    }
    SameMoments(states, actions, j, m.channel, m.exchange);
  }

  /** While the flag is set, what it says of the front's channel. */
  lemma FrontOfFlag(s: State)
    requires Inv(s) && s.worker.Publishing?
    ensures s.queue.messages != []
    ensures s.channelsConnected ==>
              (s.queue.messages[0].channel in s.answers.open <==>
                 s.flagEpoch == s.conn.established && !ClosedByDeclare(s.answers, s.queue.messages[0].exchange))
  {
    var x := s.queue.messages[0].exchange;
    assert Routed(s.registry, s.queue.messages[0]) && s.conn.connected;
    hide Lifecycle, Conserved, BuffersOwned, WalksList, Allocated;
    if s.channelsConnected && s.flagEpoch == s.conn.established {
      assert Settled(s.registry, s.answers, x);
    }
  }

  lemma SameMoments(states: seq<State>, actions: seq<Action>, j: nat, c: int, x: string)
    requires j <= |actions| && |states| == |actions| + 1
    requires forall i: nat :: i < j ==> (Calls(states[i], actions[i], c) <==> CallsFor(states[i], actions[i], x))
    ensures OpenedBefore(states, actions, j, c) <==> AcceptedBefore(states, actions, j, x)
  {
    hide Calls, CallsFor;
    forall i: nat | i < j ensures OpenSince(states, actions, i, j, c) <==> AcceptedSince(states, actions, i, j, x) {
      if OpenSince(states, actions, i, j, c) {
        assert AcceptedSince(states, actions, i, j, x);
      }
      if AcceptedSince(states, actions, i, j, x) {
        assert OpenSince(states, actions, i, j, c);
      }
    }
  }

  /** Each pass opens every exchange anew, since the loop marks only copies as connected. */
  lemma EveryPassReopens(s: State, err: HareError)
    requires Reachable(s) && s.worker.NextExchange? && s.worker.rest != []
    ensures PassPc(s, err) == Opening(s.worker.rest[0], s.worker.rest[1..], s.worker.allGood)
  {
    InvHolds(s);
  }

  // ---- The flag can be stale ----

  const ANSWERED := Outcome(AllGood, 0, ["x"])
  const BROKEN := Outcome(ServerConnectionFailure, 0, [])
  const ONE_EXCHANGE := Registry(map["x" := ExchangeProperties(1, false, false, "direct")], 2, ["x"])

  lemma ReachInitial()
    ensures Reachable(INITIAL)
  {
    assert IsRun([INITIAL], []) && [INITIAL][0] == INITIAL;
  }

  const DECLARED_EXCHANGE := Registry(map["x" := ExchangeProperties(1, false, true, "topic")], 2, ["x"])

  /** One Send to the only exchange, while the queue is empty. */
  lemma SendAt(s: State, id: nat) returns (s': State)
    requires Reachable(s) && id !in s.callers && !MutexHeld(s.worker) && s.queue.messages == []
    requires s.registry == INITIAL.registry || s.registry == ONE_EXCHANGE || s.registry == DECLARED_EXCHANGE
    ensures Reachable(s')
    ensures s' == s.(registry := if s.registry == INITIAL.registry then ONE_EXCHANGE else s.registry,
                     channelsConnected := s'.channelsConnected, queue := s'.queue, callers := s'.callers)
    ensures |s'.queue.messages| == 1 && s'.queue.messages[0].channel == 1 && s'.callers.Keys == s.callers.Keys + {id}
    ensures s'.channelsConnected == (s.channelsConnected && s.registry != INITIAL.registry)
  {
    BuffersExactlyQueued(s);
    hide Reachable, WorkerStep, ControlStep, CallStep;
    s' := Go(s, BeginSend(id, "x", "key", UserMessage(None, "")));
    s' := Go(s', Continue(id, Buffers(0, 1, 2)));
    s' := Go(s', Continue(id, Buffers(0, 1, 2)));
  }

  /** A queued message and a running worker. */
  lemma ReachStarted() returns (s: State)
    ensures Reachable(s) && s.running && s.worker.LoopTest? && s.conn == NO_CONNECTION && s.registry == ONE_EXCHANGE
    ensures |s.queue.messages| == 1 && s.callers.Keys == {0} && !s.channelsConnected
    ensures s.queue.messages[0].channel == 1 && s.answers == NO_ANSWERS
  {
    ReachInitial();
    hide Reachable, WorkerStep, CallerStep;
    s := SendAt(INITIAL, 0);
    s := Go(s, Call(Initialize));
    s := Go(s, Call(Start));
    s := Go(s, ContinueCall);
  }

  /** It has connected and begun its pass over the exchanges. */
  lemma ReachPass() returns (s: State)
    ensures Reachable(s) && s.running && s.worker.Locking? && s.conn == Conn(true, 1, [])
    ensures |s.queue.messages| == 1 && s.callers.Keys == {0} && s.registry == ONE_EXCHANGE
    ensures s.queue.messages[0].channel == 1 && s.answers == NO_ANSWERS && !s.channelsConnected
  {
    s := ReachStarted();
    hide Reachable, CallerStep, ControlStep, CallStep, RemoveStep, PublishStep, PassStep;
    s := Go(s, Work(ANSWERED));                 // LoopTest
    s := Go(s, Work(ANSWERED));                 // ConnectedTest
    s := Go(s, Work(ANSWERED));                 // Connecting
    s := Go(s, Work(ANSWERED));                 // FlagTest
    s := Go(s, Work(ANSWERED));                 // PassConnectedTest
    s := Go(s, Work(ANSWERED));                 // PassRunningTest
  }

  /** It is about to open the exchange's channel. */
  lemma ReachOpening() returns (s: State)
    ensures Reachable(s) && s.running && s.worker == Opening("x", [], true) && s.conn == Conn(true, 1, [])
    ensures |s.queue.messages| == 1 && s.callers.Keys == {0} && s.registry == ONE_EXCHANGE
    ensures s.queue.messages[0].channel == 1 && s.answers == NO_ANSWERS && !s.channelsConnected
  {
    s := ReachPass();
    hide Reachable, CallerStep, ControlStep, CallStep, RemoveStep, PublishStep;
    s := Go(s, Work(ANSWERED));                 // Locking
    assert s.worker == NextExchange(["x"], true);
    s := Go(s, Work(ANSWERED));                 // NextExchange
  }

  /** It has opened it. */
  lemma ReachPassDone() returns (s: State)
    ensures Reachable(s) && s.running && s.worker == NextExchange([], true) && s.conn == Conn(true, 1, [])
    ensures |s.queue.messages| == 1 && s.callers.Keys == {0} && s.registry == ONE_EXCHANGE
  {
    s := ReachOpening();
    hide Reachable, CallerStep, ControlStep, CallStep, RemoveStep, PublishStep;
    s := Go(s, Work(ANSWERED));                 // Opening
  }

  /** The flag is set, and the worker is about to publish. */
  lemma ReachPublishing() returns (s: State)
    ensures Reachable(s) && s.running && s.worker.Publishing? && s.conn == Conn(true, 1, []) && s.channelsConnected
    ensures |s.queue.messages| == 1 && s.callers.Keys == {0} && s.registry == ONE_EXCHANGE
  {
    s := ReachPassDone();
    hide Reachable, CallerStep, ControlStep, CallStep, RemoveStep, PublishStep;
    s := Go(s, Work(ANSWERED));                 // NextExchange
    s := Go(s, Work(ANSWERED));                 // PublishTest
    s := Go(s, Work(ANSWERED));                 // SizeTest
  }

  /** Then a failed publish has closed the connection and dropped the queue. */
  lemma ReachDropped() returns (s: State)
    ensures Reachable(s) && s.running && s.worker.LoopTest? && s.conn == Conn(false, 1, [1]) && s.answers == NO_ANSWERS
    ensures s.queue.messages == [] && s.callers.Keys == {0} && s.registry == ONE_EXCHANGE && s.channelsConnected
  {
    s := ReachPublishing();
    hide Reachable, CallerStep, ControlStep, CallStep;
    s := Go(s, Work(BROKEN));                   // Publishing
    s := Go(s, Work(ANSWERED));                 // PublishClosing
    s := Go(s, Work(ANSWERED));                 // Dropping
    s := Go(s, Work(ANSWERED));                 // Dropping
  }

  /** The worker has reconnected, and trusts the flag. */
  lemma ReachReconnected() returns (s: State)
    ensures Reachable(s) && s.running && s.worker.PublishTest? && s.conn.connected && s.answers == NO_ANSWERS
    ensures |s.queue.messages| == 1 && s.queue.messages[0].channel == 1 && s.registry == ONE_EXCHANGE && s.channelsConnected
  {
    s := ReachDropped();
    hide Reachable, CallerStep, ControlStep, CallStep, RemoveStep, PublishStep, PassStep;
    s := SendAt(s, 1);
    s := Go(s, Work(ANSWERED));                 // LoopTest
    s := Go(s, Work(ANSWERED));                 // ConnectedTest
    s := Go(s, Work(ANSWERED));                 // Connecting
    s := Go(s, Work(ANSWERED));                 // FlagTest
  }

  /** The flag outlives the connection: after a reconnect the worker publishes on a channel that
      nobody has opened. So FlagTrustedIffSetHere cannot be improved to "connected and flagged". */
  lemma StaleFlagIsReachable() returns (s: State)
    ensures Reachable(s) && s.worker.Publishing? && s.conn.connected && s.channelsConnected
    ensures !AllOpen(s) && s.queue.messages != [] && s.queue.messages[0].channel !in s.answers.open
  {
    s := ReachReconnected();
    s := PublishAt(s);
    assert "x" in s.registry.exchanges;
  }

  // ---- Nor does a first connection help ----

  /** A running worker, and nothing sent or declared yet. */
  lemma ReachIdle() returns (s: State)
    ensures Reachable(s) && s.running && s.worker.LoopTest? && s.conn == NO_CONNECTION && s.callers == map[]
    ensures s.registry == INITIAL.registry && s.queue.messages == [] && !s.channelsConnected
  {
    ReachInitial();
    hide Reachable, WorkerStep, CallerStep;
    s := Go(INITIAL, Call(Initialize));
    s := Go(s, Call(Start));
    s := Go(s, ContinueCall);
  }

  /** Its pass over no exchange at all is over, and the flag set. */
  lemma ReachEmptyPass() returns (s: State)
    ensures Reachable(s) && s.worker.PublishTest? && s.conn == Conn(true, 1, []) && s.answers == NO_ANSWERS
    ensures s.registry == INITIAL.registry && s.queue.messages == [] && s.callers == map[]
  {
    s := ReachIdle();
    hide Reachable, CallerStep, ControlStep, CallStep, RemoveStep, PublishStep;
    s := Go(s, Work(ANSWERED));                 // LoopTest
    s := Go(s, Work(ANSWERED));                 // ConnectedTest
    assert s.answers == NO_ANSWERS by {
      InvHolds(s);
    }
    s := Go(s, Work(ANSWERED));                 // Connecting
    s := Go(s, Work(ANSWERED));                 // FlagTest
    s := Go(s, Work(ANSWERED));                 // PassConnectedTest
    s := Go(s, Work(ANSWERED));                 // PassRunningTest
    s := Go(s, Work(Outcome(AllGood, 0, [])));  // Locking
    s := Go(s, Work(ANSWERED));                 // NextExchange
  }

  /** The first Send to a new exchange comes after the pass: its message is published on a channel
      nobody has opened, on the first connection and with the flag clear. */
  lemma LateSendIsReachable() returns (s: State)
    ensures Reachable(s) && s.worker.Publishing? && s.conn == Conn(true, 1, []) && !s.channelsConnected
    ensures s.queue.messages != [] && s.queue.messages[0].channel !in s.answers.open
  {
    s := ReachEmptyPass();
    s := SendAt(s, 0);
    s := PublishAt(s);
  }

  const REFUSED := Outcome(ChannelException, 0, [])

  /** The broker refuses the open, and the pass ends without setting the flag. */
  lemma ReachRefused() returns (s: State)
    ensures Reachable(s) && s.worker.PublishTest? && s.conn == Conn(true, 1, []) && !s.channelsConnected
    ensures |s.queue.messages| == 1 && s.queue.messages[0].channel == 1 && s.answers.open == {}
  {
    s := ReachOpening();
    hide Reachable, CallerStep, ControlStep, CallStep, RemoveStep, PublishStep;
    s := Go(s, Work(REFUSED));                  // Opening
    s := Go(s, Work(ANSWERED));                 // NextExchange
  }

  /** The worker publishes all the same. */
  lemma RefusedOpenIsReachable() returns (s: State)
    ensures Reachable(s) && s.worker.Publishing? && s.conn == Conn(true, 1, []) && !s.channelsConnected
    ensures s.queue.messages != [] && s.queue.messages[0].channel !in s.answers.open
  {
    s := ReachRefused();
    s := PublishAt(s);
  }

  // ---- Nor does the flag, on its own connection ----

  const OPENED := Answers([Sent(OpenCall(1), AllGood)], {1}, {1}, map[], map[])

  lemma ReachDeclaring() returns (s: State)
    ensures Reachable(s) && s.worker == Declaring("x", [], true) && s.conn == Conn(true, 1, [])
    ensures s.registry == DECLARED_EXCHANGE && s.answers == OPENED
    ensures s.queue.messages == [] && s.callers.Keys == {0}
  {
    s := ReachMarkedPass();
    hide Reachable, CallerStep, ControlStep, CallStep, RemoveStep, PublishStep;
    s := Go(s, Work(ANSWERED));                 // Locking
    assert s.worker == NextExchange(["x"], true);
    s := Go(s, Work(ANSWERED));                 // NextExchange
    s := Go(s, Work(ANSWERED));                 // Opening
  }

  lemma ReachMarkedPass() returns (s: State)
    ensures Reachable(s) && s.worker.Locking? && s.conn == Conn(true, 1, [])
    ensures s.registry == DECLARED_EXCHANGE && s.answers == NO_ANSWERS
    ensures s.queue.messages == [] && s.callers.Keys == {0}
  {
    s := ReachMarked();
    hide Reachable, CallerStep, ControlStep, CallStep, RemoveStep, PublishStep, PassStep;
    s := Go(s, Work(ANSWERED));                 // LoopTest
    s := Go(s, Work(ANSWERED));                 // ConnectedTest
    s := Go(s, Work(ANSWERED));                 // Connecting
    s := Go(s, Work(ANSWERED));                 // FlagTest
    s := Go(s, Work(ANSWERED));                 // PassConnectedTest
    s := Go(s, Work(ANSWERED));                 // PassRunningTest
  }

  /** One exchange marked for declaration. */
  lemma ReachMarked() returns (s: State)
    ensures Reachable(s) && s.running && s.worker.LoopTest? && s.conn == NO_CONNECTION && !s.channelsConnected
    ensures s.registry == DECLARED_EXCHANGE && s.answers == NO_ANSWERS
    ensures s.queue.messages == [] && s.callers.Keys == {0}
  {
    s := ReachIdle();
    assert s.answers == NO_ANSWERS by {
      InvHolds(s);
    }
    hide Reachable, ControlStep, CallStep, WorkerStep;
    s := Go(s, BeginDeclare(0, "x", "topic"));
    s := Go(s, Continue(0, Buffers(0, 0, 0)));
  }

  /** The declare has been refused with the given code, and the flag set all the same. */
  lemma ReachFlagged(err: HareError) returns (s: State)
    requires !NoError(err) && !ServerFailure(err)
    ensures Reachable(s) && s.worker.PublishTest? && s.conn == Conn(true, 1, []) && s.channelsConnected && s.flagEpoch == 1
    ensures s.registry == DECLARED_EXCHANGE && s.answers == OnDeclare(OPENED, 1, "x", "topic", err)
    ensures s.queue.messages == [] && s.callers.Keys == {0}
  {
    s := ReachDeclaring();
    hide Reachable, CallerStep, ControlStep, CallStep, RemoveStep, PublishStep;
    s := Go(s, Work(Outcome(err, 0, [])));      // Declaring
    s := Go(s, Work(ANSWERED));                 // NextExchange
  }

  /** The broker closes the channel by its answer to the declare. The flag is set by a pass on this
      connection, which did open the channel, and the message is published on it, closed. */
  lemma ClosedChannelIsReachable() returns (s: State)
    ensures Reachable(s) && s.worker.Publishing? && s.channelsConnected && s.flagEpoch == s.conn.established
    ensures AllOpened(s) && s.queue.messages != [] && s.queue.messages[0].channel !in s.answers.open
  {
    s := ReachFlagged(ChannelException);
    s := SendAt(s, 1);
    s := PublishAt(s);
  }

  /** The worker goes on to publish what has been queued. */
  lemma PublishAt(s: State) returns (s': State)
    requires Reachable(s) && s.worker.PublishTest? && s.conn.connected && s.queue.messages != []
    ensures Reachable(s') && s' == s.(worker := Publishing)
  {
    hide Reachable, CallerStep, ControlStep, CallStep, RemoveStep, PublishStep, PassStep;
    s' := Go(s, Work(ANSWERED));                // PublishTest
    s' := Go(s', Work(ANSWERED));               // SizeTest
  }

  /** With another refusal all channels stay open, and still the flag does not mean declared. */
  lemma UndeclaredFlagIsReachable() returns (s: State)
    ensures Reachable(s) && s.channelsConnected && s.conn.connected && s.flagEpoch == s.conn.established
    ensures AllOpen(s) && !AllDeclared(s)
  {
    s := ReachFlagged(NoRpcReply);
    hide Reachable;
    assert Marked(s.registry, "x");
  }

  /** Destroying a producer that was never started leaks what was sent. */
  lemma LeakIsReachable() returns (s: State)
    ensures Reachable(s) && s.control.Gone? && s.queue.heap.live != {}
  {
    ReachInitial();
    s := SendAt(INITIAL, 0);
    BuffersExactlyQueued(s);
    hide Reachable, WorkerStep, CallerStep;
    s := Go(s, Call(Destroy));
    s := Go(s, ContinueCall);
  }

  // ---- Stop ends the publisher ----

  /** Where the publisher stands in its current iteration, once the running flag is clear. */
  function Phase(w: WorkerPc): nat {
    match w
    case LoopTest => 1
    case Popping(_) => 2
    case Dropping(inPass) => if inPass then 8 else 2
    case PublishClosing => 3
    case Publishing => 4
    case SizeTest => 5
    case PublishTest => 6
    case PassClosing => 9
    case NextExchange(_, _) => 10
    case Opening(_, _, _) => 10
    case Declaring(_, _, _) => 10
    case Locking => 11
    case PassRunningTest => 12
    case PassConnectedTest => 13
    case FlagTest => 14
    case Connecting => 15
    case ConnectedTest => 16
    case _ => 0
  }

  /** What is left of its present loop: calls of the pass, or messages to drop. */
  function TurnsLeft(s: State): nat {
    match s.worker
    case NextExchange(rest, _) => 3 * |rest|
    case Opening(_, rest, _) => 3 * |rest| + 2
    case Declaring(_, rest, _) => 3 * |rest| + 1
    case Dropping(_) => |s.queue.messages|
    case _ => 0
  }

  predicate Descends(s: State, s': State) {
    Phase(s'.worker) < Phase(s.worker) || (Phase(s'.worker) == Phase(s.worker) && TurnsLeft(s') < TurnsLeft(s))
  }

  lemma PublisherDescends(s: State, o: Outcome)
    requires WorkerEnabled(s, o) && !s.running && !WorkerStep(s, o).worker.Faulted?
    ensures Descends(s, WorkerStep(s, o))
  {
    WorkerPhases(s, o);
    if MutexHeld(s.worker) {
      hide *;
      PassDescends(s, o.err);
    } else if Simple(s.worker) {
      hide WorkerStep, OnConnect, OnClose, PassPc;
    } else {
      hide WorkerStep, TryFront, Stamped, FreeMessage;
    }
  }

  lemma PassDescends(s: State, err: HareError)
    requires MutexHeld(s.worker)
    ensures Descends(s, PassStep(s, err))
  {
    hide PassStep, PassPc, PassAnswers;
    PassPcFrame(s, err);
    if s.worker.NextExchange? {
      HeadFrame(s, err);
    } else {
      CallFrame(s, err);
      CallGoesOn(s, err);
    }
  }

  /** After Stop clears the flag the publisher finishes at most its current iteration: every step of it
      descends, and one is always possible until it has returned. No step of another thread raises
      what is left, but for a Send that queues a message while the queue is being dropped: each adds
      one message to drop. */
  lemma PublisherWindsDown(s: State, a: Action)
    requires Reachable(s) && s.control.Joining? && Enabled(s, a)
    ensures !Step(s, a).running
    ensures a.Work? ==> Descends(s, Step(s, a))
    ensures !a.Work? ==> OthersAdd(s, Step(s, a), Queues(s, a))
    ensures s.worker.Returned? || exists o :: WorkerEnabled(s, o)
  {
    InvHolds(s);
    InvKept(s, a);
    assert Lifecycle(s);
    if !s.worker.Returned? {
      PublisherCanStep(s);
    }
    assert HeadStable(Step(s, a));
    hide Reachable, Inv;
    if a.Work? {
      hide Descends, WorkerStep;
      PublisherDescends(s, a.outcome);
      WorkerFrame(s, a.outcome);
    } else {
      OthersLeaveTurns(s, a);
    }
  }

  /** Another thread leaves the publisher where it is, with at most one more message to drop. */
  predicate OthersAdd(s: State, s': State, queues: bool) {
    || (s.worker.Returned? && s'.worker.NoThread?)
    || (s'.worker == s.worker && TurnsLeft(s') == TurnsLeft(s) + if s.worker.Dropping? && queues then 1 else 0)
  }

  lemma OthersLeaveTurns(s: State, a: Action)
    requires Lifecycle(s) && s.control.Joining? && Enabled(s, a) && !a.Work?
    ensures !Step(s, a).running && OthersAdd(s, Step(s, a), Queues(s, a))
  {
    hide CallerStep, BuiltMessage;
    if a.Continue? {
      CallerFrame(s, a.id, a.buffers);
      CallerQueue(s, a.id, a.buffers);
    }
  }

  lemma PublisherCanStep(s: State)
    requires Inv(s) && !s.worker.NoThread? && !s.worker.Returned?
    ensures exists o :: WorkerEnabled(s, o)
  {
    assert Allocated(s.registry) && HeadStable(s);
    assert IsWalk(s.registry.order, s.registry.exchanges);
    assert WorkerEnabled(s, Outcome(AllGood, 0, s.registry.order));
  }

  // ---- Timestamps ----

  /** A message carries the user's timestamp if set, else that of its first publish attempt, else
      none, wherever it is. */
  lemma TimestampOf(s: State, i: nat)
    requires Reachable(s) && i < |s.queue.enqueued|
    ensures var q := s.queue;
            if i < |q.handled| then IsMessage(q.enqueued, q.firstTry, i, q.handled[i].message)
            else i < |q.handled| + |q.messages| && IsMessage(q.enqueued, q.firstTry, i, q.messages[i - |q.handled|])
  {
    InvHolds(s);
    var q := s.queue;
    if i >= |q.handled| {
      assert IsMessage(q.enqueued, q.firstTry, |q.handled| + (i - |q.handled|), q.messages[i - |q.handled|]);
    }
  }

  /** That time is set once, by a publish attempt on the message at the front while connected, and no
      retry changes it. */
  lemma StampedOnce(s: State, a: Action, i: nat)
    requires Reachable(s) && Enabled(s, a)
    ensures var t, t' := s.queue.firstTry, Step(s, a).queue.firstTry;
            && (i in t ==> i in t' && t'[i] == t[i])
            && (i !in t && i in t' ==>
                  && a.Work? && s.worker.Publishing? && s.conn.connected
                  && i == |s.queue.handled| && t'[i] == a.outcome.now)
  {
    InvHolds(s);
    StepQueue(s, a);
    hide Step, FreeMessage;
  }

  // ---- Connection epochs ----

  /** The publisher only connects while disconnected, so connections never overlap; each one but the
      live one was destroyed exactly once, and after the destructor all were. */
  lemma ConnectionsNeverOverlap(s: State)
    requires Reachable(s)
    ensures s.worker.Connecting? ==> !s.conn.connected
    ensures WellBracketed(s.conn)
    ensures s.control.Gone? ==> s.conn.closed == UpTo(s.conn.established)
  {
    InvHolds(s);
  }
}
