/** What becomes of what the callers of Subscribe give, and where the channels that are retried come
    from, over whole runs. */
module ConsumerHistories {
  import opened HareErrors
  import opened Bindings
  import opened Connection
  import opened ConsumerProtocol
  import opened ConsumerSafety
  import opened ConsumerTheorems

  // ---- A Subscribe passes on what it was given ----

  predicate Carries(p: SubscribePc, pair: BindingPair, callback: Callback, properties: QueueProperties) {
    p == Begun(pair, callback, properties) || p == Adding(pair, callback, properties)
  }

  /** Up to its add, a Subscribe holds the pair, the callback and the properties it began with. */
  lemma {:induction false} CarriesWhatWasGiven(states: seq<State>, actions: seq<Action>, j: nat, id: nat) returns (k: nat)
    requires IsRun(states, actions) && j <= |actions| && id in states[j].subscribers
    requires states[j].subscribers[id].Begun? || states[j].subscribers[id].Adding?
    ensures k < j && actions[k].BeginSubscribe? && actions[k].id == id
    ensures Carries(states[j].subscribers[id], actions[k].pair, actions[k].callback, actions[k].properties)
  {
    hide IsRun, IsPath, Step, Enabled;
    if j == 0 {
      NobodyAtStart(states, actions);
    } else {
      StepOfRun(states, actions, j - 1);
      if id !in states[j - 1].subscribers {
        NewSubscriber(states[j - 1], actions[j - 1], id);
        k := j - 1;
      } else {
        StaysCarrying(states[j - 1], actions[j - 1], id);
        k := CarriesWhatWasGiven(states, actions, j - 1, id);
      }
    }
  }

  lemma NobodyAtStart(states: seq<State>, actions: seq<Action>)
    requires IsRun(states, actions)
    ensures states[0].subscribers == map[]
  {
  }

  lemma NewSubscriber(s: State, a: Action, id: nat)
    requires Enabled(s, a) && id !in s.subscribers && id in Step(s, a).subscribers
    ensures a.BeginSubscribe? && a.id == id
    ensures Step(s, a).subscribers[id] == Begun(a.pair, a.callback, a.properties)
  {
    hide AddProcessor, WithProperties, WorkerStep;
    if a.Work? {
      WorkerTouchesNoTable(s, a.outcome);
    }
  }

  lemma StaysCarrying(s: State, a: Action, id: nat)
    requires Enabled(s, a) && id in s.subscribers && id in Step(s, a).subscribers
    requires Step(s, a).subscribers[id].Begun? || Step(s, a).subscribers[id].Adding?
    ensures s.subscribers[id].Begun? || s.subscribers[id].Adding?
    ensures forall pair, callback, properties ::
              Carries(s.subscribers[id], pair, callback, properties)
              <==> Carries(Step(s, a).subscribers[id], pair, callback, properties)
  {
    hide AddProcessor, WithProperties, WorkerStep;
    if a.Work? {
      WorkerTouchesNoTable(s, a.outcome);
    }
  }

  // ---- A channel keeps the properties of the Subscribe that created it ----

  /** The step creates the channel. */
  predicate Creates(s: State, a: Action, channel: int) {
    && a.ContinueSubscribe? && a.id in s.subscribers && s.subscribers[a.id].Adding?
    && ChannelOf(s.table, s.subscribers[a.id].pair) == 0 && channel == |s.table| + 1
  }

  predicate SettingFor(p: SubscribePc, channel: int) {
    p.PropertySetting? && p.channel == channel
  }

  /** Thread `id` created the channel with these properties: until it sets them, the channel has the
      defaults, and from then on it has them. */
  ghost predicate KeepsProperties(s: State, channel: int, id: nat, pair: BindingPair, properties: QueueProperties) {
    && Registered(s.table, channel) && id in s.subscribers && s.table[channel - 1].pair == pair
    && (forall i :: i in s.subscribers && SettingFor(s.subscribers[i], channel) ==>
          i == id && s.subscribers[i].properties == properties)
    && s.table[channel - 1].properties == (if SettingFor(s.subscribers[id], channel) then DEFAULT_PROPERTIES else properties)
    && !s.subscribers[id].Begun? && !s.subscribers[id].Adding?
  }

  lemma CreatedWithProperties(s: State, a: Action, channel: int)
    requires ChannelsRegistered(s) && Enabled(s, a) && Creates(s, a, channel)
    ensures var p := s.subscribers[a.id]; KeepsProperties(Step(s, a), channel, a.id, p.pair, p.properties)
  {
    var s' := SubscribeStep(s, a.id);
    assert s'.table == s.table + [Entry(s.subscribers[a.id].pair, s.subscribers[a.id].callback, NullName, DEFAULT_PROPERTIES)];
    forall i | i in s'.subscribers && i != a.id ensures !SettingFor(s'.subscribers[i], channel) {
      assert Holds(s.subscribers[i], channel) ==> Registered(s.table, channel);
    }
  }

  lemma StepKeepsProperties(s: State, a: Action, channel: int, id: nat, pair: BindingPair, properties: QueueProperties)
    requires KeepsProperties(s, channel, id, pair, properties) && Enabled(s, a)
    ensures KeepsProperties(Step(s, a), channel, id, pair, properties)
  {
    hide WorkerStep, ChannelOf;
    match a
    case Work(o) => WorkerTouchesNoTable(s, o);
    case ContinueSubscribe(i) =>
      assert SettingFor(s.subscribers[i], channel) ==> i == id && s.subscribers[i].properties == properties;
      AddedChannel(s.table, s.subscribers[i]);
    case _ =>
  }

  /** Adding a pair leaves the properties of every other channel alone, and a new channel is the next. */
  lemma AddedChannel(t: Table, p: SubscribePc)
    ensures p.Adding? ==>
              var (t', c) := AddProcessor(t, p.pair, p.callback);
              && (c != -1 ==> c == |t| + 1)
              && |t| <= |t'|
              && forall i :: 0 <= i < |t| ==> t'[i].pair == t[i].pair && t'[i].properties == t[i].properties
  {
  }

  lemma {:induction false} PropertiesStay(states: seq<State>, actions: seq<Action>, i: nat, j: nat, channel: int)
    requires IsRun(states, actions) && i < j <= |actions| && Creates(states[i], actions[i], channel)
    ensures var p := states[i].subscribers[actions[i].id];
            KeepsProperties(states[j], channel, actions[i].id, p.pair, p.properties)
    decreases j
  {
    hide IsRun, IsPath, Step, Enabled, Creates, KeepsProperties;
    StepOfRun(states, actions, j - 1);
    if i == j - 1 {
      assert ChannelsRegistered(states[i]) by {
        InvAlongRun(states, actions, i);
      }
      CreatedWithProperties(states[i], actions[i], channel);
    } else {
      PropertiesStay(states, actions, i, j - 1, channel);
      assert Creates(states[i], actions[i], channel);
      CreatorIsThere(states[i], actions[i], channel);
      var p := states[i].subscribers[actions[i].id];
      StepKeepsProperties(states[j - 1], actions[j - 1], channel, actions[i].id, p.pair, p.properties);
    }
  }

  lemma CreatorIsThere(s: State, a: Action, channel: int)
    requires Creates(s, a, channel)
    ensures a.ContinueSubscribe? && a.id in s.subscribers && s.subscribers[a.id].Adding?
  {
  }

  /** The step that created a registered channel. */
  lemma {:induction false} CreatedAt(states: seq<State>, actions: seq<Action>, j: nat, channel: int) returns (i: nat)
    requires IsRun(states, actions) && j <= |actions| && Registered(states[j].table, channel)
    ensures i < j && Creates(states[i], actions[i], channel)
  {
    hide IsRun, IsPath, Step, Enabled, Creates;
    if j == 0 {
      TableAtStart(states, actions);
    } else {
      StepOfRun(states, actions, j - 1);
      if Registered(states[j - 1].table, channel) {
        i := CreatedAt(states, actions, j - 1, channel);
      } else {
        NewChannel(states[j - 1], actions[j - 1], channel);
        i := j - 1;
      }
    }
  }

  lemma TableAtStart(states: seq<State>, actions: seq<Action>)
    requires IsRun(states, actions)
    ensures states[0].table == []
  {
  }

  lemma NewChannel(s: State, a: Action, channel: int)
    requires Enabled(s, a) && !Registered(s.table, channel) && Registered(Step(s, a).table, channel)
    ensures Creates(s, a, channel)
  {
    hide WorkerStep;
    if a.Work? {
      WorkerTouchesNoTable(s, a.outcome);
    }
  }

  /** On every run, a registered channel belongs to the pair some Subscribe was called for, and has the
      properties given to that Subscribe, once it has set them; before, it has the defaults. Step k is
      the call, step i its add. */
  lemma PropertiesAsGiven(states: seq<State>, actions: seq<Action>, j: nat, channel: int) returns (k: nat, i: nat)
    requires IsRun(states, actions) && j <= |actions| && Registered(states[j].table, channel)
    ensures k < i < j && actions[k].BeginSubscribe? && actions[i] == ContinueSubscribe(actions[k].id)
    ensures actions[k].id in states[j].subscribers
    ensures states[j].table[channel - 1].pair == actions[k].pair
    ensures states[j].table[channel - 1].properties ==
            if states[j].subscribers[actions[k].id] == PropertySetting(channel, actions[k].properties)
            then DEFAULT_PROPERTIES else actions[k].properties
  {
    i := CreatedAt(states, actions, j, channel);
    PropertiesStay(states, actions, i, j, channel);
    hide IsRun, Step, Enabled, ChannelOf;
    k := CarriesWhatWasGiven(states, actions, i, actions[i].id);
  }

  // ---- A retried channel was pushed ----

  /** The step pushes the channel: a failed set-up, or the end of a Subscribe. */
  predicate PushesChannel(s: State, a: Action, channel: int) {
    || (a.Work? && s.worker.PushingBack? && s.worker.channel == channel && !NoError(s.worker.err))
    || (a.ContinueSubscribe? && a.id in s.subscribers && s.subscribers[a.id] == Pushing(channel))
  }

  lemma PendingStep(s: State, a: Action, channel: int)
    requires Enabled(s, a) && channel in Step(s, a).pending && channel !in s.pending
    requires s.worker.PushingBack? ==> !NoError(s.worker.err)
    ensures PushesChannel(s, a, channel)
  {
    hide AddProcessor, WithProperties, SetupStep, OnConnect, OnClose, ChannelOf, Dispatch;
    if a.Work? && s.worker.Setting? {
      SetupKeepsPending(s, a.outcome.err);
    }
  }

  lemma SetupKeepsPending(s: State, err: HareError)
    requires s.worker.Setting?
    ensures SetupStep(s, err).pending == s.pending
    ensures SetupStep(s, err).worker.PushingBack? ==> !NoError(SetupStep(s, err).worker.err)
  {
  }

  lemma PushingBackFailed(s: State, a: Action)
    requires Enabled(s, a) && (s.worker.PushingBack? ==> !NoError(s.worker.err))
    ensures Step(s, a).worker.PushingBack? ==> !NoError(Step(s, a).worker.err)
  {
    hide AddProcessor, WithProperties, SetupStep;
    if a.Work? && s.worker.Setting? {
      SetupKeepsPending(s, a.outcome.err);
    }
  }

  lemma {:induction false} OnlyFailuresArePushedBack(states: seq<State>, actions: seq<Action>, j: nat)
    requires IsRun(states, actions) && j <= |actions|
    ensures states[j].worker.PushingBack? ==> !NoError(states[j].worker.err)
  {
    hide Step, Enabled;
    if j > 0 {
      OnlyFailuresArePushedBack(states, actions, j - 1);
      StepOfRun(states, actions, j - 1);
      PushingBackFailed(states[j - 1], actions[j - 1]);
    }
  }

  /** After start-up has emptied the pending queue at step e, whatever is in it was pushed since: by a
      set-up that failed, or by a Subscribe. */
  lemma {:induction false} PendingWasPushed(states: seq<State>, actions: seq<Action>, e: nat, j: nat, channel: int)
      returns (m: nat)
    requires IsRun(states, actions) && e < j <= |actions| && channel in states[j].pending
    requires actions[e].Work? && states[e].worker.Emptying?
    ensures e < m < j && PushesChannel(states[m], actions[m], channel)
    decreases j
  {
    hide IsRun, IsPath, Step, Enabled, PushesChannel;
    StepOfRun(states, actions, j - 1);
    if j == e + 1 {
      EmptiedByStep(states[e], actions[e]);
    } else if channel in states[j - 1].pending {
      m := PendingWasPushed(states, actions, e, j - 1, channel);
    } else {
      OnlyFailuresArePushedBack(states, actions, j - 1);
      PendingStep(states[j - 1], actions[j - 1], channel);
      m := j - 1;
    }
  }

  lemma EmptiedByStep(s: State, a: Action)
    requires Enabled(s, a) && a.Work? && s.worker.Emptying?
    ensures Step(s, a).pending == []
  {
  }

  /** So a channel is retried after a start-up pass only if its set-up failed, or a Subscribe pushed it,
      since that pass began. */
  lemma RetriedOnlyIfPushed(states: seq<State>, actions: seq<Action>, e: nat, k: nat) returns (m: nat)
    requires IsRun(states, actions) && e < k < |actions|
    requires actions[e].Work? && states[e].worker.Emptying?
    requires actions[k].Work? && states[k].worker.Popping? && !states[k + 1].worker.Faulted?
    ensures states[k + 1].worker.Setting?
    ensures e < m < k && PushesChannel(states[m], actions[m], states[k + 1].worker.channel)
  {
    StepOfRun(states, actions, k);
    assert states[k].pending != [] && states[k + 1].worker == Setting(states[k].pending[0], Open, Retry);
    m := PendingWasPushed(states, actions, e, k, states[k].pending[0]);
  }
}
