/** Subscriptions as one plain table: entry i describes channel i + 1. This is what the two hash
    maps of ChannelHandler stand for, and what the consumer protocol reasons about. */
module Bindings {
  import opened HareErrors

  datatype BindingPair = BindingPair(exchangeName: string, routingKey: string)

  /** A user's std::function, identified by a token. */
  datatype Callback = Callback(token: nat)

  datatype QueueProperties = QueueProperties(passive: int, durable: int, exclusive: int, autoDelete: int)

  const DEFAULT_PROPERTIES := QueueProperties(0, 0, 0, 1)

  /** The bytes of a queue name: null, a live or freed heap buffer, or an uninitialised variable. */
  datatype QueueName = NullName | Buffer(address: nat) | Garbage

  datatype Entry = Entry(pair: BindingPair, callback: Callback, queueName: QueueName, properties: QueueProperties)

  type Table = seq<Entry>

  predicate Registered(t: Table, channel: int) {
    1 <= channel <= |t|
  }

  ghost predicate DistinctPairs(t: Table) {
    forall i, j :: 0 <= i < j < |t| ==> t[i].pair != t[j].pair
  }

  /** The channel of a pair, or 0, the connection-level channel that no subscription has. */
  function ChannelOf(t: Table, pair: BindingPair): (c: int)
    ensures c == 0 ==> forall i :: 0 <= i < |t| ==> t[i].pair != pair
    ensures c != 0 ==> Registered(t, c) && t[c - 1].pair == pair
  {
    if t == [] then 0
    else if t[|t| - 1].pair == pair then |t|
    else ChannelOf(t[..|t| - 1], pair)
  }

  function PairOf(t: Table, channel: int): (pair: BindingPair)
    ensures Registered(t, channel) ==> pair == t[channel - 1].pair
  {
    if Registered(t, channel) then t[channel - 1].pair else BindingPair("", "")
  }

  function PropertiesOf(t: Table, channel: int): (properties: QueueProperties)
    ensures Registered(t, channel) ==> properties == t[channel - 1].properties
  {
    if Registered(t, channel) then t[channel - 1].properties else DEFAULT_PROPERTIES
  }

  // ---- Channel lists ----

  ghost predicate NoDuplicates(s: seq<int>) {
    forall i, j :: 0 <= i < j < |s| ==> s[i] != s[j]
  }

  /** Each of the channels 1..n exactly once, in any order. */
  ghost predicate IsChannelList(list: seq<int>, n: nat) {
    NoDuplicates(list) && forall c :: c in list <==> 1 <= c <= n
  }

  // ---- Updates ----

  /** The new table and the code AddChannelProcessor returns: the new channel, or -1 for a pair
      that was already there and only got a new callback. */
  function AddProcessor(t: Table, pair: BindingPair, callback: Callback): (Table, int) {
    var c := ChannelOf(t, pair);
    if c == 0 then (t + [Entry(pair, callback, NullName, DEFAULT_PROPERTIES)], |t| + 1)
    else (t[c - 1 := t[c - 1].(callback := callback)], -1)
  }

  /** The code is -1 exactly for a pair that was already there. */
  lemma AddedIffNew(t: Table, pair: BindingPair, callback: Callback)
    ensures AddProcessor(t, pair, callback).1 == -1 <==> ChannelOf(t, pair) != 0
  {
  }

  function WithQueueName(t: Table, channel: int, name: QueueName): Table {
    if Registered(t, channel) then t[channel - 1 := t[channel - 1].(queueName := name)] else t
  }

  function WithProperties(t: Table, channel: int, properties: QueueProperties): Table {
    if Registered(t, channel) then t[channel - 1 := t[channel - 1].(properties := properties)] else t
  }

  function Dispatch(t: Table, pair: BindingPair): Option<Callback> {
    var c := ChannelOf(t, pair);
    if c == 0 then None else Some(t[c - 1].callback)
  }

  lemma ChannelOfUnique(t: Table, pair: BindingPair, i: nat)
    requires DistinctPairs(t) && i < |t| && t[i].pair == pair
    ensures ChannelOf(t, pair) == i + 1
  {
    var c := ChannelOf(t, pair);
    assert c != 0;
    assert t[c - 1].pair == t[i].pair;
  }

  // ---- Histories of updates ----

  datatype Update =
    | Subscribe(pair: BindingPair, callback: Callback, properties: QueueProperties)
    | NameQueue(channel: int, name: QueueName)
    | SetProperties(channel: int, properties: QueueProperties)

  /** One update, and the code Subscribe gives its caller. */
  function ApplyUpdate(t: Table, u: Update): (Table, HareError) {
    match u
    case Subscribe(pair, callback, properties) =>
      var (added, channel) := AddProcessor(t, pair, callback);
      if channel == -1 then (added, UnableToSubscribe)
      else (WithProperties(added, channel, properties), AllGood)
    case NameQueue(channel, name) => (WithQueueName(t, channel, name), AllGood)
    case SetProperties(channel, properties) => (WithProperties(t, channel, properties), AllGood)
  }

  function ApplyUpdates(updates: seq<Update>): Table {
    if updates == [] then []
    else ApplyUpdate(ApplyUpdates(updates[..|updates| - 1]), updates[|updates| - 1]).0
  }

  /** The callback last given for a pair. */
  function LastGiven(updates: seq<Update>, pair: BindingPair): Option<Callback> {
    if updates == [] then None
    else
      var last := updates[|updates| - 1];
      if last.Subscribe? && last.pair == pair then Some(last.callback)
      else LastGiven(updates[..|updates| - 1], pair)
  }

  /** Pairs and channels never change once given, whatever update comes next. */
  lemma UpdateKeepsChannels(t: Table, u: Update)
    requires DistinctPairs(t)
    ensures var t' := ApplyUpdate(t, u).0;
            && DistinctPairs(t')
            && |t| <= |t'|
            && forall i :: 0 <= i < |t| ==> t'[i].pair == t[i].pair
  {
  }

  /** A first Subscribe for a pair gives it the next channel and succeeds. */
  lemma FirstSubscribe(t: Table, pair: BindingPair, callback: Callback, properties: QueueProperties)
    requires DistinctPairs(t) && ChannelOf(t, pair) == 0
    ensures var (t', ret) := ApplyUpdate(t, Subscribe(pair, callback, properties));
            && ret == AllGood
            && t' == t + [Entry(pair, callback, NullName, properties)]
            && ChannelOf(t', pair) == |t| + 1
  {
    var t' := ApplyUpdate(t, Subscribe(pair, callback, properties)).0;
    assert t' == t + [Entry(pair, callback, NullName, properties)];
    UpdateKeepsChannels(t, Subscribe(pair, callback, properties));
    ChannelOfUnique(t', pair, |t|);
  }

  /** A second one swaps its callback, keeps its channel, queue name and properties and every other
      entry, and yet reports UnableToSubscribe. */
  lemma ResubscribeKeepsQueue(t: Table, pair: BindingPair, callback: Callback, properties: QueueProperties)
    requires DistinctPairs(t) && ChannelOf(t, pair) != 0
    ensures var (t', ret) := ApplyUpdate(t, Subscribe(pair, callback, properties));
            var c := ChannelOf(t, pair);
            && ret == UnableToSubscribe
            && |t'| == |t| && ChannelOf(t', pair) == c
            && t'[c - 1] == t[c - 1].(callback := callback)
            && forall d :: Registered(t, d) && d != c ==> t'[d - 1] == t[d - 1]
  {
    var t' := ApplyUpdate(t, Subscribe(pair, callback, properties)).0;
    UpdateKeepsChannels(t, Subscribe(pair, callback, properties));
    ChannelOfUnique(t', pair, ChannelOf(t, pair) - 1);
  }

  lemma {:induction false} HistoryKeepsPairsDistinct(updates: seq<Update>)
    ensures DistinctPairs(ApplyUpdates(updates))
  {
    if updates != [] {
      HistoryKeepsPairsDistinct(updates[..|updates| - 1]);
      UpdateKeepsChannels(ApplyUpdates(updates[..|updates| - 1]), updates[|updates| - 1]);
    }
  }

  lemma DispatchAfterUpdate(t: Table, u: Update, pair: BindingPair)
    requires DistinctPairs(t)
    ensures Dispatch(ApplyUpdate(t, u).0, pair) ==
            if u.Subscribe? && u.pair == pair then Some(u.callback) else Dispatch(t, pair)
  {
    var t' := ApplyUpdate(t, u).0;
    UpdateKeepsChannels(t, u);
    var c := ChannelOf(t, pair);
    if c != 0 {
      ChannelOfUnique(t', pair, c - 1);
    } else if u.Subscribe? && u.pair == pair {
      ChannelOfUnique(t', pair, |t|);
    } else {
      assert forall i :: 0 <= i < |t'| ==> t'[i].pair != pair;
    }
  }

  /** Dispatch refines a plain map from pairs to callbacks: after any history of subscriptions,
      queue names and property changes, a pair runs exactly the callback last given for it. */
  lemma {:induction false} DispatchRunsLastGiven(updates: seq<Update>, pair: BindingPair)
    ensures Dispatch(ApplyUpdates(updates), pair) == LastGiven(updates, pair)
  {
    if updates != [] {
      var before := updates[..|updates| - 1];
      HistoryKeepsPairsDistinct(before);
      DispatchRunsLastGiven(before, pair);
      DispatchAfterUpdate(ApplyUpdates(before), updates[|updates| - 1], pair);
    }
  }
}
