/** The two hash maps of src/ChannelHandler.cpp that share mutable records, proved to stand for one
    plain table (Bindings.Table). */
module ChannelHandlers {
  import opened HareErrors
  import opened Bindings

  /** amqp_bytes malloc and free, with `faults` counting frees of anything but a live buffer and
      uses of a null pointer. */
  class NameHeap {
    var live: set<nat>
    var next: nat
    var faults: nat

    constructor ()
      ensures live == {} && next == 0 && faults == 0
    {
      live, next, faults := {}, 0, 0;
    }

    method MallocDup() returns (name: QueueName)
      modifies this
      ensures name == Buffer(old(next))
      ensures live == old(live) + {old(next)} && next == old(next) + 1 && faults == old(faults)
    {
      name := Buffer(next);
      live, next := live + {next}, next + 1;
    }

    method Fault()
      modifies this
      ensures live == old(live) && next == old(next) && faults == old(faults) + 1
    {
      faults := faults + 1;
    }

    method Free(name: QueueName)
      modifies this
      ensures next == old(next)
      ensures name == NullName ==> live == old(live) && faults == old(faults)
      ensures name.Buffer? && name.address in old(live) ==>
                live == old(live) - {name.address} && faults == old(faults)
      ensures name == Garbage || (name.Buffer? && name.address !in old(live)) ==>
                live == old(live) && faults == old(faults) + 1
    {
      match name
      case NullName =>
      case Buffer(address) =>
        if address in live {
          live := live - {address};
        } else {
          faults := faults + 1;
        }
      case Garbage => faults := faults + 1;
    }
  }

  /** struct channelProcessingInfo. It is value-initialised, so the queue name starts null. */
  class ChannelProcessingInfo {
    var bindingPair: BindingPair
    var callback: Callback
    var queueName: QueueName
    var queueProperties: QueueProperties

    constructor ()
      ensures queueName == NullName && queueProperties == DEFAULT_PROPERTIES
    {
      bindingPair, callback := BindingPair("", ""), Callback(0);
      queueName, queueProperties := NullName, DEFAULT_PROPERTIES;
    }

    ghost function Contents(): Entry
      reads this
    {
      Entry(bindingPair, callback, queueName, queueProperties)
    }
  }

  method NewRecord(bindingPair: BindingPair, callback: Callback) returns (record: ChannelProcessingInfo)
    ensures fresh(record)
    ensures record.Contents() == Entry(bindingPair, callback, NullName, DEFAULT_PROPERTIES)
  {
    record := new ChannelProcessingInfo();
    record.callback := callback;
    record.bindingPair := bindingPair;
  }

  /** The two maps hold the same records, record i being that of channel i + 1. */
  ghost predicate Indexed<R>(table: Table, records: seq<R>, byChannel: map<int, R>, byPair: map<BindingPair, R>) {
    && |records| == |table|
    && DistinctPairs(table)
    && (forall c :: c in byChannel <==> Registered(table, c))
    && (forall c :: c in byChannel ==> byChannel[c] == records[c - 1])
    && (forall p :: p in byPair <==> ChannelOf(table, p) != 0)
    && (forall p :: p in byPair ==> byPair[p] == records[ChannelOf(table, p) - 1])
  }

  /** What the records hold. */
  ghost predicate Stored(records: seq<ChannelProcessingInfo>, table: Table)
    reads records
  {
    |records| == |table| && forall i :: 0 <= i < |records| ==> records[i].Contents() == table[i]
  }

  lemma OneMoreStored(records: seq<ChannelProcessingInfo>, table: Table, record: ChannelProcessingInfo)
    requires Stored(records, table)
    ensures Stored(records + [record], table + [record.Contents()])
  {
  }

  lemma SamePairsStayIndexed<R>(before: Table, after: Table, records: seq<R>,
                                byChannel: map<int, R>, byPair: map<BindingPair, R>)
    requires Indexed(before, records, byChannel, byPair)
    requires |after| == |before| && forall i :: 0 <= i < |before| ==> after[i].pair == before[i].pair
    ensures Indexed(after, records, byChannel, byPair)
  {
    forall p ensures ChannelOf(after, p) == ChannelOf(before, p) {
      SamePairsSameChannels(after, before, p);
    }
  }

  lemma NewRecordStaysIndexed<R>(table: Table, entry: Entry, records: seq<R>, record: R,
                                 byChannel: map<int, R>, byPair: map<BindingPair, R>)
    requires Indexed(table, records, byChannel, byPair)
    requires ChannelOf(table, entry.pair) == 0 && record !in records
    ensures Indexed(table + [entry], records + [record],
                    byChannel[|table| + 1 := record], byPair[entry.pair := record])
  {
    var t' := table + [entry];
    forall p ensures ChannelOf(t', p) == if p == entry.pair then |t'| else ChannelOf(table, p) {
      assert t'[..|t'| - 1] == table;
    }
  }

  class ChannelHandler {
    var bindingPairLookup: map<BindingPair, ChannelProcessingInfo>
    var channelLookup: map<int, ChannelProcessingInfo>
    var nextAvailableChannel: int
    ghost var table: Table
    ghost var records: seq<ChannelProcessingInfo>
    ghost var repr: set<ChannelProcessingInfo>

    /** Pairs and channels are in bijection; both maps hold the same record; a record's stored pair
        is its key; the channels are exactly 1..next-1, so none is 0. */
    ghost predicate Valid()
      reads this, repr
    {
      && (forall i :: 0 <= i < |records| ==> records[i] in repr)
      && nextAvailableChannel == |table| + 1
      && Indexed(table, records, channelLookup, bindingPairLookup)
      && Stored(records, table)
    }

    constructor ()
      ensures Valid() && table == [] && repr == {}
    {
      bindingPairLookup, channelLookup, nextAvailableChannel := map[], map[], 1;
      table, records, repr := [], [], {};
    }

    lemma RecordOfChannel(c: int)
      requires Valid() && c in channelLookup
      ensures channelLookup[c].bindingPair == table[c - 1].pair
      ensures channelLookup[c].bindingPair in bindingPairLookup
      ensures bindingPairLookup[channelLookup[c].bindingPair] == channelLookup[c]
    {
      assert records[c - 1].Contents() == table[c - 1];
      ChannelOfUnique(table, table[c - 1].pair, c - 1);
    }

    lemma RecordOfPair(p: BindingPair)
      requires Valid() && p in bindingPairLookup
      ensures bindingPairLookup[p].bindingPair == p
      ensures ChannelOf(table, p) in channelLookup && channelLookup[ChannelOf(table, p)] == bindingPairLookup[p]
    {
      assert records[ChannelOf(table, p) - 1].Contents() == table[ChannelOf(table, p) - 1];
    }

    /** What the two hash maps promise to each other, in their own terms. */
    lemma IndexesAgree()
      requires Valid()
      ensures forall p :: p in bindingPairLookup ==>
                bindingPairLookup[p].bindingPair == p && bindingPairLookup[p] in channelLookup.Values
      ensures forall c :: c in channelLookup ==>
                && channelLookup[c].bindingPair in bindingPairLookup
                && bindingPairLookup[channelLookup[c].bindingPair] == channelLookup[c]
      ensures forall c, d :: c in channelLookup && d in channelLookup && c != d ==>
                channelLookup[c] != channelLookup[d]
      ensures forall c :: c in channelLookup <==> 1 <= c < nextAvailableChannel
    {
      hide ChannelOf;
      forall p | p in bindingPairLookup
        ensures bindingPairLookup[p].bindingPair == p && bindingPairLookup[p] in channelLookup.Values
      {
        RecordOfPair(p);
      }
      forall c | c in channelLookup
        ensures channelLookup[c].bindingPair in bindingPairLookup
        ensures bindingPairLookup[channelLookup[c].bindingPair] == channelLookup[c]
      {
        RecordOfChannel(c);
      }
      forall c, d | c in channelLookup && d in channelLookup && c != d
        ensures channelLookup[c] != channelLookup[d]
      {
        RecordOfChannel(c);
        RecordOfChannel(d);
      }
    }

    method AddChannelProcessor(bindingPair: BindingPair, callback: Callback) returns (ret: int)
      requires Valid()
      modifies this, repr
      ensures Valid()
      ensures (table, ret) == AddProcessor(old(table), bindingPair, callback)
      ensures fresh(repr - old(repr))
    {
      ret := -1;
      if bindingPair in bindingPairLookup {
        UpdateCallback(bindingPair, callback);
      } else {
        ret := InsertRecord(bindingPair, callback);
      }
    }

    /** The branch for a pair that is already there. */
    method UpdateCallback(bindingPair: BindingPair, callback: Callback)
      requires Valid() && bindingPair in bindingPairLookup
      modifies repr, this`table
      ensures Valid()
      ensures table == AddProcessor(old(table), bindingPair, callback).0
    {
      var record := bindingPairLookup[bindingPair];
      ghost var i := ChannelOf(table, bindingPair) - 1;
      assert record == records[i] && record.Contents() == table[i];
      record.callback := callback;
      table := table[i := record.Contents()];
      SamePairsStayIndexed(old(table), table, records, channelLookup, bindingPairLookup);
      forall j | 0 <= j < |records| ensures records[j].Contents() == table[j] {
        assert old(records[j].Contents()) == old(table)[j];
      }
    }

    /** The branch for a new pair. */
    method InsertRecord(bindingPair: BindingPair, callback: Callback) returns (channel: int)
      requires Valid() && bindingPair !in bindingPairLookup
      modifies this
      ensures Valid()
      ensures (table, channel) == AddProcessor(old(table), bindingPair, callback)
      ensures fresh(repr - old(repr))
    {
      ghost var entry := Entry(bindingPair, callback, NullName, DEFAULT_PROPERTIES);
      assert |records| == |table| && ChannelOf(table, bindingPair) == 0;
      assert AddProcessor(table, bindingPair, callback) == (table + [entry], |table| + 1);
      hide Indexed, ChannelOf, AddProcessor, Stored;
      var record := NewRecord(bindingPair, callback);
      channel := IndexRecord(record, entry);
    }

    /** Puts a new record under its pair and under the next channel. */
    method IndexRecord(record: ChannelProcessingInfo, ghost entry: Entry) returns (channel: int)
      requires Valid() && record !in repr && record.Contents() == entry && ChannelOf(table, entry.pair) == 0
      modifies this`bindingPairLookup, this`channelLookup, this`nextAvailableChannel,
               this`table, this`records, this`repr
      ensures Valid() && channel == old(nextAvailableChannel)
      ensures table == old(table) + [entry] && repr == old(repr) + {record}
    {
      hide Indexed, ChannelOf, Stored;
      NewRecordStaysIndexed(table, entry, records, record, channelLookup, bindingPairLookup);
      OneMoreStored(records, table, record);
      channelLookup := channelLookup[nextAvailableChannel := record];
      bindingPairLookup := bindingPairLookup[record.bindingPair := record];
      channel := nextAvailableChannel;
      nextAvailableChannel := nextAvailableChannel + 1;
      table, records, repr := table + [entry], records + [record], repr + {record};
    }

    method SetQueueName(heap: NameHeap, channel: int, queueName: QueueName)
      requires Valid()
      modifies repr, this`table, heap
      ensures Valid() && table == WithQueueName(old(table), channel, queueName)
      ensures heap.next == old(heap.next)
      ensures !Registered(table, channel) ==> heap.live == old(heap.live) && heap.faults == old(heap.faults)
      ensures Registered(table, channel) ==>
                var stored := old(table)[channel - 1].queueName;
                if stored == NullName then heap.live == old(heap.live) && heap.faults == old(heap.faults)
                else if stored.Buffer? && stored.address in old(heap.live)
                then heap.live == old(heap.live) - {stored.address} && heap.faults == old(heap.faults)
                else heap.live == old(heap.live) && heap.faults == old(heap.faults) + 1
    {
      if channel in channelLookup {
        assert records[channel - 1].Contents() == table[channel - 1];
        heap.Free(channelLookup[channel].queueName);
        channelLookup[channel].queueName := queueName;
        table := WithQueueName(table, channel, queueName);
        SamePairsStayIndexed(old(table), table, records, channelLookup, bindingPairLookup);
      }
    }

    method SetQueueProperties(channel: int, queueProperties: QueueProperties)
      requires Valid()
      modifies repr, this`table
      ensures Valid() && table == WithProperties(old(table), channel, queueProperties)
    {
      if channel in channelLookup {
        channelLookup[channel].queueProperties := queueProperties;
        table := WithProperties(table, channel, queueProperties);
        SamePairsStayIndexed(old(table), table, records, channelLookup, bindingPairLookup);
      }
    }

    method GetExchange(channel: int) returns (exchange: string)
      requires Valid()
      ensures exchange == PairOf(table, channel).exchangeName
    {
      if channel in channelLookup {
        assert records[channel - 1].Contents() == table[channel - 1];
        return channelLookup[channel].bindingPair.exchangeName;
      }
      return "";
    }

    method GetBindingKey(channel: int) returns (key: string)
      requires Valid()
      ensures key == PairOf(table, channel).routingKey
    {
      if channel in channelLookup {
        assert records[channel - 1].Contents() == table[channel - 1];
        return channelLookup[channel].bindingPair.routingKey;
      }
      return "";
    }

    method GetQueueProperties(channel: int) returns (properties: QueueProperties)
      requires Valid()
      ensures properties == PropertiesOf(table, channel)
    {
      if channel in channelLookup {
        assert records[channel - 1].Contents() == table[channel - 1];
        return channelLookup[channel].queueProperties;
      }
      return DEFAULT_PROPERTIES;
    }

    /** The callback run for a message, if any. Callbacks do not call back into the handler. */
    method Process(bindingPair: BindingPair) returns (run: Option<Callback>)
      requires Valid()
      ensures run == Dispatch(table, bindingPair)
    {
      if bindingPair !in bindingPairLookup {
        return None;
      }
      assert records[ChannelOf(table, bindingPair) - 1].Contents() == table[ChannelOf(table, bindingPair) - 1];
      return Some(bindingPairLookup[bindingPair].callback);
    }

    /** Every channel exactly once, in the (arbitrary) order of the hash map. */
    method GetChannelList() returns (list: seq<int>)
      requires Valid()
      ensures IsChannelList(list, |table|)
    {
      list := [];
      var unvisited: set<int> := channelLookup.Keys;
      while unvisited != {}
        invariant unvisited <= channelLookup.Keys
        invariant NoDuplicates(list)
        invariant forall c :: c in list <==> c in channelLookup && c !in unvisited
        decreases |unvisited|
      {
        HasMember(unvisited);
        var c: int :| c in unvisited;
        list := list + [c];
        unvisited := unvisited - {c};
      }
    }

    /** The destructor: frees every stored name. */
    method Destroy(heap: NameHeap)
      requires Valid()
      modifies heap
      ensures heap.next == old(heap.next)
      ensures AllOwned(NamesOf(table), old(heap.live)) ==>
                heap.faults == old(heap.faults) && heap.live == old(heap.live) - Addresses(NamesOf(table))
    {
      forall i | 0 <= i < |records| ensures records[i].queueName == NamesOf(table)[i] {
        assert records[i].Contents() == table[i];
      }
      FreeNames(channelLookup, NamesOf(table), heap);
    }
  }

  /** The destructor's loop over the hash map of channels. */
  method FreeNames(channelLookup: map<int, ChannelProcessingInfo>, ghost names: seq<QueueName>, heap: NameHeap)
    requires forall c :: c in channelLookup <==> 1 <= c <= |names|
    requires forall c :: c in channelLookup ==> channelLookup[c].queueName == names[c - 1]
    modifies heap
    ensures heap.next == old(heap.next)
    ensures AllOwned(names, old(heap.live)) ==>
              heap.faults == old(heap.faults) && heap.live == old(heap.live) - Addresses(names)
  {
    hide Addresses, AllOwned;
    var unvisited: set<int> := channelLookup.Keys;
    ghost var owned := AllOwned(names, heap.live);
    ghost var owner: map<nat, int> := map[];
    while unvisited != {}
      invariant unvisited <= channelLookup.Keys
      invariant heap.next == old(heap.next)
      invariant owned ==> heap.faults == old(heap.faults) && heap.live == old(heap.live) - owner.Keys
      invariant forall a :: a in owner ==>
                  owner[a] in channelLookup && owner[a] !in unvisited && names[owner[a] - 1] == Buffer(a)
      invariant forall c :: c in channelLookup && c !in unvisited && names[c - 1].Buffer? ==> names[c - 1].address in owner
      decreases |unvisited|
    {
      HasMember(unvisited);
      var c: int :| c in unvisited;
      OwnedAt(names, old(heap.live), c - 1);
      heap.Free(channelLookup[c].queueName);
      if names[c - 1].Buffer? {
        assert owned ==> names[c - 1].address !in owner;
        owner := owner[names[c - 1].address := c];
      }
      unvisited := unvisited - {c};
    }
    forall i | 0 <= i < |names| && names[i].Buffer? ensures names[i].address in owner {
      assert i + 1 in channelLookup && names[i + 1 - 1].Buffer?;
    }
    OwnersAreAddresses(names, owner);
  }

  lemma OwnedAt(names: seq<QueueName>, live: set<nat>, i: nat)
    requires i < |names|
    ensures AllOwned(names, live) ==> names[i] != Garbage && (names[i].Buffer? ==> names[i].address in live)
    ensures AllOwned(names, live) && names[i].Buffer? ==>
              forall j :: 0 <= j < |names| && j != i ==> names[j] != names[i]
  {
  }

  lemma OwnersAreAddresses(names: seq<QueueName>, owner: map<nat, int>)
    requires forall a :: a in owner ==> 1 <= owner[a] <= |names| && names[owner[a] - 1] == Buffer(a)
    requires forall i :: 0 <= i < |names| && names[i].Buffer? ==> names[i].address in owner
    ensures owner.Keys == Addresses(names)
  {
    forall a ensures a in Addresses(names) <==> a in owner.Keys {
      AddressesAre(names, a);
      if a in owner {
        assert names[owner[a] - 1] == Buffer(a);
      }
    }
  }

  lemma {:induction false} SamePairsSameChannels(s: Table, t: Table, pair: BindingPair)
    requires |s| == |t| && forall i :: 0 <= i < |s| ==> s[i].pair == t[i].pair
    ensures ChannelOf(s, pair) == ChannelOf(t, pair)
  {
    if s != [] {
      SamePairsSameChannels(s[..|s| - 1], t[..|t| - 1], pair);
    }
  }

  lemma HasMember(s: set<int>)
    ensures s != {} ==> exists c :: c in s
  {
    if forall c :: c !in s {
      assert s == {};
    }
  }

  // ---- Names owned by a table ----

  function NamesOf(t: Table): (names: seq<QueueName>)
    ensures |names| == |t| && forall i :: 0 <= i < |t| ==> names[i] == t[i].queueName
  {
    seq(|t|, i requires 0 <= i < |t| => t[i].queueName)
  }

  function Addresses(names: seq<QueueName>): set<nat> {
    if names == [] then {}
    else Addresses(names[..|names| - 1]) + (match names[|names| - 1] case Buffer(a) => {a} case _ => {})
  }

  lemma {:induction false} AddressesAre(names: seq<QueueName>, a: nat)
    ensures a in Addresses(names) <==> exists i :: 0 <= i < |names| && names[i] == Buffer(a)
  {
    if names != [] {
      var front := names[..|names| - 1];
      AddressesAre(front, a);
      if i :| 0 <= i < |names| && names[i] == Buffer(a) {
        assert i < |front| ==> front[i] == Buffer(a);
      }
    }
  }

  /** Each name is null or a live buffer no other channel holds. */
  ghost predicate AllOwned(names: seq<QueueName>, live: set<nat>) {
    && (forall i :: 0 <= i < |names| ==> names[i] != Garbage && (names[i].Buffer? ==> names[i].address in live))
    && (forall i, j :: 0 <= i < j < |names| && names[i].Buffer? ==> names[i] != names[j])
  }
}
