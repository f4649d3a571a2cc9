/** Who owns the queue-name buffers that DeclareQueue allocates and the channel handler keeps, over
    any history of registrations and set-up attempts, ending with the handler's destructor. The
    code as written is compared with the same code returning the error its inner block decodes. */
module QueueNames {
  import opened HareErrors
  import opened Bindings
  import opened Connection
  import opened ChannelHandlers

  /** The name each channel holds, and the heap: `next` counts allocations, `frees` successful frees,
      `faults` all uses of memory that is not there. */
  datatype Memory = Memory(names: seq<QueueName>, live: set<nat>, next: nat, frees: nat, faults: nat)

  const EMPTY := Memory([], {}, 0, 0, 0)

  function FreeName(m: Memory, name: QueueName): Memory {
    match name
    case NullName => m
    case Buffer(a) =>
      if a in m.live then m.(live := m.live - {a}, frees := m.frees + 1) else m.(faults := m.faults + 1)
    case Garbage => m.(faults := m.faults + 1)
  }

  /** SetQueueName. */
  function SetName(m: Memory, channel: int, name: QueueName): Memory {
    if 1 <= channel <= |m.names|
    then FreeName(m, m.names[channel - 1]).(names := m.names[channel - 1 := name])
    else m
  }

  /** DeclareQueue on setupAndConsume's uninitialised local. The library returns no queue for an
      error, so copying its name after an unknown error, which decodes to success, uses null. */
  function NameFrom(m: Memory, reply: RpcReply): (Memory, QueueName) {
    if !NoError(DecodeRpcReply(reply)) then (m, Garbage)
    else if reply.Normal? then (m.(live := m.live + {m.next}, next := m.next + 1), Buffer(m.next))
    else (m.(faults := m.faults + 1), Garbage)
  }

  /** Consumer::declareQueue. The code always sees success; were the inner error `returned`, it would
      store a name only after a success. */
  function Declare(m: Memory, channel: int, reply: RpcReply, returned: bool): Memory {
    var (m', name) := NameFrom(m, reply);
    if returned && !NoError(DecodeRpcReply(reply)) then m' else SetName(m', channel, name)
  }

  datatype Event = Register | Attempt(channel: int, reply: RpcReply)

  function Happen(m: Memory, e: Event, returned: bool): Memory {
    match e
    case Register => m.(names := m.names + [NullName])
    case Attempt(channel, reply) => Declare(m, channel, reply, returned)
  }

  function Remember(history: seq<Event>, returned: bool): Memory {
    if history == [] then EMPTY
    else Happen(Remember(history[..|history| - 1], returned), history[|history| - 1], returned)
  }

  function FreeAll(m: Memory, names: seq<QueueName>): Memory {
    if names == [] then m else FreeName(FreeAll(m, names[..|names| - 1]), names[|names| - 1])
  }

  /** The whole life of a handler, its destructor included. */
  function Life(history: seq<Event>, returned: bool): Memory {
    var m := Remember(history, returned);
    FreeAll(m, m.names)
  }

  function Registrations(history: seq<Event>): nat {
    if history == [] then 0
    else Registrations(history[..|history| - 1]) + (if history[|history| - 1].Register? then 1 else 0)
  }

  /** Only registered channels are set up. */
  ghost predicate Proper(history: seq<Event>) {
    forall i :: 0 <= i < |history| && history[i].Attempt? ==> 1 <= history[i].channel <= Registrations(history[..i])
  }

  /** Each declare reply in the history satisfies `ok`. */
  ghost predicate AllReplies(history: seq<Event>, ok: RpcReply -> bool) {
    forall i :: 0 <= i < |history| && history[i].Attempt? ==> ok(history[i].reply)
  }

  // ---- Clean memory ----

  /** Every live buffer is held by exactly one channel, every allocation is live or was freed once,
      and nothing went wrong. */
  ghost predicate Clean(m: Memory) {
    && AllOwned(m.names, m.live) && m.live == Addresses(m.names)
    && (forall a :: a in m.live ==> a < m.next)
    && m.next == m.frees + |m.live|
    && m.faults == 0
  }

  lemma AddressesAppend(names: seq<QueueName>, name: QueueName)
    ensures Addresses(names + [name]) == Addresses(names) + (if name.Buffer? then {name.address} else {})
  {
    assert (names + [name])[..|names|] == names;
  }

  lemma RegisterKeepsClean(m: Memory)
    requires Clean(m)
    ensures Clean(m.(names := m.names + [NullName]))
  {
    AddressesAppend(m.names, NullName);
  }

  lemma RenamedAddresses(names: seq<QueueName>, i: nat, b: nat)
    requires i < |names| && Buffer(b) !in names
    requires forall k, l :: 0 <= k < l < |names| && names[k].Buffer? ==> names[k] != names[l]
    ensures Addresses(names[i := Buffer(b)]) ==
            Addresses(names) - (if names[i].Buffer? then {names[i].address} else {}) + {b}
  {
    hide Addresses;
    var names' := names[i := Buffer(b)];
    assert names'[i] == Buffer(b);
    forall a ensures a in Addresses(names') <==> a == b || (a in Addresses(names) && names[i] != Buffer(a)) {
      AddressesAre(names, a);
      AddressesAre(names', a);
      if j :| 0 <= j < |names| && j != i && names[j] == Buffer(a) {
        assert names'[j] == Buffer(a);
      }
    }
  }

  /** The names after one is replaced by a new buffer `b`, and the old one freed. */
  lemma RenamedOwned(names: seq<QueueName>, i: nat, b: nat, live: set<nat>, live': set<nat>)
    requires AllOwned(names, live) && i < |names| && Buffer(b) !in names
    requires live' == live - (if names[i].Buffer? then {names[i].address} else {}) + {b}
    ensures AllOwned(names[i := Buffer(b)], live')
  {
  }

  lemma LiveAfterNaming(live: set<nat>, was: QueueName, b: nat)
    requires b !in live && (was.Buffer? ==> was.address in live)
    ensures var live' := live - (if was.Buffer? then {was.address} else {}) + {b};
            |live'| == |live| + if was.Buffer? then 0 else 1
  {
    if was.Buffer? {
      assert |live| == |live - {was.address}| + 1;
    }
  }

  /** Replacing a channel's name frees the old one and nothing else. */
  lemma NamingKeepsClean(m: Memory, channel: int)
    requires Clean(m) && 1 <= channel <= |m.names|
    ensures Clean(SetName(m.(live := m.live + {m.next}, next := m.next + 1), channel, Buffer(m.next)))
  {
    var was, b := m.names[channel - 1], m.next;
    var live' := m.live - (if was.Buffer? then {was.address} else {}) + {b};
    AddressesAre(m.names, b);
    assert was != Garbage && (was.Buffer? ==> was.address in m.live) && Buffer(b) !in m.names;
    RenamedAddresses(m.names, channel - 1, b);
    RenamedOwned(m.names, channel - 1, b, m.live, live');
    LiveAfterNaming(m.live, was, b);
    hide Addresses, AllOwned;
    assert SetName(m.(live := m.live + {b}, next := b + 1), channel, Buffer(b)).live == live';
  }

  lemma {:induction false} FreeingAll(m: Memory, names: seq<QueueName>)
    requires AllOwned(names, m.live)
    ensures var m' := FreeAll(m, names);
            && m' == m.(live := m.live - Addresses(names), frees := m'.frees)
            && m'.frees + |m'.live| == m.frees + |m.live|
  {
    if names != [] {
      var front, last := names[..|names| - 1], names[|names| - 1];
      assert AllOwned(front, m.live);
      assert last == NullName || (last.Buffer? && last !in front && last.address in m.live);
      hide AllOwned;
      FreeingAll(m, front);
      if last.Buffer? {
        AddressesAre(front, last.address);
      }
      FreeingOne(FreeAll(m, front), last);
    }
  }

  lemma FreeingOne(m: Memory, name: QueueName)
    requires name == NullName || (name.Buffer? && name.address in m.live)
    ensures var m' := FreeName(m, name);
            && m' == m.(live := m.live - (if name.Buffer? then {name.address} else {}), frees := m'.frees)
            && m'.frees + |m'.live| == m.frees + |m.live|
  {
    if name.Buffer? {
      assert m.live == m.live - {name.address} + {name.address};
    }
  }

  // ---- Spoilt memory ----

  /** A fault has happened, or a channel holds a pointer whose free will be one. */
  predicate Spoilt(m: Memory) {
    m.faults > 0 || Garbage in m.names
  }

  lemma SetNameSpoils(m: Memory, channel: int, name: QueueName)
    requires 1 <= channel <= |m.names|
    ensures Spoilt(m) || name == Garbage ==> Spoilt(SetName(m, channel, name))
    ensures |SetName(m, channel, name).names| == |m.names|
  {
    var m' := SetName(m, channel, name);
    if name == Garbage {
      assert m'.names[channel - 1] == Garbage;
    } else if Garbage in m.names && m.names[channel - 1] != Garbage {
      var j :| 0 <= j < |m.names| && m.names[j] == Garbage;
      assert m'.names[j] == Garbage;
    }
  }

  lemma {:induction false} FreeingGarbage(m: Memory, names: seq<QueueName>)
    ensures FreeAll(m, names).faults >= m.faults
    ensures Garbage in names ==> FreeAll(m, names).faults > m.faults
  {
    if names != [] {
      FreeingGarbage(m, names[..|names| - 1]);
    }
  }

  // ---- Histories ----

  /** A reply after which the step keeps memory clean. */
  predicate Fine(reply: RpcReply, returned: bool) {
    if returned then !UnknownError(reply) else reply.Normal?
  }

  lemma EventKept(m: Memory, e: Event, returned: bool)
    requires e.Attempt? ==> 1 <= e.channel <= |m.names|
    ensures Clean(m) && (e.Attempt? ==> Fine(e.reply, returned)) ==> Clean(Happen(m, e, returned))
    ensures Spoilt(m) || (e.Attempt? && !Fine(e.reply, returned)) ==> Spoilt(Happen(m, e, returned))
    ensures |Happen(m, e, returned).names| == |m.names| + if e.Register? then 1 else 0
  {
    hide SetName, Clean, Spoilt;
    match e
    case Register =>
      if Clean(m) {
        RegisterKeepsClean(m);
      }
      SpoiltByRegister(m);
    case Attempt(channel, reply) =>
      DecodedCodes(reply);
      var (m', name) := NameFrom(m, reply);
      SpoiltByNaming(m, reply);
      SetNameSpoils(m', channel, name);
      if Clean(m) && reply.Normal? {
        NamingKeepsClean(m, channel);
      }
  }

  lemma SpoiltByRegister(m: Memory)
    ensures Spoilt(m) ==> Spoilt(m.(names := m.names + [NullName]))
  {
  }

  lemma SpoiltByNaming(m: Memory, reply: RpcReply)
    ensures var (m', name) := NameFrom(m, reply);
            && (Spoilt(m) || UnknownError(reply) ==> Spoilt(m'))
            && m'.names == m.names
            && (!reply.Normal? ==> name == Garbage)
            && (!NoError(DecodeRpcReply(reply)) ==> m' == m)
  {
  }

  /** Memory is clean after a history whose replies are all fine, and spoilt after any other. */
  lemma {:induction false} CleanOrSpoilt(history: seq<Event>, returned: bool)
    requires Proper(history)
    ensures |Remember(history, returned).names| == Registrations(history)
    ensures AllReplies(history, reply => Fine(reply, returned)) ==> Clean(Remember(history, returned))
    ensures !AllReplies(history, reply => Fine(reply, returned)) ==> Spoilt(Remember(history, returned))
  {
    if history != [] {
      var n := |history| - 1;
      var before := history[..n];
      forall i | 0 <= i < n && before[i].Attempt?
        ensures 1 <= before[i].channel <= Registrations(before[..i])
      {
        assert before[..i] == history[..i] && before[i] == history[i];
      }
      CleanOrSpoilt(before, returned);
      assert history == before + [history[n]];
      EventKept(Remember(before, returned), history[n], returned);
      hide Happen, Clean, Spoilt, Fine;
      if !AllReplies(before, reply => Fine(reply, returned)) {
        var i :| 0 <= i < n && before[i].Attempt? && !Fine(before[i].reply, returned);
        assert history[i] == before[i];
      }
    }
  }

  /** The life of a handler is free of faults if and only if every declare reply was fine, and then
      its destructor has freed every buffer ever allocated, exactly once. */
  lemma LifeIsClean(history: seq<Event>, returned: bool)
    requires Proper(history)
    ensures Life(history, returned).faults == 0 <==> AllReplies(history, reply => Fine(reply, returned))
    ensures Life(history, returned).faults == 0 ==>
              Life(history, returned).live == {} && Life(history, returned).frees == Life(history, returned).next
  {
    CleanOrSpoilt(history, returned);
    var m := Remember(history, returned);
    if Clean(m) {
      FreeingAll(m, m.names);
    }
    FreeingGarbage(m, m.names);
  }

  // ---- What follows for the code ----

  /** The code as written is free of faults exactly when no declare ever failed: after any failure,
      known or not, an uninitialised pointer or a null one is used. */
  lemma CodeSafeIffDeclaresSucceed(history: seq<Event>)
    requires Proper(history)
    ensures Life(history, false).faults == 0 <==> AllReplies(history, reply => reply == Normal)
  {
    LifeIsClean(history, false);
    hide Life;
  }

  /** With the inner error returned, it is free of faults exactly when no declare ended in an error
      the decoder does not know. */
  lemma ReturnedErrorSafeIffKnown(history: seq<Event>)
    requires Proper(history)
    ensures Life(history, true).faults == 0 <==> AllReplies(history, reply => !UnknownError(reply))
    ensures Life(history, true).faults == 0 ==>
              Life(history, true).live == {} && Life(history, true).frees == Life(history, true).next
  {
    LifeIsClean(history, true);
    hide Life;
  }

  /** Then, at every moment, each live buffer is held by exactly one channel, each channel holds at
      most one, and the buffers allocated are those freed plus those held. */
  lemma OneBufferPerChannel(history: seq<Event>)
    requires Proper(history) && AllReplies(history, reply => !UnknownError(reply))
    ensures var m := Remember(history, true);
            && m.faults == 0
            && m.next == m.frees + |m.live|
            && (forall a :: a in m.live <==> exists i :: 0 <= i < |m.names| && m.names[i] == Buffer(a))
            && (forall i, j :: 0 <= i < j < |m.names| && m.names[i].Buffer? ==> m.names[i] != m.names[j])
            && Garbage !in m.names
  {
    CleanOrSpoilt(history, true);
    var m := Remember(history, true);
    forall a ensures a in m.live <==> exists i :: 0 <= i < |m.names| && m.names[i] == Buffer(a) {
      AddressesAre(m.names, a);
    }
  }

  /** One subscription whose only declare ends in a channel exception: its destructor frees an
      uninitialised pointer. */
  lemma FailedDeclareFaults()
    ensures var history := [Register, Attempt(1, ServerException(ChannelClose))];
            Proper(history) && Life(history, false).faults == 1 && Life(history, true).faults == 0
  {
    var e := Attempt(1, ServerException(ChannelClose));
    var history := [Register, e];
    assert history[..1] == [Register] && [Register][..0] == [];
    assert Registrations(history[..1]) == 1;
    assert Remember([Register], false) == EMPTY.(names := [NullName]);
    assert Remember([Register], true) == EMPTY.(names := [NullName]);
    assert Remember(history, false).names == [Garbage];
    assert [Garbage][..0] == [] && [NullName][..0] == [];
  }

  // ---- The code ----

  /** Consumer::declareQueue on the handler and the heap. */
  method DeclareAndName(handler: ChannelHandler, connection: ConnectionBase, heap: NameHeap, channel: int, reply: RpcReply)
      returns (ret: HareError)
    requires handler.Valid()
    modifies handler`table, handler.repr, heap, connection`calls
    ensures handler.Valid() && NoError(ret)
    ensures connection.calls ==
              old(connection.calls) + [Sent(DeclareCall(channel, PropertiesOf(old(handler.table), channel)), ret)]
    ensures var m := Declare(old(Memory(NamesOf(handler.table), heap.live, heap.next, 0, heap.faults)), channel, reply, false);
            NamesOf(handler.table) == m.names && heap.live == m.live && heap.next == m.next && heap.faults == m.faults
  {
    hide Indexed, Stored;
    DecodedCodes(reply);
    var queueName, named := Garbage, false;
    var properties := handler.GetQueueProperties(channel);
    ret, named := connection.DeclareQueue(channel, properties, reply);
    if named {
      if reply.Normal? {
        queueName := heap.MallocDup();
      } else {
        heap.Fault();
      }
    }
    if NoError(ret) {
      handler.SetQueueName(heap, channel, queueName);
    }
  }

  /** The handler's destructor after any proper history without failed declares leaves no buffer. */
  method DestroyHandler(handler: ChannelHandler, heap: NameHeap, ghost history: seq<Event>)
    requires handler.Valid() && Proper(history) && AllReplies(history, reply => reply == Normal)
    requires var m := Remember(history, false);
             NamesOf(handler.table) == m.names && heap.live == m.live && heap.faults == m.faults
    modifies heap
    ensures heap.live == {} && heap.faults == 0
  {
    CleanOrSpoilt(history, false);
    handler.Destroy(heap);
  }
}
