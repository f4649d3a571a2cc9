/** The connection wrapper (src/ConnectionBase.cpp): reply decoding, the connected flag with its
    guards, ghost connection epochs, and a ghost record of what is asked of the broker. Every answer of
    the broker is a parameter. */
module Connection {
  import opened HareErrors
  import opened Bindings

  // ---- Replies and their decoding ----

  datatype LibraryStatus =
    | IncompatibleVersion
    | ConnectionClosed
    | InvalidParameter
    | SocketError
    | Timeout
    | SocketClosed
    | SslConnectionFailed
    | SslHostnameVerifyFailed
    | UnexpectedState
    | OtherStatus(code: int)

  datatype ServerMethod = ConnectionClose | ChannelClose | OtherMethod(id: int)

  datatype RpcReply =
    | Normal
    | Missing
    | LibraryException(status: LibraryStatus)
    | ServerException(reason: ServerMethod)

  /** What amqp_consume_message leaves in the caller's envelope. */
  datatype Envelope<+T> = NoEnvelope | Unfilled | Delivered(message: T)

  /** What amqp_basic_publish answers. */
  datatype PublishStatus = Written | SocketLost | Refused

  function DecodeLibraryException(status: LibraryStatus): HareError {
    match status
    case IncompatibleVersion => InvalidAmqpVersion
    case ConnectionClosed => ServerConnectionFailure
    case InvalidParameter => InvalidParameters
    case SocketError => ServerConnectionFailure
    case Timeout => TimeoutOccured
    case SocketClosed => ServerConnectionFailure
    case SslConnectionFailed => ServerAuthenticationFailure
    case SslHostnameVerifyFailed => ServerAuthenticationFailure
    case UnexpectedState => ServerConnectionFailure
    case OtherStatus(_) => AllGood
  }

  function DecodeRpcReply(reply: RpcReply): HareError {
    match reply
    case Normal => AllGood
    case Missing => NoRpcReply
    case LibraryException(status) => DecodeLibraryException(status)
    case ServerException(ConnectionClose) => ServerConnectionFailure
    case ServerException(ChannelClose) => ChannelException
    case ServerException(OtherMethod(_)) => AllGood
  }

  /** Errors that decoding does not know, and reports as AllGood. */
  predicate UnknownError(reply: RpcReply) {
    || (reply.LibraryException? && reply.status.OtherStatus?)
    || (reply.ServerException? && reply.reason.OtherMethod?)
  }

  /** Replies the library's user takes for a success. */
  predicate Succeeds(reply: RpcReply) {
    reply == Normal || UnknownError(reply)
  }

  /** Replies that mean the connection is gone. */
  predicate LosesServer(reply: RpcReply) {
    || reply == ServerException(ConnectionClose)
    || reply in {LibraryException(ConnectionClosed), LibraryException(SocketError),
                 LibraryException(SocketClosed), LibraryException(UnexpectedState)}
  }

  // ---- What is asked of the broker ----

  /** A call, with its arguments. */
  datatype BrokerCall =
    | OpenCall(channel: int)
    | DeclareCall(channel: int, properties: QueueProperties)
    | BindCall(channel: int, pair: BindingPair)
    | ConsumeCall(channel: int)
    | DeclareExchangeCall(channel: int, exchange: string, kind: string)

  /** A call made, and the code its caller got. */
  datatype Sent = Sent(call: BrokerCall, ret: HareError)

  /** A message, as it is published. */
  datatype Publication = Publication(
    channel: int, exchange: string, routingKey: string, timestamp: Option<int>, body: string)

  /** The calls reported as successes. */
  function Successes(calls: seq<Sent>): seq<BrokerCall> {
    if calls == [] then []
    else
      var last := calls[|calls| - 1];
      Successes(calls[..|calls| - 1]) + (if NoError(last.ret) then [last.call] else [])
  }

  lemma OneMoreSent(calls: seq<Sent>, call: BrokerCall, ret: HareError)
    ensures Successes(calls + [Sent(call, ret)]) == Successes(calls) + (if NoError(ret) then [call] else [])
  {
    assert (calls + [Sent(call, ret)])[..|calls|] == calls;
  }

  // ---- Connections as values ----

  /** `established` numbers the connections made so far; `closed` lists the numbers of those
      destroyed, in the order they were destroyed. */
  datatype Conn = Conn(connected: bool, established: nat, closed: seq<nat>)

  const NO_CONNECTION := Conn(false, 0, [])

  function OnConnect(c: Conn, err: HareError): Conn {
    if NoError(err) then Conn(true, c.established + 1, c.closed) else c
  }

  function OnClose(c: Conn): Conn {
    if c.connected then Conn(false, c.established, c.closed + [c.established]) else c
  }

  function UpTo(n: nat): (s: seq<nat>)
    ensures |s| == n
    ensures forall i :: 0 <= i < n ==> s[i] == i + 1
  {
    if n == 0 then [] else UpTo(n - 1) + [n]
  }

  /** Every connection but the live one has been destroyed exactly once, in order. */
  predicate WellBracketed(c: Conn) {
    && (c.connected ==> c.established > 0)
    && c.closed == UpTo(if c.connected then c.established - 1 else c.established)
  }

  /** The code CloseConnection returns. */
  function CloseCode(connected: bool, reply: RpcReply): HareError {
    if !connected then AllGood
    else match reply
         case Missing => NoRpcReply
         case ServerException(_) => ServerExceptionResponse
         case _ => AllGood
  }

  datatype ConnCall = ConnectCall(err: HareError) | CloseCall

  function RunCalls(calls: seq<ConnCall>): Conn {
    if calls == [] then NO_CONNECTION
    else
      var before := RunCalls(calls[..|calls| - 1]);
      match calls[|calls| - 1]
      case ConnectCall(err) => OnConnect(before, err)
      case CloseCall => OnClose(before)
  }

  /** Some call of Connect succeeded while a connection was live. */
  predicate Overlaps(calls: seq<ConnCall>) {
    exists i :: 0 <= i < |calls| && calls[i] == ConnectCall(AllGood) && RunCalls(calls[..i]).connected
  }

  /** What one call keeps. A repeated close changes nothing. */
  lemma CloseOnce(c: Conn)
    ensures OnClose(OnClose(c)) == OnClose(c)
    ensures WellBracketed(c) ==> WellBracketed(OnClose(c))
    ensures WellBracketed(c) && !c.connected ==> forall err :: WellBracketed(OnConnect(c, err))
  {
  }

  lemma {:induction false} ClosedNeverShrinks(calls: seq<ConnCall>, k: nat)
    requires k <= |calls|
    ensures RunCalls(calls[..k]).established <= RunCalls(calls).established
    ensures RunCalls(calls).established - |RunCalls(calls).closed| - (if RunCalls(calls).connected then 1 else 0)
         >= RunCalls(calls[..k]).established - |RunCalls(calls[..k]).closed| - (if RunCalls(calls[..k]).connected then 1 else 0)
    decreases |calls|
  {
    if k == |calls| {
      assert calls[..k] == calls;
    } else {
      var shorter := calls[..|calls| - 1];
      assert shorter[..k] == calls[..k];
      ClosedNeverShrinks(shorter, k);
    }
  }

  /** A history of Connect and CloseConnection calls destroys every connection but the live one,
      exactly once and in order, if and only if no Connect succeeded while a connection was live.
      (An overlapping Connect overwrites the handle of the live connection.) */
  lemma {:induction false} BracketedIffNoOverlap(calls: seq<ConnCall>)
    ensures WellBracketed(RunCalls(calls)) <==> !Overlaps(calls)
    decreases |calls|
  {
    if Overlaps(calls) {
      var i :| 0 <= i < |calls| && calls[i] == ConnectCall(AllGood) && RunCalls(calls[..i]).connected;
      assert calls[..i + 1][..i] == calls[..i];
      Deficit(calls[..i]);
      ClosedNeverShrinks(calls, i + 1);
    } else if calls != [] {
      var shorter := calls[..|calls| - 1];
      forall i | 0 <= i < |shorter|
        ensures !(shorter[i] == ConnectCall(AllGood) && RunCalls(shorter[..i]).connected)
      {
        assert shorter[..i] == calls[..i];
      }
      BracketedIffNoOverlap(shorter);
      assert calls[..|calls| - 1] == shorter;
      CloseOnce(RunCalls(shorter));
    }
  }

  lemma {:induction false} Deficit(calls: seq<ConnCall>)
    ensures RunCalls(calls).established - |RunCalls(calls).closed| - (if RunCalls(calls).connected then 1 else 0) >= 0
  {
    ClosedNeverShrinks(calls, 0);
    assert calls[..0] == [];
  }

  /** Exactly which replies the decoder reports as which code; it reports no other. */
  lemma DecodedCodes(reply: RpcReply)
    ensures var ret := DecodeRpcReply(reply);
            && (NoError(ret) <==> reply == Normal || UnknownError(reply))
            && (ServerFailure(ret) <==> LosesServer(reply))
            && (ret == ServerConnectionFailure <==> LosesServer(reply))
            && (ret == ChannelException <==> reply == ServerException(ChannelClose))
            && (ret == NoRpcReply <==> reply == Missing)
            && (ret == TimeoutOccured <==> reply == LibraryException(Timeout))
            && (ret == InvalidParameters <==> reply == LibraryException(InvalidParameter))
            && (ret == InvalidAmqpVersion <==> reply == LibraryException(IncompatibleVersion))
            && (ret == ServerAuthenticationFailure <==>
                  reply in {LibraryException(SslConnectionFailed), LibraryException(SslHostnameVerifyFailed)})
            && ret in {AllGood, ServerConnectionFailure, ChannelException, NoRpcReply, TimeoutOccured,
                       InvalidParameters, InvalidAmqpVersion, ServerAuthenticationFailure}
  {
    match reply
    case LibraryException(status) => match status { case _ => }
    case _ =>
  }

  // ---- The class ----

  class ConnectionBase {
    var isConnected: bool
    var connectionFailure: bool
    ghost var established: nat
    ghost var closed: seq<nat>
    ghost var calls: seq<Sent>              // made on this connection
    ghost var published: seq<Publication>   // taken by the broker, on any connection

    ghost function View(): Conn
      reads this
    {
      Conn(isConnected, established, closed)
    }

    constructor ()
      ensures View() == NO_CONNECTION && calls == [] && published == []
    {
      isConnected, connectionFailure := false, false;
      established, closed, calls, published := 0, [], [], [];
    }

    /** `socketMade`, `socketOpened` and `loggedIn` are the answers of the three library calls. */
    method Connect(socketMade: bool, socketOpened: bool, loggedIn: bool) returns (ret: HareError)
      modifies this
      ensures View() == OnConnect(old(View()), ret)
      ensures connectionFailure == old(connectionFailure)
      ensures calls == (if NoError(ret) then [] else old(calls)) && published == old(published)
      ensures ret == InitializeFailure <==> !socketMade
      ensures ret == ServerAuthenticationFailure <==> socketMade && socketOpened && !loggedIn
      ensures NoError(ret) <==> socketMade && socketOpened && loggedIn
      ensures ServerFailure(ret) <==> socketMade && !socketOpened
    {
      ret := AllGood;
      if !socketMade {
        ret := InitializeFailure;
      }
      if NoError(ret) && !socketOpened {
        ret := ServerConnectionFailure;
      }
      if NoError(ret) && !loggedIn {
        ret := ServerAuthenticationFailure;
      }
      if NoError(ret) {
        isConnected := true;
        established, calls := established + 1, [];
      }
    }

    method CloseConnection(reply: RpcReply) returns (ret: HareError)
      modifies this
      ensures View() == OnClose(old(View()))
      ensures !isConnected && calls == [] && published == old(published)
      ensures ret == NoRpcReply <==> old(isConnected) && reply == Missing
      ensures ret == ServerExceptionResponse <==> old(isConnected) && reply.ServerException?
      ensures !NoError(ret) ==> ret in {NoRpcReply, ServerExceptionResponse}
      ensures ret == CloseCode(old(isConnected), reply)
      ensures connectionFailure == (old(connectionFailure) || ret == ServerExceptionResponse)
    {
      ret := AllGood;
      if isConnected {
        match reply {
          case Missing => ret := NoRpcReply;
          case ServerException(_) => ret := ServerExceptionResponse; connectionFailure := true;
          case _ =>
        }
        closed := closed + [established];
      }
      isConnected, calls := false, [];
    }

    method OpenChannel(channel: int, reply: RpcReply) returns (ret: HareError)
      modifies this`calls
      ensures calls == if isConnected then old(calls) + [Sent(OpenCall(channel), ret)] else old(calls)
      ensures NoError(ret) <==> isConnected && Succeeds(reply)
      ensures ServerFailure(ret) <==> !isConnected || LosesServer(reply)
      ensures ret == ChannelException <==> isConnected && reply == ServerException(ChannelClose)
      ensures ret == if isConnected then DecodeRpcReply(reply) else ServerConnectionFailure
    {
      DecodedCodes(reply);
      if !isConnected {
        return ServerConnectionFailure;
      }
      ret := DecodeRpcReply(reply);
      calls := calls + [Sent(OpenCall(channel), ret)];
    }

    method DeclareExchange(channel: int, exchange: string, kind: string, reply: RpcReply) returns (ret: HareError)
      modifies this`calls
      ensures calls == if isConnected then old(calls) + [Sent(DeclareExchangeCall(channel, exchange, kind), ret)] else old(calls)
      ensures NoError(ret) <==> isConnected && Succeeds(reply)
      ensures ServerFailure(ret) <==> !isConnected || LosesServer(reply)
      ensures ret == ChannelException <==> isConnected && reply == ServerException(ChannelClose)
      ensures ret == if isConnected then DecodeRpcReply(reply) else ServerConnectionFailure
    {
      DecodedCodes(reply);
      if !isConnected {
        return ServerConnectionFailure;
      }
      ret := DecodeRpcReply(reply);
      calls := calls + [Sent(DeclareExchangeCall(channel, exchange, kind), ret)];
    }

    /** A message without a timestamp gets the time of this attempt, whatever comes of the attempt;
        `stamped` is the message afterwards. Nothing else about it changes. */
    method PublishMessage(message: Publication, now: int, status: PublishStatus)
        returns (ret: HareError, stamped: Publication)
      modifies this`published
      ensures stamped == message.(timestamp := stamped.timestamp)
      ensures !isConnected ==> ret == ServerConnectionFailure && stamped == message
      ensures isConnected ==> stamped.timestamp == if message.timestamp.Some? then message.timestamp else Some(now)
      ensures ret == PublishError <==> isConnected && status.Refused?
      ensures isConnected ==> (NoError(ret) <==> status.Written?) && (ServerFailure(ret) <==> status.SocketLost?)
      ensures published == if NoError(ret) then old(published) + [stamped] else old(published)
    {
      stamped := message;
      if !isConnected {
        return ServerConnectionFailure, stamped;
      }
      if stamped.timestamp.None? {
        stamped := stamped.(timestamp := Some(now));
      }
      ret := AllGood;
      match status {
        case Written => published := published + [stamped];
        case SocketLost => ret := ServerConnectionFailure;
        case Refused => ret := PublishError;
      }
    }

    /** The error the inner block decodes is shadowed, so the caller always sees AllGood. `named`
        says whether a queue name was allocated for the caller. */
    method DeclareQueue(channel: int, properties: QueueProperties, reply: RpcReply) returns (ret: HareError, named: bool)
      modifies this`calls
      ensures calls == old(calls) + [Sent(DeclareCall(channel, properties), ret)]
      ensures NoError(ret)
      ensures named <==> NoError(DecodeRpcReply(reply))
    {
      ret := AllGood;
      var inner := DecodeRpcReply(reply);
      named := NoError(inner);
      calls := calls + [Sent(DeclareCall(channel, properties), ret)];
    }

    method BindQueue(channel: int, exchange: string, bindingKey: string, reply: RpcReply) returns (ret: HareError)
      modifies this`calls
      ensures calls == old(calls) + [Sent(BindCall(channel, BindingPair(exchange, bindingKey)), ret)]
      ensures NoError(ret) <==> Succeeds(reply)
      ensures ServerFailure(ret) <==> LosesServer(reply)
      ensures ret == DecodeRpcReply(reply)
    {
      DecodedCodes(reply);
      ret := DecodeRpcReply(reply);
      calls := calls + [Sent(BindCall(channel, BindingPair(exchange, bindingKey)), ret)];
    }

    method StartConsumption(channel: int, reply: RpcReply) returns (ret: HareError)
      modifies this`calls
      ensures calls == old(calls) + [Sent(ConsumeCall(channel), ret)]
      ensures NoError(ret) <==> Succeeds(reply)
      ensures ServerFailure(ret) <==> LosesServer(reply)
      ensures ret == DecodeRpcReply(reply)
    {
      DecodedCodes(reply);
      ret := DecodeRpcReply(reply);
      calls := calls + [Sent(ConsumeCall(channel), ret)];
    }

    /** The caller has a message, `delivered` by the broker, exactly after a normal reply. After an error
        the decoder does not know it is told of a success, and has an envelope nobody filled. It is told
        to reconnect exactly when the connection is down or has just been lost. */
    method ConsumeMessage<T>(delivered: T, reply: RpcReply) returns (ret: HareError, envelope: Envelope<T>)
      ensures envelope == Delivered(delivered) <==> isConnected && reply.Normal?
      ensures envelope.Unfilled? <==> isConnected && UnknownError(reply)
      ensures envelope.Delivered? ==> envelope.message == delivered
      ensures NoError(ret) <==> !envelope.NoEnvelope?
      ensures ServerFailure(ret) <==> !isConnected || LosesServer(reply)
      ensures ret == if isConnected then DecodeRpcReply(reply) else ServerConnectionFailure
    {
      DecodedCodes(reply);
      envelope := NoEnvelope;
      if !isConnected {
        return ServerConnectionFailure, envelope;
      }
      ret := DecodeRpcReply(reply);
      if NoError(ret) {
        envelope := if reply.Normal? then Delivered(delivered) else Unfilled;
      }
    }
  }
}
