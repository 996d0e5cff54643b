/**
 * NetworkClient.kt: the UDP control link to the receiver. Every request is one
 * datagram, a one-byte message tag followed by the payload; every reply is one
 * byte. The socket is modelled abstractly: whether it is connected, the log of
 * datagrams it delivered, a script of send faults and a script of replies.
 */
module Network {
  import opened Util

  /** Client-to-device message types and their tag bytes. */
  datatype Message = Connect | Disconnect | Data | Ping {
    function Tag(): byte {
      match this
      case Connect => 1
      case Disconnect => 2
      case Data => 4
      case Ping => 8
    }
  }

  /** Device-to-client reply codes. */
  datatype Response = ConnectionSuccess | ConnectionFailure | Disconnected | Unsupported | Pong {
    function Code(): byte {
      match this
      case ConnectionSuccess => 100
      case ConnectionFailure => 101
      case Disconnected => 200
      case Unsupported => 201
      case Pong => 202
    }
  }

  /** `Response.entries`, in declaration order. */
  const ResponseEntries: seq<Response> :=
    [ConnectionSuccess, ConnectionFailure, Disconnected, Unsupported, Pong]

  /** The codes a reply may carry. */
  predicate IsResponseCode(code: byte) {
    code == 100 || code == 101 || code == 200 || code == 201 || code == 202
  }

  /** The payload of the CONNECT request. */
  const ConnectMagic: seq<byte> := [0x45, 0x45]

  /**
   * What the client raises. All are ClientException except InvalidResponseCode
   * (IllegalArgumentException from `Response.tryFrom`) and UnexpectedResponse
   * (IllegalStateException from `connect`).
   */
  datatype ClientError =
    | NotConnectedToNetwork      // send failed with SocketException or IOException
    | UnexpectedError(message: string)  // send failed with any other exception
    | NoResponse                 // receive failed or timed out
    | InvalidResponseCode
    | UnexpectedResponse
    | AlreadyConnected
    | ConnectionRefused
    | CannotEmit
    | CannotDisconnect
    | CannotPing
    | NoDisconnectConfirmation
    | NoPingResponse
  {
    predicate IsClientException() {
      !InvalidResponseCode? && !UnexpectedResponse?
    }
  }

  /** `entries.firstOrNull { it.code == code }`. */
  function FirstWithCode(entries: seq<Response>, code: byte): (r: Option<Response>)
    ensures r.Some? <==> exists i :: 0 <= i < |entries| && entries[i].Code() == code
    ensures r.Some? ==> r.value in entries && r.value.Code() == code
  {
    if entries == [] then None
    else if entries[0].Code() == code then Some(entries[0])
    else
      var r := FirstWithCode(entries[1..], code);
      assert forall i :: 1 <= i < |entries| ==> entries[i] == entries[1..][i - 1];
      r
  }

  /** `Response.tryFrom(code)`: the response with that code, or an invalid-code error. */
  function TryFrom(code: byte): (r: Result<Response, ClientError>)
    ensures r.Ok? <==> IsResponseCode(code)
    ensures r.Ok? ==> r.value.Code() == code
    ensures r.Err? ==> r.error == InvalidResponseCode
  {
    assert IsResponseCode(code) ==> ResponseEntries[ResponseIndex(code)].Code() == code;
    match FirstWithCode(ResponseEntries, code)
    case Some(response) => Ok(response)
    case None => Err(InvalidResponseCode)
  }

  // Where the response with a valid code sits in ResponseEntries.
  function ResponseIndex(code: byte): nat {
    if code == 100 then 0 else if code == 101 then 1
    else if code == 200 then 2 else if code == 201 then 3 else 4
  }

  /** Every response is decoded from its own code. */
  lemma ResponseRoundTrip(response: Response)
    ensures TryFrom(response.Code()) == Ok(response)
  {
    var r := TryFrom(response.Code());
    assert r.Ok? && r.value.Code() == response.Code();
  }

  /** The datagram `send` builds: the tag, then the payload if there is one. */
  function Frame(message: Message, payload: Option<seq<byte>>): (f: seq<byte>)
    ensures |f| >= 1 && f[0] == message.Tag() && f[1..] == Or(payload, [])
  {
    [message.Tag()] + Or(payload, [])
  }

  function MessageFromTag(tag: byte): (r: Option<Message>)
    ensures r.Some? ==> r.value.Tag() == tag
    ensures r.None? ==> tag != 1 && tag != 2 && tag != 4 && tag != 8
  {
    if tag == 1 then Some(Connect)
    else if tag == 2 then Some(Disconnect)
    else if tag == 4 then Some(Data)
    else if tag == 8 then Some(Ping)
    else None
  }

  /** How a device reads a datagram: message type and payload. */
  function ParseFrame(datagram: seq<byte>): Option<(Message, seq<byte>)> {
    if datagram == [] then None
    else match MessageFromTag(datagram[0])
      case None => None
      case Some(message) => Some((message, datagram[1..]))
  }

  /** A device recovers the message type and the payload (empty when none) of every frame. */
  lemma FrameRoundTrip(message: Message, payload: Option<seq<byte>>)
    ensures ParseFrame(Frame(message, payload)) == Some((message, Or(payload, [])))
  {
  }

  /** The frames this client ever sends: CONNECT with its magic, DISCONNECT and PING bare. */
  predicate WellFormed(datagram: seq<byte>) {
    match ParseFrame(datagram)
    case None => false
    case Some((message, payload)) =>
      match message
      case Connect => payload == ConnectMagic
      case Disconnect => payload == []
      case Ping => payload == []
      case Data => true
  }

  /** How `socket.send` may fail. */
  datatype SendFault = SocketFault | OtherFault(message: string)

  /** What `socket.receive` yields: a datagram, or nothing before the read timeout. */
  datatype Reply = Datagram(data: seq<byte>) | NoReply

  function SendError(fault: SendFault): (e: ClientError)
    ensures e.IsClientException()
  {
    match fault
    case SocketFault => NotConnectedToNetwork
    case OtherFault(message) => UnexpectedError(message)
  }

  /** The one-byte receive buffer starts zeroed, so an empty datagram reads as code 0. */
  function ReplyCode(data: seq<byte>): (code: byte)
    ensures data == [] ==> code == 0 && !IsResponseCode(code)
    ensures data != [] ==> code == data[0]
  {
    if data == [] then 0 else data[0]
  }

  /** `receive()`: no reply is an error before any decoding; otherwise the first byte is decoded. */
  function Decode(reply: Reply): (r: Result<Response, ClientError>)
    ensures reply.NoReply? ==> r == Err(NoResponse)
    ensures reply.Datagram? ==>
              (r.Ok? <==> IsResponseCode(ReplyCode(reply.data)))
              && (r.Ok? ==> r.value.Code() == ReplyCode(reply.data))
              && (r.Err? ==> r.error == InvalidResponseCode)
  {
    match reply
    case NoReply => Err(NoResponse)
    case Datagram(data) => TryFrom(ReplyCode(data))
  }

  /** How `connect` ends once the handshake reply has been read. */
  function HandshakeOutcome(reply: Reply): (r: Outcome<ClientError>)
    ensures r == Pass <==> reply.Datagram? && ReplyCode(reply.data) == 100
    ensures r == Fail(ConnectionRefused) <==> reply.Datagram? && ReplyCode(reply.data) == 101
    ensures r == Fail(NoResponse) <==> reply.NoReply?
    ensures r == Fail(InvalidResponseCode) <==> reply.Datagram? && !IsResponseCode(ReplyCode(reply.data))
    ensures r == Fail(UnexpectedResponse) <==>
              reply.Datagram? && ReplyCode(reply.data) in {200 as byte, 201, 202}
  {
    match Decode(reply)
    case Err(e) => Fail(e)
    case Ok(ConnectionSuccess) => Pass
    case Ok(ConnectionFailure) => Fail(ConnectionRefused)
    case Ok(_) => Fail(UnexpectedResponse)
  }

  /** How `disconnect` ends once its reply has been read. */
  function DisconnectOutcome(reply: Reply): (r: Outcome<ClientError>)
    ensures r == Pass <==> reply.Datagram? && ReplyCode(reply.data) == 200
    ensures r == Fail(NoResponse) <==> reply.NoReply?
    ensures r == Fail(InvalidResponseCode) <==> reply.Datagram? && !IsResponseCode(ReplyCode(reply.data))
    ensures r == Fail(NoDisconnectConfirmation) <==>
              reply.Datagram? && ReplyCode(reply.data) in {100 as byte, 101, 201, 202}
  {
    match Decode(reply)
    case Err(e) => Fail(e)
    case Ok(response) => if response == Disconnected then Pass else Fail(NoDisconnectConfirmation)
  }

  /** How `ping` ends once its reply has been read. */
  function PingOutcome(reply: Reply): (r: Outcome<ClientError>)
    ensures r == Pass <==> reply.Datagram? && ReplyCode(reply.data) == 202
    ensures r == Fail(NoResponse) <==> reply.NoReply?
    ensures r == Fail(InvalidResponseCode) <==> reply.Datagram? && !IsResponseCode(ReplyCode(reply.data))
    ensures r == Fail(NoPingResponse) <==>
              reply.Datagram? && ReplyCode(reply.data) in {100 as byte, 101, 200, 201}
  {
    match Decode(reply)
    case Err(e) => Fail(e)
    case Ok(response) => if response == Pong then Pass else Fail(NoPingResponse)
  }

  function NextFault(faults: seq<Option<SendFault>>): Option<SendFault> {
    if faults == [] then None else faults[0]
  }

  function NextReply(replies: seq<Reply>): Reply {
    if replies == [] then NoReply else replies[0]
  }

  function Rest<T>(s: seq<T>): seq<T> {
    if s == [] then [] else s[1..]
  }

  class NetworkClient {
    const host: string
    const port: int
    /** `socket.isConnected`. */
    var connected: bool
    /** The datagrams the socket delivered, oldest first. */
    var sent: seq<seq<byte>>
    /** Outcome of each coming `socket.send`; None (or an exhausted script) means delivered. */
    var faults: seq<Option<SendFault>>
    /** What each coming `socket.receive` yields; an exhausted script means no reply. */
    var replies: seq<Reply>

    ghost predicate Valid()
      reads this
    {
      forall i {:trigger WellFormed(sent[i])} :: 0 <= i < |sent| ==> WellFormed(sent[i])
    }

    constructor (host: string, port: int, faults: seq<Option<SendFault>>, replies: seq<Reply>)
      ensures Valid()
      ensures this.host == host && this.port == port
      ensures !connected && sent == []
      ensures this.faults == faults && this.replies == replies
    {
      this.host := host;
      this.port := port;
      connected := false;
      sent := [];
      this.faults := faults;
      this.replies := replies;
    }

    method Send(message: Message, payload: Option<seq<byte>>) returns (r: Outcome<ClientError>)
      requires Valid() && WellFormed(Frame(message, payload))
      modifies this
      ensures Valid()
      ensures connected == old(connected) && replies == old(replies)
      ensures faults == Rest(old(faults))
      ensures r.Pass? <==> NextFault(old(faults)).None?
      ensures r.Pass? ==> sent == old(sent) + [Frame(message, payload)]
      ensures r.Fail? ==> sent == old(sent) && r == Fail(SendError(NextFault(old(faults)).value))
    {
      var data := [message.Tag()];
      if payload.Some? {
        data := data + payload.value;
      }
      assert data == Frame(message, payload);
      var fault := NextFault(faults);
      faults := Rest(faults);
      if fault.Some? {
        r := Fail(SendError(fault.value));
      } else {
        sent := sent + [data];
        r := Pass;
      }
    }

    method Receive() returns (r: Result<Response, ClientError>)
      modifies this
      ensures connected == old(connected) && sent == old(sent) && faults == old(faults)
      ensures replies == Rest(old(replies))
      ensures r == Decode(NextReply(old(replies)))
    {
      var reply := NextReply(replies);
      replies := Rest(replies);
      match reply
      case NoReply =>
        r := Err(NoResponse);
      case Datagram(data) =>
        var code: byte := 0;
        if data != [] {
          code := data[0];
        }
        r := TryFrom(code);
    }

    method Connect() returns (r: Outcome<ClientError>)
      requires Valid()
      modifies this
      ensures Valid()
      ensures old(connected) ==>
                r == Fail(AlreadyConnected) && connected
                && sent == old(sent) && faults == old(faults) && replies == old(replies)
      // the socket is bound before the handshake and never unbound on failure
      ensures !old(connected) ==> connected && faults == Rest(old(faults))
      ensures !old(connected) && NextFault(old(faults)).Some? ==>
                r == Fail(SendError(NextFault(old(faults)).value))
                && sent == old(sent) && replies == old(replies)
      ensures !old(connected) && NextFault(old(faults)).None? ==>
                sent == old(sent) + [[Message.Connect.Tag()] + ConnectMagic]
                && replies == Rest(old(replies))
                && r == HandshakeOutcome(NextReply(old(replies)))
    {
      if connected {
        return Fail(AlreadyConnected);
      }
      connected := true;
      r := Send(Message.Connect, Some(ConnectMagic));
      if r.Fail? {
        return;
      }
      var response := Receive();
      match response
      case Err(e) => r := Fail(e);
      case Ok(ConnectionSuccess) => r := Pass;
      case Ok(ConnectionFailure) => r := Fail(ConnectionRefused);
      case Ok(_) => r := Fail(UnexpectedResponse);
    }

    method Emit(payload: seq<byte>) returns (r: Outcome<ClientError>)
      requires Valid()
      modifies this
      ensures Valid()
      ensures connected == old(connected) && replies == old(replies)
      ensures !old(connected) ==>
                r == Fail(CannotEmit) && sent == old(sent) && faults == old(faults)
      ensures old(connected) ==> faults == Rest(old(faults))
      ensures old(connected) && NextFault(old(faults)).Some? ==>
                r == Fail(SendError(NextFault(old(faults)).value)) && sent == old(sent)
      ensures old(connected) && NextFault(old(faults)).None? ==>
                r == Pass && sent == old(sent) + [[Data.Tag()] + payload]
    {
      if !connected {
        return Fail(CannotEmit);
      }
      r := Send(Data, Some(payload));
    }

    method Disconnect() returns (r: Outcome<ClientError>)
      requires Valid()
      modifies this
      ensures Valid()
      ensures !old(connected) ==>
                r == Fail(CannotDisconnect) && !connected
                && sent == old(sent) && faults == old(faults) && replies == old(replies)
      ensures old(connected) ==> faults == Rest(old(faults))
      ensures old(connected) && NextFault(old(faults)).Some? ==>
                r == Fail(SendError(NextFault(old(faults)).value)) && connected
                && sent == old(sent) && replies == old(replies)
      ensures old(connected) && NextFault(old(faults)).None? ==>
                sent == old(sent) + [[Message.Disconnect.Tag()]]
                && replies == Rest(old(replies))
                && r == DisconnectOutcome(NextReply(old(replies)))
                && (connected <==> r.Fail?)
    {
      if !connected {
        return Fail(CannotDisconnect);
      }
      assert Frame(Message.Disconnect, None) == [Message.Disconnect.Tag()];
      r := Send(Message.Disconnect, None);
      if r.Fail? {
        return;
      }
      var response := Receive();
      if response != Ok(Disconnected) {
        r := if response.Err? then Fail(response.error) else Fail(NoDisconnectConfirmation);
        return;
      }
      connected := false;
    }

    method Ping() returns (r: Outcome<ClientError>)
      requires Valid()
      modifies this
      ensures Valid()
      ensures connected == old(connected)
      ensures !old(connected) ==>
                r == Fail(CannotPing)
                && sent == old(sent) && faults == old(faults) && replies == old(replies)
      ensures old(connected) ==> faults == Rest(old(faults))
      ensures old(connected) && NextFault(old(faults)).Some? ==>
                r == Fail(SendError(NextFault(old(faults)).value))
                && sent == old(sent) && replies == old(replies)
      ensures old(connected) && NextFault(old(faults)).None? ==>
                sent == old(sent) + [[Message.Ping.Tag()]]
                && replies == Rest(old(replies))
                && r == PingOutcome(NextReply(old(replies)))
    {
      if !connected {
        return Fail(CannotPing);
      }
      assert Frame(Message.Ping, None) == [Message.Ping.Tag()];
      r := Send(Message.Ping, None);
      if r.Fail? {
        return;
      }
      var response := Receive();
      if response != Ok(Pong) {
        r := if response.Err? then Fail(response.error) else Fail(NoPingResponse);
      }
    }
  }

  /** The DATA frame that carries a payload. */
  function DataFrame(payload: seq<byte>): seq<byte> {
    [Message.Data.Tag()] + payload
  }

  /**
   * A device that refuses the handshake: connect reports the refusal but the
   * socket stays connected, so a second connect is rejected as already
   * connected and sends nothing, while a ping goes out.
   */
  method RefusedHandshake() returns (first: Outcome<ClientError>, second: Outcome<ClientError>, ping: Outcome<ClientError>, sent: seq<seq<byte>>)
    ensures first == Fail(ConnectionRefused)
    ensures second == Fail(AlreadyConnected)
    ensures ping == Fail(NoResponse)
    ensures sent == [[1, 0x45, 0x45], [8]]
  {
    var client := new NetworkClient("192.168.1.2", 8080, [], [Datagram([101])]);
    first := client.Connect();
    assert [Message.Connect.Tag()] + ConnectMagic == [1, 0x45, 0x45];
    assert client.sent == [[1, 0x45, 0x45]];
    second := client.Connect();
    ping := client.Ping();
    sent := client.sent;
  }
}
