/** The service protocol shared by both clients: the JSON replies of the HTTP
    API, the status check every reply goes through, and the single-byte push
    frames of the streaming channel. pullover/client.py and pushover/client.py
    carry identical copies of this logic. */
module Protocol {

  datatype Option<+T> = None | Some(value: T)

  datatype Result<+T, +E> = Ok(value: T) | Err(error: E)

  datatype Outcome<+E> = Pass | Fail(error: E)

  /** The JSON values a reply field can hold (floats and objects are not modelled). */
  datatype Value = Null | Bool(b: bool) | Int(i: int) | Str(s: string) | List(items: seq<Value>)

  /** One pending message: its `id` key (absent when None) and its text-valued keys. */
  datatype Message = Message(id: Option<int>, text: map<string, string>)

  /** A decoded JSON reply, reduced to the keys the clients read. */
  datatype Reply = Reply(status: Option<Value>, errors: Option<Value>, messages: Option<seq<Message>>)

  /** What an HTTP call yields: no usable reply (a transport or decoding failure) or a reply. */
  datatype Response = Unreachable | Replied(reply: Reply)

  /** Whether an exception is a KeyboardInterrupt or any other exception. */
  datatype Cause = KeyboardInterrupt | OtherError

  /** A frame as the websocket hands it over: binary or text. */
  datatype Frame = Bytes(data: seq<bv8>) | Text(chars: string)

  /** The exceptions the clients raise or let through. */
  datatype Exception =
    | PushoverException(errors: Value)   // a reply whose status is not 1, carrying its errors
    | UnknownPushMessage(frame: Frame)   // a push frame matching no PushMessage value
    | KeyError(key: string)              // a missing dictionary key
    | ValueError                         // max() of an empty sequence
    | AttributeError                     // close() looked up on None
    | ClientError                        // the HTTP request or its JSON decoding failed
    | ChannelError(cause: Cause)         // connect, send or receive on the websocket failed
    | CallbackError                      // the delivery callback raised

  const UNKNOWN_ERROR: Value := Str("Unknown Error")

  /** The number a value compares equal to under Python's `==`: bools are 0 and 1. */
  function Numeric(v: Value): Option<int> {
    match v
    case Bool(b) => Some(if b then 1 else 0)
    case Int(i) => Some(i)
    case _ => None
  }

  /** `result.get('status', 0) != 1` raises; otherwise the reply is accepted. */
  function CheckResult(r: Reply): (o: Outcome<Exception>)
    ensures o == Pass <==> r.status == Some(Int(1)) || r.status == Some(Bool(true))
    ensures r.status == None ==> o.Fail?
    ensures o.Fail? ==> o.error.PushoverException?
    ensures o.Fail? && r.errors.Some? ==> o.error.errors == r.errors.value
    ensures o.Fail? && r.errors.None? ==> o.error.errors == UNKNOWN_ERROR
  {
    var status := if r.status.Some? then r.status.value else Int(0);
    if Numeric(status) == Some(1) then Pass
    else Fail(PushoverException(if r.errors.Some? then r.errors.value else UNKNOWN_ERROR))
  }

  /** `messages()`: the fetched list, after the status check and the `['messages']` lookup. */
  function FetchMessages(resp: Response): (r: Result<seq<Message>, Exception>)
    ensures r.Ok? <==> resp.Replied? && CheckResult(resp.reply) == Pass && resp.reply.messages.Some?
    ensures r.Ok? ==> r.value == resp.reply.messages.value
    ensures resp.Replied? && CheckResult(resp.reply).Fail? ==> r == Err(CheckResult(resp.reply).error)
    ensures resp.Unreachable? ==> r == Err(ClientError)
    ensures resp.Replied? && CheckResult(resp.reply) == Pass && resp.reply.messages.None? ==>
      r == Err(KeyError("messages"))
  {
    match resp
    case Unreachable => Err(ClientError)
    case Replied(reply) =>
      match CheckResult(reply)
      case Fail(e) => Err(e)
      case Pass => if reply.messages.Some? then Ok(reply.messages.value) else Err(KeyError("messages"))
  }

  /** `update_highest_message(id)`: the outcome of the POST, once it has been issued. */
  function UpdateHighestMessage(resp: Response): (o: Outcome<Exception>)
    ensures o == Pass <==> resp.Replied? && CheckResult(resp.reply) == Pass
    ensures resp.Unreachable? ==> o == Fail(ClientError)
    ensures resp.Replied? ==> o == CheckResult(resp.reply)
  {
    match resp
    case Unreachable => Fail(ClientError)
    case Replied(reply) => CheckResult(reply)
  }

  /** The four push signals, in the order the `PushMessage` enum declares them. */
  datatype PushMessage = Keepalive | NewMessage | ReloadRequest | Error

  const MEMBERS: seq<PushMessage> := [Keepalive, NewMessage, ReloadRequest, Error]

  /** The payload of each signal: b'#', b'!', b'R' and b'E'. */
  function PayloadOf(m: PushMessage): (p: seq<bv8>)
    ensures |p| == 1
  {
    match m
    case Keepalive => [0x23]
    case NewMessage => [0x21]
    case ReloadRequest => [0x52]
    case Error => [0x45]
  }

  /** The for/else search: the first candidate whose payload equals the frame's bytes. */
  function Lookup(candidates: seq<PushMessage>, payload: seq<bv8>): (r: Option<PushMessage>)
    ensures r.Some? ==> r.value in candidates && PayloadOf(r.value) == payload
    ensures r.None? ==> forall c :: c in candidates ==> PayloadOf(c) != payload
    decreases |candidates|
  {
    if candidates == [] then None
    else if PayloadOf(candidates[0]) == payload then Some(candidates[0])
    else Lookup(candidates[1..], payload)
  }

  /** `wss_wait`'s decoding step. A text frame never equals a bytes value in Python 3. */
  function Decode(frame: Frame): (r: Result<PushMessage, Exception>)
    ensures r.Err? ==> r.error == UnknownPushMessage(frame)
  {
    match frame
    case Text(_) => Err(UnknownPushMessage(frame))
    case Bytes(data) =>
      match Lookup(MEMBERS, data)
      case Some(m) => Ok(m)
      case None => Err(UnknownPushMessage(frame))
  }

  /** Distinct signals have distinct payloads. */
  lemma PayloadsDistinct(m1: PushMessage, m2: PushMessage)
    ensures PayloadOf(m1) == PayloadOf(m2) <==> m1 == m2
  {
  }

  /** signal -> payload -> signal is the identity. */
  lemma DecodeRoundTrip(m: PushMessage)
    ensures Decode(Bytes(PayloadOf(m))) == Ok(m)
  {
  }

  /** payload -> signal -> payload is the identity: only the four payloads decode. */
  lemma DecodeOnlyKnownPayloads(frame: Frame)
    ensures Decode(frame).Ok? ==> frame == Bytes(PayloadOf(Decode(frame).value))
    ensures Decode(frame).Ok? <==>
      frame in {Bytes([0x23]), Bytes([0x21]), Bytes([0x52]), Bytes([0x45])}
  {
  }
}
