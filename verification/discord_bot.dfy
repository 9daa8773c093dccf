/** The Discord interaction endpoint (`src/discord_bot/main.py`).

    A request is decoded, its Ed25519 signature checked, and the interaction
    dispatched on its type and, for slash commands, on the command name. The
    handler catches every exception and answers it with status 500; a
    signature that fails to verify is only logged. */
module DiscordBot {
  import opened PyJson

  /** `data` of an application-command interaction. */
  datatype CommandData = CommandData(name: Field<Scalar>)

  /** A decoded interaction object. `Null` for `data` also stands for any
      value that is not an object (subscripting it raises `TypeError`). */
  datatype Interaction = Interaction(kind: Field<Scalar>, data: Field<CommandData>)

  /** What `json.loads` makes of the request body. */
  datatype Payload =
    | Malformed               // not JSON: `JSONDecodeError`, a `ValueError`
    | NotAnObject             // valid JSON but not an object: a list, string, number
    | Object(interaction: Interaction)

  /** The two signature headers; `None` when the header is missing. */
  datatype Headers = Headers(signature: Option<string>, timestamp: Option<string>)

  /** The API gateway event: `body` and `headers`. */
  datatype Request = Request(body: Field<Payload>, headers: Field<Headers>)

  /** What checking the signature does: Ed25519 over the timestamp followed
      by the re-serialised body, with the configured public key. `Forged` is
      `BadSignatureError`; `VerifyRaises` covers every other exception of
      that step (an unset key, bad hex, a key or signature of the wrong
      length). */
  datatype Verdict = Valid | Forged | VerifyRaises(error: PyError)

  /** The signature check, left opaque: (timestamp, signature, payload). */
  type Verifier = (string, string, Payload) -> Verdict

  /** Response bodies, each the `json.dumps` of one value. */
  datatype Reply =
    | Pong                           // {"type": 1}
    | ChannelMessage(content: string) // {"type": 4, "data": {"content": ...}}
    | Text(message: string)          // a JSON string
    | InternalError(error: PyError)  // "Internal server error: " + str(e)

  const JSON_CONTENT_TYPE: string := "application/json"

  /** An HTTP response; every one the handler builds is JSON. */
  datatype Response = Response(statusCode: int, contentType: string, body: Reply)

  const PING: int := 1
  const APPLICATION_COMMAND: int := 2
  const HELLO_REPLY: string := "Hello, YVR DevOps!"

  /** The response built for an exception caught by the handler. */
  function ServerError(e: PyError): Response {
    Response(500, JSON_CONTENT_TYPE, InternalError(e))
  }

  /** `json.loads(event["body"])`. */
  function Decode(body: Field<Payload>): (r: Result<Payload>)
    ensures r.Ok? <==> body.Present? && !body.value.Malformed?
    ensures r.Ok? ==> r.value == body.value
  {
    match body
    case Absent => Raise(KeyError)
    case Null => Raise(TypeError)
    case Present(Malformed) => Raise(ValueError)
    case Present(p) => Ok(p)
  }

  /** Both signature headers are there to read. */
  predicate HeadersPresent(headers: Field<Headers>) {
    headers.Present? && headers.value.signature.Some? && headers.value.timestamp.Some?
  }

  /** Lines 21-39: read both headers, then verify. The verdict is returned
      but nothing acts on it: a forged signature is logged and the request
      proceeds. */
  function CheckSignature(headers: Field<Headers>, payload: Payload, verify: Verifier): (r: Result<Verdict>)
    ensures r.Ok? <==>
      && HeadersPresent(headers)
      && !verify(headers.value.timestamp.value, headers.value.signature.value, payload).VerifyRaises?
    ensures r.Ok? ==> r.value in {Valid, Forged}
  {
    match headers
    case Absent => Raise(KeyError)
    case Null => Raise(TypeError)
    case Present(h) =>
      if h.signature.None? || h.timestamp.None? then Raise(KeyError)
      else match verify(h.timestamp.value, h.signature.value, payload)
        case VerifyRaises(e) => Raise(e)
        case v => Ok(v)
  }

  /** `interaction["type"]`: a missing key raises, `null` gives `None`. */
  function TypeOf(payload: Payload): Result<Option<Scalar>>
    requires !payload.Malformed?
  {
    match payload
    case NotAnObject => Raise(TypeError)
    case Object(i) =>
      match i.kind
      case Absent => Raise(KeyError)
      case Null => Ok(None)
      case Present(v) => Ok(Some(v))
  }

  /** `command_handler`: answer `hello`, fail on `hifive` (its first
      statement calls `logger.ino`, which does not exist, so it raises
      `AttributeError` before building its reply), and reject any other
      name with 400. */
  function HandleCommand(i: Interaction): (r: Result<Response>)
    ensures r.Ok? ==> r.value.statusCode in {200, 400} && r.value.contentType == JSON_CONTENT_TYPE
    ensures r.Ok? && r.value.statusCode == 200 ==> r.value.body == ChannelMessage(HELLO_REPLY)
    ensures r.Ok? && r.value.statusCode == 400 ==> r.value.body == Text("Unhandled command")
  {
    var data :- match i.data
      case Absent => Raise(KeyError)
      case Null => Raise(TypeError)
      case Present(d) => Ok(d);
    var command :- match data.name
      case Absent => Raise(KeyError)
      case Null => Ok(None)
      case Present(v) => Ok(Some(v));
    if command == Some(Str("hello")) then
      Ok(Response(200, JSON_CONTENT_TYPE, ChannelMessage(HELLO_REPLY)))
    else if command == Some(Str("hifive")) then
      Raise(AttributeError)
    else
      Ok(Response(400, JSON_CONTENT_TYPE, Text("Unhandled command")))
  }

  /** Lines 42-58: dispatch on the interaction type. */
  function Dispatch(payload: Payload): (r: Result<Response>)
    requires !payload.Malformed?
    ensures r.Ok? ==> r.value.statusCode in {200, 400} && r.value.contentType == JSON_CONTENT_TYPE
    ensures r.Ok? && r.value.body == Pong <==> payload.Object? && payload.interaction.kind == Present(Num(PING))
    ensures r.Raise? ==>
      || payload.NotAnObject?
      || payload.interaction.kind.Absent?
      || payload.interaction.kind == Present(Num(APPLICATION_COMMAND))
  {
    var kind :- TypeOf(payload);
    if kind == Some(Num(PING)) then
      Ok(Response(200, JSON_CONTENT_TYPE, Pong))
    else if kind == Some(Num(APPLICATION_COMMAND)) then
      HandleCommand(payload.interaction)
    else
      Ok(Response(400, JSON_CONTENT_TYPE, Text("Unhandled request type")))
  }

  /** `lambda_handler`: every exception raised on the way becomes a 500
      response carrying it, so a response always exists and is JSON. */
  function Handle(req: Request, verify: Verifier): (r: Response)
    ensures r.statusCode in {200, 400, 500}
    ensures r.contentType == JSON_CONTENT_TYPE
    ensures r.statusCode == 500 <==> r.body.InternalError?
    ensures r.statusCode == 200 <==> r.body in {Pong, ChannelMessage(HELLO_REPLY)}
    ensures r.statusCode == 400 <==> r.body in {Text("Unhandled request type"), Text("Unhandled command")}
  {
    match Decode(req.body)
    case Raise(e) => ServerError(e)
    case Ok(payload) =>
      match CheckSignature(req.headers, payload, verify)
      case Raise(e) => ServerError(e)
      case Ok(_) =>
        match Dispatch(payload)
        case Raise(e) => ServerError(e)
        case Ok(resp) => resp
  }
}
