/** Properties of the Discord interaction endpoint: what each interaction
    type and command is answered with, that the signature verdict does not
    matter, and exactly when the answer is a 500. */
module DiscordBotProperties {
  import opened PyJson
  import opened DiscordBot

  /** The request gets past decoding and the signature step without an
      exception. */
  predicate PassesChecks(req: Request, verify: Verifier) {
    && req.body.Present? && !req.body.value.Malformed?
    && HeadersPresent(req.headers)
    && !verify(req.headers.value.timestamp.value, req.headers.value.signature.value, req.body.value).VerifyRaises?
  }

  /** A verifier that accepts every signature. */
  function AcceptAll(): Verifier {
    (timestamp: string, signature: string, payload: Payload) => Valid
  }

  /** The points at which dispatching a decoded payload raises: it is not
      an object, it has no `type`, or it is a command whose `data.name`
      cannot be read or is `hifive`. */
  predicate DispatchRaises(p: Payload) {
    match p
    case Malformed => false
    case NotAnObject => true
    case Object(i) =>
      || i.kind.Absent?
      || (i.kind == Present(Num(APPLICATION_COMMAND)) &&
          (|| !i.data.Present?
           || i.data.value.name.Absent?
           || i.data.value.name == Present(Str("hifive"))))
  }

  /** The request body decodes to the given interaction. */
  predicate Carries(req: Request, i: Interaction) {
    req.body == Present(Object(i))
  }

  /** A ping is answered with 200 and `{"type": 1}`. */
  lemma PingAnswered(req: Request, verify: Verifier, i: Interaction)
    requires PassesChecks(req, verify) && Carries(req, i)
    requires i.kind == Present(Num(PING))
    ensures Handle(req, verify) == Response(200, JSON_CONTENT_TYPE, Pong)
  {
  }

  /** An application command is answered with exactly what the command
      handler returns, or with 500 when it raises. */
  lemma CommandForwarded(req: Request, verify: Verifier, i: Interaction)
    requires PassesChecks(req, verify) && Carries(req, i)
    requires i.kind == Present(Num(APPLICATION_COMMAND))
    ensures Handle(req, verify) ==
      match HandleCommand(i)
      case Ok(r) => r
      case Raise(e) => ServerError(e)
  {
  }

  /** Any other interaction type, `null` included, is answered with 400. */
  lemma OtherTypeRejected(req: Request, verify: Verifier, i: Interaction)
    requires PassesChecks(req, verify) && Carries(req, i)
    requires !i.kind.Absent?
    requires i.kind != Present(Num(PING)) && i.kind != Present(Num(APPLICATION_COMMAND))
    ensures Handle(req, verify) == Response(400, JSON_CONTENT_TYPE, Text("Unhandled request type"))
  {
  }

  /** `hello` is answered with 200 and the greeting message. */
  lemma HelloAnswered(req: Request, verify: Verifier, i: Interaction)
    requires PassesChecks(req, verify) && Carries(req, i)
    requires i.kind == Present(Num(APPLICATION_COMMAND))
    requires i.data == Present(CommandData(Present(Str("hello"))))
    ensures Handle(req, verify) == Response(200, JSON_CONTENT_TYPE, ChannelMessage("Hello, YVR DevOps!"))
  {
  }

  /** `hifive` never gets its reply: the misspelt logging call raises and
      the request is answered with 500. */
  lemma HighFiveFails(req: Request, verify: Verifier, i: Interaction)
    requires PassesChecks(req, verify) && Carries(req, i)
    requires i.kind == Present(Num(APPLICATION_COMMAND))
    requires i.data == Present(CommandData(Present(Str("hifive"))))
    ensures Handle(req, verify) == ServerError(AttributeError)
  {
  }

  /** Any other readable command name, `null` included, is answered with 400. */
  lemma OtherCommandRejected(req: Request, verify: Verifier, i: Interaction, name: Field<Scalar>)
    requires PassesChecks(req, verify) && Carries(req, i)
    requires i.kind == Present(Num(APPLICATION_COMMAND))
    requires i.data == Present(CommandData(name))
    requires !name.Absent? && name != Present(Str("hello")) && name != Present(Str("hifive"))
    ensures Handle(req, verify) == Response(400, JSON_CONTENT_TYPE, Text("Unhandled command"))
  {
  }

  /** A signature that fails to verify changes nothing: the response is the
      one a verifier accepting everything would give. */
  lemma ForgedSignatureIgnored(req: Request, verify: Verifier)
    requires HeadersPresent(req.headers) && req.body.Present? ==>
      !verify(req.headers.value.timestamp.value, req.headers.value.signature.value, req.body.value).VerifyRaises?
    ensures Handle(req, verify) == Handle(req, AcceptAll())
  {
  }

  /** The answer is a 500 exactly when some step raises: the body cannot be
      decoded, a signature header is missing, the verification step itself
      raises, or dispatching raises. */
  lemma ServerErrorExactly(req: Request, verify: Verifier)
    ensures Handle(req, verify).statusCode == 500 <==>
      !PassesChecks(req, verify) || DispatchRaises(req.body.value)
  {
  }

  /** Exceptions surface in the source's order: an undecodable body is
      reported as such whatever the headers and the verifier. */
  lemma MalformedBodyFirst(headers: Field<Headers>, verify: Verifier)
    ensures Handle(Request(Present(Malformed), headers), verify) == ServerError(ValueError)
  {
  }

  /** Missing signature headers give a 500 `KeyError`, even for a ping. */
  lemma MissingHeadersFail(p: Payload, verify: Verifier)
    requires !p.Malformed?
    ensures Handle(Request(Present(p), Present(Headers(None, Some("1700000000")))), verify) == ServerError(KeyError)
    ensures Handle(Request(Present(p), Absent), verify) == ServerError(KeyError)
  {
  }
}
