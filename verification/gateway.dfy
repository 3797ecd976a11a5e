/** gatepoint/gateway.py: the client's registries and the body of the
    `POST /interaction` endpoint — signature gate, then a switch on the
    payload's `type`. */
module Gateway {
  import opened Wrappers
  import opened Json
  import opened Registry
  import GI = GatepointInteraction

  /** The registries of a `GatewayClient`: one handler per command name,
      per button custom id and per event name. */
  datatype Client = Client(
    commands: map<string, Handler>,
    buttons: map<string, Handler>,
    events: map<string, Handler>)

  /** A freshly constructed client: all registries empty. */
  function NewClient(): (c: Client)
    ensures c.commands == map[] && c.buttons == map[] && c.events == map[]
  {
    Client(map[], map[], map[])
  }

  /** What `register` accepts. */
  datatype Registrable = CommandTarget(command: GI.CommandInteraction) | ButtonTarget(button: GI.ButtonInteraction)

  /** `@client.register(interaction)`: a command goes to `commands` under its
      name, a button to `buttons` under its custom id; nothing else changes. */
  function Register(c: Client, target: Registrable, func: Handler): (r: Decorated<Client>)
    ensures r.func == func
    ensures r.state.events == c.events
    ensures target.CommandTarget? ==>
      Stores(c.commands, r.state.commands, target.command.name, func) && r.state.buttons == c.buttons
    ensures target.ButtonTarget? ==>
      Stores(c.buttons, r.state.buttons, target.button.customId, func) && r.state.commands == c.commands
  {
    match target
    case CommandTarget(command) => Decorated(c.(commands := c.commands[command.name := func]), func)
    case ButtonTarget(button) => Decorated(c.(buttons := c.buttons[button.customId := func]), func)
  }

  /** A later registration under the same key replaces the earlier one. */
  lemma RegisterLastWins(c: Client, target: Registrable, f: Handler, g: Handler)
    ensures Register(Register(c, target, f).state, target, g).state == Register(c, target, g).state
  {
    match target
    case CommandTarget(command) =>
      assert c.commands[command.name := f][command.name := g] == c.commands[command.name := g];
    case ButtonTarget(button) =>
      assert c.buttons[button.customId := f][button.customId := g] == c.buttons[button.customId := g];
  }

  /** `@client.event(name)`: one listener per event name, the later one wins. */
  function Event(c: Client, name: string, func: Handler): (r: Decorated<Client>)
    ensures r.func == func
    ensures Stores(c.events, r.state.events, name, func)
    ensures r.state.commands == c.commands && r.state.buttons == c.buttons
  {
    Decorated(c.(events := c.events[name := func]), func)
  }

  /** A second listener for the same event replaces the first. */
  lemma EventReplaces(c: Client, name: string, f: Handler, g: Handler)
    ensures Event(Event(c, name, f).state, name, g).state == Event(c, name, g).state
    ensures Event(Event(c, name, f).state, name, g).state.events[name] == g
  {
    assert c.events[name := f][name := g] == c.events[name := g];
  }

  /** What `verify_key.verify(message, bytes.fromhex(signature))` does: pass,
      raise `BadSignatureError`, or raise something else (a signature that is
      not hex, or of the wrong length). The Ed25519 check itself is not modelled. */
  datatype Verdict = Verified | BadSignature | Raises(error: PyError)

  /** An incoming request: the two signature headers (absent headers read as
      `None`), the decoded body, and the JSON it parses to. */
  datatype Request = Request(signature: Option<string>, timestamp: Option<string>, body: string, payload: Json)

  /** `f'{header}'`: an absent header formats as the text `None`. */
  function HeaderText(h: Option<string>): string {
    match h
    case Some(s) => s
    case None => "None"
  }

  /** The message the signature is checked over: the timestamp followed by the body. */
  function SignedMessage(req: Request): (m: string)
    ensures req.timestamp.Some? ==> m == req.timestamp.value + req.body
    ensures req.timestamp.None? ==> m == "None" + req.body
    ensures |m| >= |req.body| && m[|m| - |req.body|..] == req.body
  {
    HeaderText(req.timestamp) + req.body
  }

  /** A call the endpoint makes: a listener fired for an event, or the handler
      that produces the response. Both receive the raw payload dict. */
  datatype Call = Fired(event: string, listener: Handler, payload: Json) | Invoked(handler: Handler, payload: Json)

  /** What the endpoint returns. */
  datatype Response =
    | InvalidSignature                            // the tuple `('invalid request signature', 401)`
    | Body(json: Json)                            // a fixed dict
    | HandlerResult(handler: Handler, payload: Json)  // whatever the awaited handler returns
    | NoBody                                      // no branch matched: the coroutine returns None
    | Raised(error: PyError)                      // an exception escapes the endpoint

  /** The response together with the calls made, in order. */
  datatype Outcome = Outcome(response: Response, trace: seq<Call>)

  const ReceiveEvent := "interaction_receive"

  /** The answer to a ping. */
  const PingBody: Json := JObj(map["type" := JInt(1)])

  /** The ephemeral message sent when no handler is registered. */
  function Fallback(content: string): Json {
    JObj(map["type" := JInt(4), "data" := JObj(map["content" := JStr(content), "flags" := JInt(64)])])
  }

  const CommandFallback: Json := Fallback("This command is not registered with Interaction Gateway API.")
  const ButtonFallback: Json := Fallback("This button is not registered with Interaction Gateway API.")

  /** `key in table` for a parsed key: only a string can match a registered
      name, and a list or dict raises TypeError (it is unhashable). */
  function Lookup(table: map<string, Handler>, key: Json): (r: Result<Option<Handler>, PyError>)
    ensures r == Err(TypeError) <==> key.JArr? || key.JObj?
    ensures r.Ok? && r.value.Some? <==> key.JStr? && key.s in table
    ensures r.Ok? && r.value.Some? ==> r.value.value == table[key.s]
  {
    match key
    case JArr(_) => Err(TypeError)
    case JObj(_) => Err(TypeError)
    case JStr(s) => if s in table then Ok(Some(table[s])) else Ok(None)
    case _ => Ok(None)
  }

  /** `payload["data"][key]`, with the KeyError or TypeError either subscription raises. */
  function RoutedKey(payload: Json, key: string): Result<Json, PyError> {
    match Subscript(payload, "data")
    case Err(e) => Err(e)
    case Ok(data) => Subscript(data, key)
  }

  /** `payload["data"][key]` when both subscriptions succeed and give a string:
      the only kind of key a registry can hold. */
  function RoutedName(payload: Json, key: string): Option<string> {
    match RoutedKey(payload, key)
    case Ok(JStr(name)) => Some(name)
    case _ => None
  }

  /** A routed branch: look up `payload["data"][key]`; if registered, fire the
      `interaction_receive` listener and then run the handler; otherwise answer
      with the fallback. */
  function Route(table: map<string, Handler>, events: map<string, Handler>, payload: Json, key: string, fallback: Json)
    : (o: Outcome)
    ensures |o.trace| == 0 || |o.trace| == 2
    ensures |o.trace| == 2 <==> o.response.HandlerResult?
    ensures o.response.HandlerResult? ==>
      && ReceiveEvent in events
      && o.trace == [Fired(ReceiveEvent, events[ReceiveEvent], payload), Invoked(o.response.handler, payload)]
      && o.response.payload == payload
    ensures o.response.HandlerResult? <==>
      ReceiveEvent in events && RoutedName(payload, key).Some? && RoutedName(payload, key).value in table
    ensures o.response.HandlerResult? ==> o.response.handler == table[RoutedName(payload, key).value]
    ensures RoutedName(payload, key).Some? && RoutedName(payload, key).value !in table ==>
      o == Outcome(Body(fallback), [])
    ensures RoutedKey(payload, key).Err? ==> o == Outcome(Raised(RoutedKey(payload, key).error), [])
    ensures RoutedKey(payload, key).Ok? && (RoutedKey(payload, key).value.JArr? || RoutedKey(payload, key).value.JObj?) ==>
      o == Outcome(Raised(TypeError), [])
    ensures (RoutedKey(payload, key).Ok? && !RoutedKey(payload, key).value.JStr?
             && !RoutedKey(payload, key).value.JArr? && !RoutedKey(payload, key).value.JObj?) ==>
      o == Outcome(Body(fallback), [])
  {
    match Subscript(payload, "data")
    case Err(e) => Outcome(Raised(e), [])
    case Ok(data) =>
      match Subscript(data, key)
      case Err(e) => Outcome(Raised(e), [])
      case Ok(id) =>
        match Lookup(table, id)
        case Err(e) => Outcome(Raised(e), [])
        case Ok(None) => Outcome(Body(fallback), [])
        case Ok(Some(h)) =>
          if ReceiveEvent in events then
            Outcome(HandlerResult(h, payload), [Fired(ReceiveEvent, events[ReceiveEvent], payload), Invoked(h, payload)])
          else
            Outcome(Raised(KeyError), [])
  }

  /** The type switch on an authenticated payload. */
  function Dispatch(c: Client, payload: Json): (o: Outcome)
    ensures |o.trace| == 0 || |o.trace| == 2
    ensures o.response.HandlerResult? ==>
      && ReceiveEvent in c.events
      && o.response.payload == payload
      && o.trace == [Fired(ReceiveEvent, c.events[ReceiveEvent], payload), Invoked(o.response.handler, payload)]
    ensures Subscript(payload, "type").Err? ==> o == Outcome(Raised(Subscript(payload, "type").error), [])
  {
    match Subscript(payload, "type")
    case Err(e) => Outcome(Raised(e), [])
    case Ok(t) =>
      if EqualsInt(t, 1) then Outcome(Body(PingBody), [])
      else if EqualsInt(t, 2) then Route(c.commands, c.events, payload, "name", CommandFallback)
      else if EqualsInt(t, 3) then Route(c.buttons, c.events, payload, "custom_id", ButtonFallback)
      else if EqualsInt(t, 4) then Route(c.buttons, c.events, payload, "custom_id", ButtonFallback)
      else Outcome(NoBody, [])
  }

  /** The `POST /interaction` endpoint. A missing signature header makes
      `bytes.fromhex(None)` raise TypeError; a bad signature is answered
      with the invalid-signature tuple before the body is parsed. */
  function Interaction(c: Client, verify: (string, string) -> Verdict, req: Request): (o: Outcome)
    ensures o.response == InvalidSignature <==> req.signature.Some? && verify(SignedMessage(req), req.signature.value) == BadSignature
    ensures o.response == InvalidSignature ==> o.trace == []
    ensures req.signature.None? ==> o == Outcome(Raised(TypeError), [])
    ensures req.signature.Some? && verify(SignedMessage(req), req.signature.value).Raises? ==>
      o == Outcome(Raised(verify(SignedMessage(req), req.signature.value).error), [])
  {
    match req.signature
    case None => Outcome(Raised(TypeError), [])
    case Some(sig) =>
      match verify(SignedMessage(req), sig)
      case BadSignature => Outcome(InvalidSignature, [])
      case Raises(e) => Outcome(Raised(e), [])
      case Verified => Dispatch(c, req.payload)
  }

  /** When the gate does not pass, the payload is never looked at and the
      registries play no part. */
  lemma GateDecidesBeforeParsing(c: Client, c': Client, verify: (string, string) -> Verdict, req: Request, other: Json)
    requires req.signature.None? || verify(SignedMessage(req), req.signature.value) != Verified
    ensures Interaction(c, verify, req) == Interaction(c', verify, req.(payload := other))
    ensures Interaction(c, verify, req).trace == []
  {
    assert SignedMessage(req) == SignedMessage(req.(payload := other));
  }

  /** Only the verifier's answer on the timestamp followed by the body matters:
      two verifiers that agree there give the same outcome. */
  lemma SignatureCoversTimestampAndBody(c: Client, v: (string, string) -> Verdict, w: (string, string) -> Verdict, req: Request)
    requires req.signature.Some?
    requires v(SignedMessage(req), req.signature.value) == w(SignedMessage(req), req.signature.value)
    ensures Interaction(c, v, req) == Interaction(c, w, req)
  {
  }

  /** An authenticated request is dispatched on its payload. */
  lemma VerifiedDispatches(c: Client, verify: (string, string) -> Verdict, req: Request)
    requires req.signature.Some? && verify(SignedMessage(req), req.signature.value) == Verified
    ensures Interaction(c, verify, req) == Dispatch(c, req.payload)
  {
  }

  /** A ping is answered with exactly `{"type": 1}` whatever is registered,
      and fires nothing. JSON `true` counts as 1, since `True == 1` in Python. */
  lemma PingIgnoresRegistries(c: Client, payload: Json)
    requires Subscript(payload, "type") == Ok(JInt(1)) || Subscript(payload, "type") == Ok(JBool(true))
    ensures Dispatch(c, payload) == Outcome(Body(PingBody), [])
    ensures PingBody.fields.Keys == {"type"} && PingBody.fields["type"] == JInt(1)
  {
  }

  /** `payload["data"][key]` is the string `id`. */
  predicate Names(payload: Json, key: string, id: string) {
    Subscript(payload, "data").Ok? && Subscript(Subscript(payload, "data").value, key) == Ok(JStr(id))
  }

  /** A registered command: `interaction_receive` fires once, then the
      command's handler runs and its result is the response. */
  lemma CommandRouted(c: Client, payload: Json, name: string)
    requires Subscript(payload, "type") == Ok(JInt(2))
    requires Names(payload, "name", name) && name in c.commands
    requires ReceiveEvent in c.events
    ensures Dispatch(c, payload) == Outcome(
      HandlerResult(c.commands[name], payload),
      [Fired(ReceiveEvent, c.events[ReceiveEvent], payload), Invoked(c.commands[name], payload)])
  {
  }

  /** An unregistered command name gets the fixed ephemeral message and runs nothing. */
  lemma CommandUnregistered(c: Client, payload: Json, name: string)
    requires Subscript(payload, "type") == Ok(JInt(2))
    requires Names(payload, "name", name) && name !in c.commands
    ensures Dispatch(c, payload) == Outcome(Body(CommandFallback), [])
    ensures CommandFallback.fields["data"].fields["content"]
         == JStr("This command is not registered with Interaction Gateway API.")
    ensures CommandFallback.fields["data"].fields["flags"] == JInt(64)
  {
  }

  /** Types 3 and 4 take the same branch: a button lookup by custom id. */
  lemma ButtonTypesAgree(c: Client, payload: Json)
    requires Subscript(payload, "type") == Ok(JInt(3)) || Subscript(payload, "type") == Ok(JInt(4))
    ensures Dispatch(c, payload) == Route(c.buttons, c.events, payload, "custom_id", ButtonFallback)
  {
  }

  /** A registered button behaves like a registered command; an unregistered
      one gets the button fallback. */
  lemma ButtonRouted(c: Client, payload: Json, customId: string)
    requires Subscript(payload, "type") == Ok(JInt(3)) || Subscript(payload, "type") == Ok(JInt(4))
    requires Names(payload, "custom_id", customId)
    ensures customId in c.buttons && ReceiveEvent in c.events ==> Dispatch(c, payload) == Outcome(
      HandlerResult(c.buttons[customId], payload),
      [Fired(ReceiveEvent, c.events[ReceiveEvent], payload), Invoked(c.buttons[customId], payload)])
    ensures customId !in c.buttons ==> Dispatch(c, payload) == Outcome(Body(ButtonFallback), [])
    ensures ButtonFallback.fields["data"].fields["content"]
         == JStr("This button is not registered with Interaction Gateway API.")
  {
  }

  /** Without an `interaction_receive` listener a routed interaction fails
      with a lookup error before its handler runs. */
  lemma MissingListenerRaises(c: Client, payload: Json, id: string)
    requires ReceiveEvent !in c.events
    requires || (Subscript(payload, "type") == Ok(JInt(2)) && Names(payload, "name", id) && id in c.commands)
             || (Subscript(payload, "type") == Ok(JInt(3)) && Names(payload, "custom_id", id) && id in c.buttons)
             || (Subscript(payload, "type") == Ok(JInt(4)) && Names(payload, "custom_id", id) && id in c.buttons)
    ensures Dispatch(c, payload) == Outcome(Raised(KeyError), [])
  {
  }

  /** A malformed payload raises before anything is called: a missing `type`
      or `data` key or a missing name raises KeyError, a payload or `data` that
      is not a dict raises TypeError, as does a list or dict name; a name of
      any other non-string kind is simply not registered. */
  lemma MalformedPayloadRaises(c: Client, payload: Json, key: string, t: Json)
    requires Subscript(payload, "type") == Ok(t)
    requires (EqualsInt(t, 2) && key == "name") || ((EqualsInt(t, 3) || EqualsInt(t, 4)) && key == "custom_id")
    ensures RoutedKey(payload, key).Err? ==>
      Dispatch(c, payload) == Outcome(Raised(RoutedKey(payload, key).error), [])
    ensures RoutedKey(payload, key).Ok? && (RoutedKey(payload, key).value.JArr? || RoutedKey(payload, key).value.JObj?) ==>
      Dispatch(c, payload) == Outcome(Raised(TypeError), [])
    ensures (RoutedKey(payload, key).Ok? && !RoutedKey(payload, key).value.JStr?
             && !RoutedKey(payload, key).value.JArr? && !RoutedKey(payload, key).value.JObj?) ==>
      Dispatch(c, payload).response.Body? && Dispatch(c, payload).trace == []
  {
  }

  /** A type outside 1 to 4 matches no branch: no body, no calls. */
  lemma UnknownTypeHasNoBody(c: Client, payload: Json, t: Json)
    requires Subscript(payload, "type") == Ok(t)
    requires !EqualsInt(t, 1) && !EqualsInt(t, 2) && !EqualsInt(t, 3) && !EqualsInt(t, 4)
    ensures Dispatch(c, payload) == Outcome(NoBody, [])
  {
  }

  /** At most one handler runs per request, it runs last, and it is the one
      whose result is returned; every other response comes with no calls. */
  lemma AtMostOneReply(c: Client, verify: (string, string) -> Verdict, req: Request)
    ensures var o := Interaction(c, verify, req);
      && (forall i :: 0 <= i < |o.trace| && o.trace[i].Invoked? ==> i == |o.trace| - 1)
      && (o.response.HandlerResult? <==> o.trace != [])
      && (o.response.HandlerResult? ==> o.trace[|o.trace| - 1] == Invoked(o.response.handler, req.payload))
  {
    var o := Interaction(c, verify, req);
    if req.signature.Some? && verify(SignedMessage(req), req.signature.value) == Verified {
      assert o == Dispatch(c, req.payload);
    }
  }
}
