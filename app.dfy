/**
 * The webhook endpoint: authenticate the request, decode and validate its
 * body, then dispatch on the event type under the conversation's lock.
 *
 * The request is reduced to its `layercode-signature` header and its body
 * text; the configured secret, the clock and the HMAC are parameters.
 */
module App {
  import opened Wrappers
  import opened Text
  import opened Json
  import opened Events
  import opened Stream
  import opened Conversation
  import opened Auth
  import opened Agents
  import Echo

  /** The request as the endpoint reads it: the signature header, when sent, and the body. */
  datatype Request = Request(signature: Option<string>, body: string)

  /** What the endpoint answers: an HTTP error, `{"status": "ok"}`, or a streamed response. */
  datatype Response =
    | HttpError(status: nat, detail: string)
    | StatusOk
    | Streamed(response: StreamingResponse)

  const MissingSignature: string := "Missing signature header"
  const SecretNotConfigured: string := "LAYERCODE_WEBHOOK_SECRET is not configured"
  const InternalServerError: string := "Internal Server Error"
  const InvalidJson: string := "Invalid JSON body"
  const InvalidSchema: string := "Invalid payload schema"
  const UnsupportedEventType: string := "Unsupported event type"

  /** `if not x`: absent or empty. */
  predicate Blank(x: Option<string>) {
    x.None? || x.value == ""
  }

  /** The checks before the body is read: signature present, secret configured, signature valid. */
  function Authenticate(req: Request, secret: Option<string>, now: int, mac: Mac): (r: Result<(), Response>)
    ensures Blank(req.signature) ==> r == Failure(HttpError(401, MissingSignature))
    ensures !Blank(req.signature) && Blank(secret) ==> r == Failure(HttpError(500, SecretNotConfigured))
    ensures r.Success? <==>
      !Blank(req.signature) && !Blank(secret)
      && VerifySignature(req.body, req.signature.value, secret.value, DefaultTolerance, now, mac) == Success(())
  {
    if Blank(req.signature) then Failure(HttpError(401, MissingSignature))
    else if Blank(secret) then Failure(HttpError(500, SecretNotConfigured))
    else match VerifySignature(req.body, req.signature.value, secret.value, DefaultTolerance, now, mac)
      case Failure(Rejected(e)) => Failure(HttpError(401, Describe(e)))
      case Failure(NonAsciiDigest) => Failure(HttpError(500, InternalServerError))
      case Success(_) => Success(())
  }

  /** `json.loads` then `parse_webhook_payload`. */
  function ReadPayload(body: string): (r: Result<(Members, Payload), Response>)
    ensures Decode(body).None? ==> r == Failure(HttpError(400, InvalidJson))
    ensures Decode(body).Some? && Parse(Decode(body).value).Failure? ==> r == Failure(HttpError(400, InvalidSchema))
    ensures r.Success? <==> Decode(body).Some? && Parse(Decode(body).value).Success?
    ensures r.Success? ==> Decode(body) == Some(JObject(r.value.0)) && Parse(JObject(r.value.0)) == Success(r.value.1)
  {
    match Decode(body)
    case None => Failure(HttpError(400, InvalidJson))
    case Some(j) =>
      match Parse(j)
      case Failure(_) => Failure(HttpError(400, InvalidSchema))
      case Success(p) => Success((j.members, p))
  }

  /**
   * Everything before the lock, in the order the endpoint checks it. The
   * `TypeError` of a non-ASCII digest is not caught, so it becomes a 500.
   */
  function Admit(req: Request, secret: Option<string>, now: int, mac: Mac): (r: Result<(Members, Payload), Response>)
    ensures Authenticate(req, secret, now, mac).Failure? ==> r == Failure(Authenticate(req, secret, now, mac).error)
    ensures Authenticate(req, secret, now, mac).Success? ==> r == ReadPayload(req.body)
  {
    var _ :- Authenticate(req, secret, now, mac);
    ReadPayload(req.body)
  }

  /** How each failure of verification is answered. */
  lemma AuthenticateFailures(req: Request, secret: Option<string>, now: int, mac: Mac)
    requires !Blank(req.signature) && !Blank(secret)
    ensures var v := VerifySignature(req.body, req.signature.value, secret.value, DefaultTolerance, now, mac);
            var r := Authenticate(req, secret, now, mac);
            && (v.Failure? && v.error.Rejected? ==> r == Failure(HttpError(401, Describe(v.error.error))))
            && (v.Failure? && v.error.NonAsciiDigest? ==> r == Failure(HttpError(500, InternalServerError)))
  {
  }

  /**
   * A payload rendered to JSON and signed with the configured secret at a
   * time within the tolerance window is admitted as exactly that payload.
   */
  lemma SignedRequestAdmitted(p: Payload, secret: string, timestamp: int, now: int, mac: Mac)
    requires ValidPayload(p) && WellFormed(ToJson(p))
    requires secret != ""
    requires HexDigest(mac(secret, SignedPayload(IntToDecimal(timestamp), Encode(ToJson(p)))))
    requires Abs(now - timestamp) <= DefaultTolerance
    ensures var body := Encode(ToJson(p));
            var header := SignatureHeader(timestamp, mac(secret, SignedPayload(IntToDecimal(timestamp), body)));
            Admit(Request(Some(header), body), Some(secret), now, mac) == Success((ToJson(p).members, p))
  {
    var body := Encode(ToJson(p));
    SignedHeaderAccepted(body, secret, timestamp, DefaultTolerance, now, mac);
    DecodeEncode(ToJson(p));
    ParseToJson(p);
  }

  /** The same request sent too late is refused with the tolerance error, before its body is read. */
  lemma StaleRequestRefused(body: string, secret: string, timestamp: int, now: int, mac: Mac)
    requires secret != ""
    requires HexDigest(mac(secret, SignedPayload(IntToDecimal(timestamp), body)))
    requires Abs(now - timestamp) > DefaultTolerance
    ensures var header := SignatureHeader(timestamp, mac(secret, SignedPayload(IntToDecimal(timestamp), body)));
            Admit(Request(Some(header), body), Some(secret), now, mac)
            == Failure(HttpError(401, Describe(InvalidSignature(OutsideTolerance))))
  {
    StaleAuthenticate(body, secret, timestamp, now, mac);
  }

  lemma StaleAuthenticate(body: string, secret: string, timestamp: int, now: int, mac: Mac)
    requires secret != ""
    requires HexDigest(mac(secret, SignedPayload(IntToDecimal(timestamp), body)))
    requires Abs(now - timestamp) > DefaultTolerance
    ensures var header := SignatureHeader(timestamp, mac(secret, SignedPayload(IntToDecimal(timestamp), body)));
            Authenticate(Request(Some(header), body), Some(secret), now, mac)
            == Failure(HttpError(401, Describe(InvalidSignature(OutsideTolerance))))
  {
    var header := SignatureHeader(timestamp, mac(secret, SignedPayload(IntToDecimal(timestamp), body)));
    StaleRejectedDespiteCorrectMac(body, secret, timestamp, DefaultTolerance, now, mac);
    assert header != "";
  }

  /** `_handle_session_start`: stream what the agent's session-start handler does. */
  function HandleSessionStart(m: Members, p: Payload, agent: Agent): (r: StreamingResponse)
    ensures r.handler == agent.onSessionStart(p)
    ensures forall s :: Get(m, "turn_id") == Some(JStr(s)) ==> r.turnId == s
  {
    StreamResponse(m, agent.onSessionStart(p))
  }

  /**
   * `_handle_message`: the response streams what the agent's message handler
   * does, but the handler runs only when the body is iterated, so the list it
   * would rebind is still empty when this returns.
   */
  method HandleMessage(m: Members, p: Payload, history: seq<ModelMessage>, agent: Agent)
    returns (response: StreamingResponse, newMessages: seq<ModelMessage>)
    ensures response.handler == agent.onMessage(p, history).handler
    ensures response == StreamResponse(m, agent.onMessage(p, history).handler)
    ensures newMessages == []
  {
    newMessages := [];
    response := StreamResponse(m, agent.onMessage(p, history).handler);
  }

  /** The answer to an admitted payload, given the conversation's history. */
  function Dispatch(m: Members, p: Payload, history: seq<ModelMessage>, agent: Agent): (r: Response)
    ensures r.Streamed? <==> p.SessionStart? || p.Message?
    ensures r.StatusOk? <==> p.SessionEnd? || p.SessionUpdate?
    ensures r.HttpError? <==> p.Data?
    ensures r.HttpError? ==> r == HttpError(400, UnsupportedEventType)
    ensures p.Message? ==> r.response.handler == agent.onMessage(p, history).handler
    ensures p.SessionStart? ==> r.response.handler == agent.onSessionStart(p)
  {
    match p.Type()
    case SessionStartEvent => Streamed(HandleSessionStart(m, p, agent))
    case MessageEvent => Streamed(StreamResponse(m, agent.onMessage(p, history).handler))
    case SessionEndEvent => StatusOk
    case SessionUpdateEvent => StatusOk
    case DataEvent => HttpError(400, UnsupportedEventType)
  }

  /** Between requests no conversation lock is held. */
  predicate Idle(store: ConversationStore)
    reads store`locks
  {
    forall id | id in store.locks :: !store.locks[id]
  }

  /**
   * The body of the `try` under the lock, and the `finally` that releases it.
   * `ended` is the payload passed to the agent's `handle_session_end`, when
   * it is called.
   */
  method Serve(store: ConversationStore, agent: Agent, m: Members, p: Payload)
    returns (resp: Response, ended: Option<Payload>)
    requires store.Valid() && Idle(store)
    modifies store
    ensures store.Valid() && Idle(store)
    ensures store.histories == old(store.histories)
    ensures resp == Dispatch(m, p, old(store.History(p.common.conversationId)), agent)
    ensures store.locks == old(store.locks)[p.common.conversationId := false]
    ensures ended == (if p.SessionEnd? then Some(p) else None)
  {
    var id := p.common.conversationId;
    store.AcquireLock(id);
    ended := None;
    match p.Type() {
      case SessionStartEvent =>
        resp := Streamed(HandleSessionStart(m, p, agent));
      case MessageEvent =>
        var history := store.Get(id);
        var response, newMessages := HandleMessage(m, p, history, agent);
        store.Append(id, newMessages);
        resp := Streamed(response);
      case SessionEndEvent =>
        ended := Some(p);
        resp := StatusOk;
      case SessionUpdateEvent =>
        resp := StatusOk;
      case DataEvent =>
        resp := HttpError(400, UnsupportedEventType);
    }
    store.ReleaseLock(id);
  }

  /** `agent_webhook`: admit the request, then serve it under the conversation's lock. */
  method AgentWebhook(store: ConversationStore, agent: Agent, req: Request, secret: Option<string>,
                      now: int, mac: Mac)
    returns (resp: Response, ended: Option<Payload>)
    requires store.Valid() && Idle(store)
    modifies store
    ensures store.Valid() && Idle(store)
    ensures store.histories == old(store.histories)
    ensures Admit(req, secret, now, mac).Failure? ==>
      resp == Admit(req, secret, now, mac).error && ended == None && store.locks == old(store.locks)
    ensures Admit(req, secret, now, mac).Success? ==>
      var p := Admit(req, secret, now, mac).value.1;
      && resp == Dispatch(Admit(req, secret, now, mac).value.0, p, old(store.History(p.common.conversationId)), agent)
      && store.locks == old(store.locks)[p.common.conversationId := false]
      && ended == (if p.SessionEnd? then Some(p) else None)
  {
    var admitted := Admit(req, secret, now, mac);
    if admitted.Failure? {
      return admitted.error, None;
    }
    resp, ended := Serve(store, agent, admitted.value.0, admitted.value.1);
  }

  /**
   * The message branch as intended: the messages the agent's handler
   * returns are appended to the conversation's history.
   */
  method ServeRecorded(store: ConversationStore, agent: Agent, m: Members, p: Payload)
    returns (resp: Response, ended: Option<Payload>)
    requires store.Valid() && Idle(store)
    modifies store
    ensures store.Valid() && Idle(store)
    ensures resp == Dispatch(m, p, old(store.History(p.common.conversationId)), agent)
    ensures store.locks == old(store.locks)[p.common.conversationId := false]
    ensures ended == (if p.SessionEnd? then Some(p) else None)
    ensures store.History(p.common.conversationId) == old(store.History(p.common.conversationId))
              + (if p.Message? then agent.onMessage(p, old(store.History(p.common.conversationId))).messages else [])
    ensures forall other :: other != p.common.conversationId ==> store.History(other) == old(store.History(other))
    ensures !p.Message? ==> store.histories == old(store.histories)
  {
    var id := p.common.conversationId;
    store.AcquireLock(id);
    ghost var before := store.histories;
    ended := None;
    match p.Type() {
      case SessionStartEvent =>
        resp := Streamed(HandleSessionStart(m, p, agent));
      case MessageEvent =>
        assert p.Message?;
        var history := store.Get(id);
        var reply := agent.onMessage(p, history);
        store.Append(id, reply.messages);
        resp := Streamed(StreamResponse(m, reply.handler));
      case SessionEndEvent =>
        ended := Some(p);
        resp := StatusOk;
      case SessionUpdateEvent =>
        resp := StatusOk;
      case DataEvent =>
        resp := HttpError(400, UnsupportedEventType);
    }
    assert !p.Message? ==> store.histories == before;
    store.ReleaseLock(id);
  }

  /** `agent_webhook` with the message branch recording the agent's reply. */
  method AgentWebhookRecorded(store: ConversationStore, agent: Agent, req: Request, secret: Option<string>,
                              now: int, mac: Mac)
    returns (resp: Response, ended: Option<Payload>)
    requires store.Valid() && Idle(store)
    modifies store
    ensures store.Valid() && Idle(store)
    ensures Admit(req, secret, now, mac).Failure? ==>
      && resp == Admit(req, secret, now, mac).error && ended == None
      && store.locks == old(store.locks) && store.histories == old(store.histories)
    ensures Admit(req, secret, now, mac).Success? ==>
      var p := Admit(req, secret, now, mac).value.1;
      var id := p.common.conversationId;
      && resp == Dispatch(Admit(req, secret, now, mac).value.0, p, old(store.History(id)), agent)
      && store.locks == old(store.locks)[id := false]
      && ended == (if p.SessionEnd? then Some(p) else None)
      && store.History(id) == old(store.History(id)) + (if p.Message? then agent.onMessage(p, old(store.History(id))).messages else [])
      && forall other :: other != id ==> store.History(other) == old(store.History(other))
  {
    var admitted := Admit(req, secret, now, mac);
    if admitted.Failure? {
      return admitted.error, None;
    }
    resp, ended := ServeRecorded(store, agent, admitted.value.0, admitted.value.1);
  }

  /** An agent that answers every message with one model response and an empty stream. */
  function Replier(): Agent {
    Agent("Replier", None, "test",
          (p: Payload) => Handler([EmitEnd], Completed),
          (p: Payload, history: seq<ModelMessage>) => Reply(Handler([EmitEnd], Completed), [ModelResponse("ok")]))
  }

  /**
   * As written, a message turn leaves the history as it was even when the
   * agent returns messages: the next turn sees none of the exchange. As
   * intended, the same turn records the agent's reply.
   */
  method ReplyLostThenRecorded(store: ConversationStore, req: Request, secret: Option<string>, now: int, mac: Mac)
    returns (asWritten: seq<ModelMessage>, recorded: seq<ModelMessage>)
    requires store.Valid() && Idle(store)
    requires Admit(req, secret, now, mac).Success? && Admit(req, secret, now, mac).value.1.Message?
    requires store.History(Admit(req, secret, now, mac).value.1.common.conversationId) == []
    modifies store
    ensures asWritten == [] && recorded == [ModelResponse("ok")]
  {
    var id := Admit(req, secret, now, mac).value.1.common.conversationId;
    var _, _ := AgentWebhook(store, Replier(), req, secret, now, mac);
    asWritten := store.History(id);
    var _, _ := AgentWebhookRecorded(store, Replier(), req, secret, now, mac);
    recorded := store.History(id);
  }

  /** Two recorded message turns of one conversation: the second turn's agent sees the first turn's messages. */
  method TwoTurnsRecorded(store: ConversationStore, agent: Agent, first: Request, second: Request,
                          secret: Option<string>, now: int, mac: Mac)
    returns (r1: Response, r2: Response)
    requires store.Valid() && Idle(store)
    requires Admit(first, secret, now, mac).Success? && Admit(first, secret, now, mac).value.1.Message?
    requires Admit(second, secret, now, mac).Success? && Admit(second, secret, now, mac).value.1.Message?
    requires Admit(first, secret, now, mac).value.1.common.conversationId
          == Admit(second, secret, now, mac).value.1.common.conversationId
    modifies store
    ensures var p1 := Admit(first, secret, now, mac).value.1;
            var p2 := Admit(second, secret, now, mac).value.1;
            var id := p1.common.conversationId;
            var h1 := old(store.History(id)) + agent.onMessage(p1, old(store.History(id))).messages;
            && r2 == Dispatch(Admit(second, secret, now, mac).value.0, p2, h1, agent)
            && store.History(id) == h1 + agent.onMessage(p2, h1).messages
  {
    var ended1, ended2;
    r1, ended1 := AgentWebhookRecorded(store, agent, first, secret, now, mac);
    r2, ended2 := AgentWebhookRecorded(store, agent, second, secret, now, mac);
  }

  /**
   * A message sent to the echo agent: the endpoint streams `You said: <text>`
   * and one end event, under the payload's turn id, and records nothing.
   */
  lemma EchoMessageExchange(p: Payload, history: seq<ModelMessage>, model: string)
    requires p.Message?
    ensures var r := Dispatch(ToJson(p).members, p, history, Echo.Factory(model));
            && r == Streamed(StreamingResponse(p.turnId, Handler(Echo.MessageScript(p.text), Completed)))
            && WireBody(p.turnId, r.response.handler)
               == [TtsFrame(p.turnId, "You said: " + p.text.GetOr("")), EndFrame(p.turnId)]
            && Echo.Factory(model).onMessage(p, history).messages == []
  {
    VariantGet(p, 0);
    Echo.MessageBody(p.turnId, p.text);
  }
}
