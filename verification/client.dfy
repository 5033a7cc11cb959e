/** The structured client (client.go): the wire request built from a
    configuration and a chat request, the embedding envelope, construction of
    a client from options, and the three calls, each run against the outcomes
    of its connection. */
module Client {
  import opened Wrappers
  import opened Errors
  import opened Models
  import opened Transport
  import opened ClientConfig
  import opened Session

  /** genReqJson: the header and the chat domain and auditing mode come from
      the configuration; temperature, top_k, max_tokens and question_type come
      from the request unchanged; the message list is the request's messages
      in order, preceded by a synthesized system message when a system prompt
      is set; `functions` carries the raw payload verbatim exactly when it is
      non-empty. */
  function GenReqJson(cfg: ConfigValue, req: ChatRequest): (r: APIRequest)
    ensures r.header == RequestHeader(cfg.appID, cfg.uid)
    ensures r.chat.domain == cfg.domain && r.chat.auditing == cfg.auditing
    ensures r.chat.temperature == req.temperature && r.chat.topK == req.topK
    ensures r.chat.maxTokens == req.maxTokens && r.chat.questionType == req.questionType
    ensures |r.text| == |req.messages| + (if req.system != "" then 1 else 0)
    ensures req.system != "" ==> r.text[0] == SparkMessage("system", req.system)
    ensures req.system != "" ==> r.text[1..] == req.messages
    ensures req.system == "" ==> r.text == req.messages
    ensures r.functions.Some? <==> |req.functions| > 0
    ensures r.functions.Some? ==> r.functions.value == req.functions
  {
    var system := if req.system != "" then [SparkMessage("system", req.system)] else [];
    APIRequest(
      RequestHeader(cfg.appID, cfg.uid),
      ChatParameter(cfg.domain, req.temperature, req.maxTokens, req.topK, cfg.auditing, req.questionType),
      system + req.messages,
      if |req.functions| > 0 then Some(req.functions) else None)
  }

  /** getEmbeddingRequest: the fixed envelope; header and message status 3,
      feature utf8/raw/plain, message utf8/raw/json carrying the query, and
      the domain argument (not the configured domain). */
  function GetEmbeddingRequest(cfg: ConfigValue, query: string, domain: string): (r: EmbRequest)
    ensures r.header == EmbHeader(cfg.appID, cfg.uid, 3)
    ensures r.parameter == EmbParameter(domain, SparkFeature("utf8", "raw", "plain"))
    ensures r.message == EmbMessage("utf8", "raw", "json", 3, query)
  {
    EmbRequest(
      EmbHeader(cfg.appID, cfg.uid, 3),
      EmbParameter(domain, SparkFeature("utf8", "raw", "plain")),
      EmbMessage("utf8", "raw", "json", 3, query))
  }

  /** The configured domain never reaches an embedding request. */
  lemma EmbeddingIgnoresConfiguredDomain(cfg: ConfigValue, d: string, query: string, domain: string)
    ensures GetEmbeddingRequest(cfg.(domain := d), query, domain) == GetEmbeddingRequest(cfg, query, domain)
  {
  }

  /** The request ChatSimple sends: one user message and nothing else set. */
  function SimpleRequest(prompt: string): (req: ChatRequest)
    ensures req.messages == [SparkMessage("user", prompt)]
    ensures req.system == "" && req.functions == []
  {
    ChatRequest([SparkMessage("user", prompt)], 0.0, 0, 0, "", "", [])
  }

  /** What `Chat` sends and how it ends: a failed dial is a ConnectionError
      and nothing is sent; otherwise the request built by GenReqJson is
      written, a failed write is a RequestError, and then the read loop
      decides. */
  function ChatCall(cfg: ConfigValue, req: ChatRequest, link: Link<ChatStep>): (r: (Option<APIRequest>, Outcome<APIResponse, SparkError>))
    ensures r.0.Some? <==> link.dial.None?
    ensures r.0.Some? ==> r.0.value == GenReqJson(cfg, req)
    ensures (r.1.Failed? && r.1.error.kind == ConnectionError) <==> link.dial.Some?
    ensures link.dial.Some? ==> Unwrap(r.1.error) == link.dial
  {
    if link.dial.Some? then (None, Failed(NewConnectionError("failed to establish WebSocket connection", link.dial)))
    else if link.write.Some? then (Some(GenReqJson(cfg, req)), Failed(NewRequestError("failed to send message", link.write)))
    else (Some(GenReqJson(cfg, req)), ChatSession(link.inbound))
  }

  /** What `ChatWithCallback` sends, hands to its callback, and returns. */
  function CallbackCall(cfg: ConfigValue, req: ChatRequest, callback: bool, link: Link<ChatStep>)
    : (r: (Option<APIRequest>, seq<APIResponse>, Outcome<(), SparkError>))
    ensures r.0.Some? <==> link.dial.None?
    ensures r.0.Some? ==> r.0.value == GenReqJson(cfg, req)
    ensures (r.2.Failed? && r.2.error.kind == ConnectionError) <==> link.dial.Some?
    ensures link.dial.Some? ==> Unwrap(r.2.error) == link.dial
    ensures link.dial.Some? || link.write.Some? || !callback ==> r.1 == []
  {
    if link.dial.Some? then (None, [], Failed(NewConnectionError("failed to establish WebSocket connection", link.dial)))
    else if link.write.Some? then (Some(GenReqJson(cfg, req)), [], Failed(NewRequestError("failed to send message", link.write)))
    else
      var (delivered, o) := CallbackSession(link.inbound, callback);
      (Some(GenReqJson(cfg, req)), delivered, o)
  }

  /** The read loop of Chat: poll for cancellation, read and decode a frame,
      stop on an error frame, accumulate its fragment, and stop after a
      terminal frame, returning it with the whole answer as its content. */
  method ChatReadLoop(steps: seq<ChatStep>) returns (result: Outcome<APIResponse, SparkError>)
    ensures result == ChatSession(steps)
  {
    var finalResponse: Option<APIResponse> := None;
    var answer := "";
    var i := 0;
    assert steps[..i] == [];
    ChatFromIsSession(steps, i);
    while finalResponse.None?
      invariant i <= |steps|
      invariant finalResponse.None? ==> ChatFrom(steps, i, answer) == ChatSession(steps)
      invariant finalResponse.Some? ==> ChatSession(steps) == Returned(finalResponse.value)
      decreases |steps| - i
    {
      if i == |steps| {
        return Pending;
      }
      match steps[i]
      case Cancelled(c) =>
        return Failed(NewRequestError("request cancelled", Some(c)));
      case Read(ReadErr(c)) =>
        return Failed(NewWebSocketError("failed to read message", Some(c)));
      case Read(ParseErr(c)) =>
        return Failed(NewResponseError("failed to parse response", Some(c)));
      case Read(Frame(r)) =>
        var response := r;
        if response.header.code != 0 {
          return Failed(NewResponseError(response.header.message, None));
        }
        if |response.payload.choices.text| > 0 {
          answer := answer + response.payload.choices.text[0].content;
        } else {
          assert answer + Fragment(response) == answer;
        }
        if response.payload.choices.status == 2 {
          // overwrite Text[0].Content with the whole answer, when there is a Text[0]
          response := WithContent(response, answer);
          finalResponse := Some(response);
        }
        i := i + 1;
    }
    result := Returned(finalResponse.value);
  }

  /** The read loop of ChatWithCallback: as Chat's, but each good frame is
      handed to the callback, when there is one, before its status is
      examined. */
  method CallbackReadLoop(steps: seq<ChatStep>, callback: bool)
    returns (delivered: seq<APIResponse>, result: Outcome<(), SparkError>)
    ensures (delivered, result) == CallbackSession(steps, callback)
  {
    delivered := [];
    var i := 0;
    assert steps[..i] == [];
    CallbackFromIsSession(steps, i, callback);
    while true
      invariant i <= |steps|
      invariant CallbackFrom(steps, i, delivered, callback) == CallbackSession(steps, callback)
      decreases |steps| - i
    {
      if i == |steps| {
        return delivered, Pending;
      }
      match steps[i]
      case Cancelled(c) =>
        return delivered, Failed(NewRequestError("request cancelled", Some(c)));
      case Read(ReadErr(c)) =>
        return delivered, Failed(NewWebSocketError("failed to read message", Some(c)));
      case Read(ParseErr(c)) =>
        return delivered, Failed(NewResponseError("failed to parse response", Some(c)));
      case Read(Frame(response)) =>
        if response.header.code != 0 {
          return delivered, Failed(NewResponseError(response.header.message, None));
        }
        if callback {
          delivered := delivered + [response];
        }
        if response.payload.choices.status == 2 {
          return delivered, Returned(());
        }
        i := i + 1;
    }
  }

  /** A SparkClient: a configuration that calls read and never change. The
      HTTP transport it also holds is not modelled. */
  class SparkClient {
    const config: Config

    constructor (config: Config)
      ensures this.config == config
    {
      this.config := config;
    }

    /** Chat: dial, send, then read frames until a terminal frame or a
        failure, accumulating the first choice's content of every frame. */
    method Chat(req: ChatRequest, link: Link<ChatStep>) returns (sent: Option<APIRequest>, result: Outcome<APIResponse, SparkError>)
      ensures (sent, result) == ChatCall(config.Value(), req, link)
    {
      if link.dial.Some? {
        return None, Failed(NewConnectionError("failed to establish WebSocket connection", link.dial));
      }
      sent := Some(GenReqJson(config.Value(), req));
      if link.write.Some? {
        return sent, Failed(NewRequestError("failed to send message", link.write));
      }
      result := ChatReadLoop(link.inbound);
    }

    /** ChatWithCallback: as Chat, but every good frame is handed to the
        callback (when there is one) before its status is examined, and
        nothing is accumulated. */
    method ChatWithCallback(req: ChatRequest, callback: bool, link: Link<ChatStep>)
      returns (sent: Option<APIRequest>, delivered: seq<APIResponse>, result: Outcome<(), SparkError>)
      ensures (sent, delivered, result) == CallbackCall(config.Value(), req, callback, link)
    {
      if link.dial.Some? {
        return None, [], Failed(NewConnectionError("failed to establish WebSocket connection", link.dial));
      }
      sent := Some(GenReqJson(config.Value(), req));
      if link.write.Some? {
        return sent, [], Failed(NewRequestError("failed to send message", link.write));
      }
      delivered, result := CallbackReadLoop(link.inbound, callback);
    }

    /** ChatSimple: Chat with a request holding only the prompt as a user
        message. */
    method ChatSimple(prompt: string, link: Link<ChatStep>) returns (sent: Option<APIRequest>, result: Outcome<APIResponse, SparkError>)
      ensures (sent, result) == ChatCall(config.Value(), SimpleRequest(prompt), link)
      ensures sent.Some? ==> sent.value.text == [SparkMessage("user", prompt)] && sent.value.functions.None?
    {
      sent, result := Chat(SimpleRequest(prompt), link);
    }

    /** Embedding: dial the embedding URL, send the fixed envelope, read
        exactly one frame. */
    method Embedding(query: string, domain: string, link: Link<Received<EmbResponse>>)
      returns (sent: Option<EmbRequest>, result: Outcome<EmbResponse, SparkError>)
      ensures link.dial.Some? ==>
                sent.None? && result == Failed(SparkError(ConnectionError, "failed to establish WebSocket connection", link.dial))
      ensures link.dial.None? ==> sent == Some(GetEmbeddingRequest(config.Value(), query, domain))
      ensures link.dial.None? && link.write.Some? ==>
                result == Failed(SparkError(RequestError, "failed to send embedding request", link.write))
      ensures link.dial.None? && link.write.None? ==> result == EmbeddingRead(link.inbound)
      ensures link.dial.None? && link.write.None? && |link.inbound| > 0 ==>
                result == EmbeddingRead(link.inbound[..1])
    {
      if link.dial.Some? {
        return None, Failed(NewConnectionError("failed to establish WebSocket connection", link.dial));
      }
      var req := GetEmbeddingRequest(config.Value(), query, domain);
      sent := Some(req);
      if link.write.Some? {
        return sent, Failed(NewRequestError("failed to send embedding request", link.write));
      }
      if link.inbound == [] {
        return sent, Pending;
      }
      match link.inbound[0]
      case ReadErr(c) =>
        result := Failed(NewWebSocketError("failed to read message", Some(c)));
      case ParseErr(c) =>
        result := Failed(NewResponseError("failed to parse response", Some(c)));
      case Frame(response) =>
        if response.header.code != 0 {
          result := Failed(NewResponseError(response.header.message, None));
        } else {
          result := Returned(response);
        }
    }

    /** WithNewConfig: runs the options on a copy of this client's
        configuration and validates the copy; this client's configuration is
        left as it was. */
    method WithNewConfig(opts: seq<ConfigOption>) returns (client: SparkClient?, err: Option<SparkError>)
      ensures config.Value() == old(config.Value())
      ensures var cfg := ApplyAll(config.Value(), opts);
        match ValidateConfig(cfg)
        case None =>
          client != null && fresh(client) && fresh(client.config) && client.config.Value() == cfg && err.None?
        case Some(cause) =>
          client == null && err == Some(SparkError(ConfigurationError, "invalid configuration", Some(cause)))
    {
      var newConfig := new Config.Copy(config);
      newConfig.ApplyOptions(opts);
      match ValidateConfig(newConfig.Value())
      case Some(cause) =>
        return null, Some(NewConfigError("invalid configuration", Some(cause)));
      case None =>
        client := new SparkClient(newConfig);
        err := None;
    }
  }

  /** NewSparkClient: runs the options in order on the default configuration,
      then validates it. */
  method NewSparkClient(opts: seq<ConfigOption>) returns (client: SparkClient?, err: Option<SparkError>)
    ensures var cfg := ApplyAll(DefaultConfig(), opts);
      match ValidateConfig(cfg)
      case None =>
        client != null && fresh(client) && fresh(client.config) && client.config.Value() == cfg && err.None?
      case Some(cause) =>
        client == null && err == Some(SparkError(ConfigurationError, "invalid configuration", Some(cause)))
  {
    var config := new Config.Default();
    config.ApplyOptions(opts);
    match ValidateConfig(config.Value())
    case Some(cause) =>
      return null, Some(NewConfigError("invalid configuration", Some(cause)));
    case None =>
      client := new SparkClient(config);
      err := None;
  }
}
