/** The older client of sparkclient.go, kept beside the structured one: a
    client built from positional arguments or from an env file through a
    process-wide registry, a request builder with a fixed UID and auditing
    mode, and a read loop that hands only frames with text to its callback and
    does not report read or decoding failures. */
module Legacy {
  import opened Wrappers
  import opened Errors
  import opened Models
  import opened Transport

  const AppIdEnvVarName: string := "SPARKAI_APP_ID"
  const ApiKeyEnvVarName: string := "SPARKAI_API_KEY"
  const ApiSecretEnvVarName: string := "SPARKAI_API_SECRET"
  const SparkDomainEnvVarName: string := "SPARKAI_DOMAIN"
  const BaseURLEnvVarName: string := "SPARKAI_URL"

  const DefaultEnvName: string := ".env"
  const DefaultUID: string := "12345"
  const DefaultAuditing: string := "default"

  /** This client's own SparkChatRequest (role/content pairs, Topk,
      Maxtokens). */
  datatype ChatRequest = ChatRequest(
    message: seq<SparkMessage>,
    temperature: real,
    topk: int,
    maxtokens: int,
    system: string,
    questionType: string,
    functions: RawJson)

  /** A value read from an env file; a missing key (or an unreadable file,
      given as the empty map) reads as "". */
  function Lookup(env: map<string, string>, key: string): (v: string)
    ensures key !in env ==> v == ""
    ensures key in env ==> v == env[key]
  {
    if key in env then env[key] else ""
  }

  /** One iteration of the read loop keeps it going: a frame decoded, code
      0, status other than 2. */
  predicate Continues(x: Received<APIResponse>)
  {
    x.Frame? && IsGood(x.resp) && !IsTerminal(x.resp)
  }

  /** The frames decoded in `xs`, in order. */
  function Decoded(xs: seq<Received<APIResponse>>): seq<APIResponse>
  {
    if xs == [] then []
    else Decoded(xs[..|xs| - 1]) + (if xs[|xs| - 1].Frame? then [xs[|xs| - 1].resp] else [])
  }

  lemma DecodedStep(xs: seq<Received<APIResponse>>, i: nat)
    requires i < |xs|
    ensures Decoded(xs[..i + 1]) == Decoded(xs[..i]) + (if xs[i].Frame? then [xs[i].resp] else [])
  {
    assert xs[..i + 1][..i] == xs[..i];
  }

  /** The frames among `rs` that carry at least one choice. */
  function WithText(rs: seq<APIResponse>): seq<APIResponse>
  {
    if rs == [] then []
    else WithText(rs[..|rs| - 1]) + (if rs[|rs| - 1].payload.choices.text != [] then [rs[|rs| - 1]] else [])
  }

  lemma WithTextAppend(rs: seq<APIResponse>, r: APIResponse)
    ensures WithText(rs + [r]) == WithText(rs) + (if r.payload.choices.text != [] then [r] else [])
  {
    assert (rs + [r])[..|rs|] == rs;
  }

  /** Frames without a choice add nothing to the answer, so the answer is
      the concatenation of the fragments of the frames the callback sees. */
  lemma {:induction false} AnswerOfWithText(rs: seq<APIResponse>)
    ensures Answer(WithText(rs)) == Answer(rs)
  {
    if rs != [] {
      var n := |rs|;
      var r := rs[n - 1];
      AnswerOfWithText(rs[..n - 1]);
      assert rs == rs[..n - 1] + [r];
      AnswerAppend(rs[..n - 1], [r]);
      AnswerAppend(WithText(rs[..n - 1]), if r.payload.choices.text != [] then [r] else []);
      assert [r][..0] == [];
    }
  }

  /** One more decoded frame extends what the loop has accumulated: its
      first choice's content is appended to the answer, and it is handed
      over iff it has a choice. */
  lemma AccumulateStep(rs: seq<APIResponse>, r: APIResponse)
    ensures r.payload.choices.text != [] ==>
              Answer(rs + [r]) == Answer(rs) + r.payload.choices.text[0].content &&
              WithText(rs + [r]) == WithText(rs) + [r]
    ensures r.payload.choices.text == [] ==>
              Answer(rs + [r]) == Answer(rs) && WithText(rs + [r]) == WithText(rs)
  {
    assert (rs + [r])[..|rs|] == rs;
    WithTextAppend(rs, r);
    if r.payload.choices.text == [] {
      assert Answer(rs) + "" == Answer(rs);
      assert WithText(rs) + [] == WithText(rs);
    }
  }

  /** A read or decoding failure adds nothing to what has been decoded. */
  lemma NonFrameStep(xs: seq<Received<APIResponse>>, i: nat)
    requires i < |xs| && !xs[i].Frame?
    ensures Decoded(xs[..i + 1]) == Decoded(xs[..i])
  {
    DecodedStep(xs, i);
    assert Decoded(xs[..i]) + [] == Decoded(xs[..i]);
  }

  /** The response variable of the loop after `xs`: the last frame decoded,
      or the zero response when none was. */
  function LastDecoded(xs: seq<Received<APIResponse>>): APIResponse
  {
    var rs := Decoded(xs);
    if rs == [] then ZeroResponse else rs[|rs| - 1]
  }

  /** SparkChatWithCallback after a successful dial and write: the frames
      handed to the callback and the outcome. The loop stops at the first
      iteration that does not continue. A frame with a non-zero code returns
      no response and an error whose text is the frame's message; a terminal
      frame, a read failure and a decoding failure all return the last
      decoded response, its first choice's content replaced by the answer
      accumulated so far, and no error. */
  function LegacySession(xs: seq<Received<APIResponse>>, callback: bool): (r: (seq<APIResponse>, Outcome<APIResponse, Cause>))
    ensures r.1.Pending? <==> forall i :: 0 <= i < |xs| ==> Continues(xs[i])
    ensures r.1.Failed? ==>
              exists i :: 0 <= i < |xs| && xs[i].Frame? && !IsGood(xs[i].resp) && r.1.error == Plain(xs[i].resp.header.message)
    ensures !callback ==> r.0 == []
  {
    SessionStoppedAt(xs, FirstStop(xs, Continues), callback)
  }

  /** The session when iteration `k` is the first that does not continue
      (`k == |xs|`: none of them). */
  function SessionStoppedAt(xs: seq<Received<APIResponse>>, k: nat, callback: bool): (seq<APIResponse>, Outcome<APIResponse, Cause>)
    requires k <= |xs|
  {
    if k == |xs| then
      (if callback then WithText(Decoded(xs)) else [], Pending)
    else if xs[k].Frame? && !IsGood(xs[k].resp) then
      (if callback then WithText(Decoded(xs[..k])) else [], Failed(Plain(xs[k].resp.header.message)))
    else
      var handled := xs[..k + 1];
      (if callback then WithText(Decoded(handled)) else [],
       Returned(WithContent(LastDecoded(handled), Answer(Decoded(handled)))))
  }

  /** Iteration `i` is the first that does not continue: it decides the
      session. */
  lemma LegacyStopsAt(xs: seq<Received<APIResponse>>, i: nat, callback: bool)
    requires i < |xs| && FirstStop(xs, Continues) == i
    ensures xs[i].Frame? && !IsGood(xs[i].resp) ==>
              LegacySession(xs, callback).0 == (if callback then WithText(Decoded(xs[..i])) else []) &&
              LegacySession(xs, callback).1 == Failed(Plain(xs[i].resp.header.message))
    ensures !(xs[i].Frame? && !IsGood(xs[i].resp)) ==>
              LegacySession(xs, callback).0 == (if callback then WithText(Decoded(xs[..i + 1])) else []) &&
              LegacySession(xs, callback).1 == Returned(WithContent(LastDecoded(xs[..i + 1]), Answer(Decoded(xs[..i + 1]))))
  {
  }

  /** The legacy loop run forward from iteration `i`, with the last
      response decoded, the answer and the frames handed over so far: the
      shape of the loop itself, one iteration per call. */
  function LegacyFrom(xs: seq<Received<APIResponse>>, i: nat, response: APIResponse, answer: string,
                      delivered: seq<APIResponse>, callback: bool): (seq<APIResponse>, Outcome<APIResponse, Cause>)
    requires i <= |xs|
    decreases |xs| - i
  {
    if i == |xs| then (delivered, Pending)
    else if !xs[i].Frame? then (delivered, Returned(WithContent(response, answer)))
    else
      var r := xs[i].resp;
      if !IsGood(r) then (delivered, Failed(Plain(r.header.message)))
      else
        var delivered' := if callback && r.payload.choices.text != [] then delivered + [r] else delivered;
        if IsTerminal(r) then (delivered', Returned(WithContent(r, answer + Fragment(r))))
        else LegacyFrom(xs, i + 1, r, answer + Fragment(r), delivered', callback)
  }

  /** Run forward from any iteration the loop reaches, with the state the
      frames before it leave, the legacy loop delivers and ends as
      LegacySession says. */
  lemma {:induction false} LegacyFromIsSession(xs: seq<Received<APIResponse>>, i: nat, callback: bool)
    requires i <= FirstStop(xs, Continues)
    ensures var rs := Decoded(xs[..i]);
      LegacyFrom(xs, i, LastDecoded(xs[..i]), Answer(rs), if callback then WithText(rs) else [], callback) ==
      LegacySession(xs, callback)
    decreases |xs| - i
  {
    if i < |xs| {
      if xs[i].Frame? {
        DecodedStep(xs, i);
        AccumulateStep(Decoded(xs[..i]), xs[i].resp);
      } else {
        NonFrameStep(xs, i);
      }
      if Continues(xs[i]) {
        GoesOnPast(xs, Continues, i);
        LegacyFromIsSession(xs, i + 1, callback);
      } else {
        StopsFirstAt(xs, Continues, i);
        LegacyStopsAt(xs, i, callback);
      }
    } else {
      assert xs[..i] == xs;
    }
  }

  /** Each frame as one successful read. */
  function AsReads(frames: seq<APIResponse>): (xs: seq<Received<APIResponse>>)
    ensures |xs| == |frames|
    ensures forall i :: 0 <= i < |frames| ==> xs[i] == Frame(frames[i])
  {
    seq(|frames|, i requires 0 <= i < |frames| => Frame(frames[i]))
  }

  lemma {:induction false} DecodedOfFrames(frames: seq<APIResponse>)
    ensures Decoded(AsReads(frames)) == frames
    decreases |frames|
  {
    if frames != [] {
      var n := |frames|;
      assert AsReads(frames)[..n - 1] == AsReads(frames[..n - 1]);
      DecodedOfFrames(frames[..n - 1]);
      assert frames == frames[..n - 1] + [frames[n - 1]];
    }
  }

  /** Where the loop stands once `frames` have streamed in and `x` comes
      next: `x` decides, and what follows it is never read. */
  lemma {:induction false} AfterStreaming(frames: seq<APIResponse>, x: Received<APIResponse>, rest: seq<Received<APIResponse>>)
    requires forall i :: 0 <= i < |frames| ==> IsGood(frames[i]) && !IsTerminal(frames[i])
    requires !Continues(x)
    ensures var xs := AsReads(frames) + [x] + rest;
      && FirstStop(xs, Continues) == |frames|
      && Decoded(xs[..|frames|]) == frames
      && Decoded(xs[..|frames| + 1]) == frames + (if x.Frame? then [x.resp] else [])
  {
    var xs := AsReads(frames) + [x] + rest;
    var n := |frames|;
    forall j | 0 <= j < n ensures Continues(xs[j]) {
      assert xs[j] == Frame(frames[j]);
    }
    FirstStopAt(xs, Continues, n);
    assert xs[..n] == AsReads(frames);
    DecodedOfFrames(frames);
    DecodedStep(xs, n);
  }

  /** A frame with a non-zero code ends the call with no response and an
      error whose text is exactly the frame's message; the callback has seen
      only the earlier frames that had text. */
  lemma {:induction false} LegacyErrorFrame(frames: seq<APIResponse>, bad: APIResponse, rest: seq<Received<APIResponse>>)
    requires forall i :: 0 <= i < |frames| ==> IsGood(frames[i]) && !IsTerminal(frames[i])
    requires !IsGood(bad)
    ensures LegacySession(AsReads(frames) + [Frame(bad)] + rest, true) == (WithText(frames), Failed(Plain(bad.header.message)))
  {
    AfterStreaming(frames, Frame(bad), rest);
  }

  /** On a stream that ends with a terminal frame, the terminal frame is
      returned with the concatenated answer, and the callback saw exactly the
      frames that had text, in order. */
  lemma {:induction false} LegacyReturnsAggregate(frames: seq<APIResponse>, last: APIResponse, rest: seq<Received<APIResponse>>)
    requires forall i :: 0 <= i < |frames| ==> IsGood(frames[i]) && !IsTerminal(frames[i])
    requires IsGood(last) && IsTerminal(last)
    ensures LegacySession(AsReads(frames) + [Frame(last)] + rest, true) ==
            (WithText(frames + [last]), Returned(WithContent(last, Answer(frames) + Fragment(last))))
  {
    AfterStreaming(frames, Frame(last), rest);
    AnswerAppend(frames, [last]);
    assert [last][..0] == [];
  }

  /** A read failure or an undecodable frame is not reported: the call
      returns the last frame decoded before it (the zero response if there
      was none) with the answer so far, and no error. */
  lemma {:induction false} LegacySwallowsFailures(frames: seq<APIResponse>, x: Received<APIResponse>, rest: seq<Received<APIResponse>>)
    requires forall i :: 0 <= i < |frames| ==> IsGood(frames[i]) && !IsTerminal(frames[i])
    requires !x.Frame?
    ensures var o := LegacySession(AsReads(frames) + [x] + rest, true).1;
      && o.Returned?
      && (frames == [] ==> o.value == ZeroResponse)
      && (frames != [] ==> o.value == WithContent(frames[|frames| - 1], Answer(frames)))
  {
    AfterStreaming(frames, x, rest);
    assert frames + [] == frames;
  }

  /** The read loop of SparkChatWithCallback: read and decode a frame into
      the response (a read or decoding failure ends the loop), return an
      error on a non-zero code, accumulate and hand over frames with text,
      and stop after a terminal frame. The last response decoded is returned
      with the answer as its first choice's content. */
  method LegacyReadLoop(xs: seq<Received<APIResponse>>, callback: bool)
    returns (delivered: seq<APIResponse>, result: Outcome<APIResponse, Cause>)
    ensures delivered == LegacySession(xs, callback).0
    ensures result == LegacySession(xs, callback).1
  {
    delivered := [];
    var response := ZeroResponse;
    var answer := "";
    var i := 0;
    assert xs[..i] == [];
    LegacyFromIsSession(xs, i, callback);
    while true
      invariant i <= |xs|
      invariant LegacyFrom(xs, i, response, answer, delivered, callback) == LegacySession(xs, callback)
      decreases |xs| - i
    {
      if i == |xs| {
        return delivered, Pending;
      }
      if !xs[i].Frame? {
        // a read or decoding failure ends the loop without an error
        break;
      }
      response := xs[i].resp;
      if response.header.code != 0 {
        return delivered, Failed(Plain(response.header.message));
      }
      if |response.payload.choices.text| > 0 {
        answer := answer + response.payload.choices.text[0].content;
        if callback {
          delivered := delivered + [response];
        }
      } else {
        assert answer + Fragment(response) == answer;
      }
      if response.payload.choices.status == 2 {
        break;
      }
      i := i + 1;
    }
    // overwrite Text[0].Content with the whole answer, when there is a Text[0]
    response := WithContent(response, answer);
    result := Returned(response);
  }

  /** The legacy client: the credentials, URL and domain it was built with.
      The HTTP transport it also holds is not modelled. */
  class SparkClient {
    const appID: string
    const apiSecret: string
    const apiKey: string
    const hostURL: string
    const domain: string

    /** NewSparkClientWithOptions(appid, apikey, apisecret, hostURL, domain):
        each positional argument lands in its own field, the key before the
        secret in the argument list. */
    constructor NewSparkClientWithOptions(appid: string, apikey: string, apisecret: string, hostURL: string, domain: string)
      ensures this.appID == appid && this.apiKey == apikey && this.apiSecret == apisecret
      ensures this.hostURL == hostURL && this.domain == domain
    {
      this.appID := appid;
      this.apiSecret := apisecret;
      this.apiKey := apikey;
      this.hostURL := hostURL;
      this.domain := domain;
    }

    /** genReqJson: a system message first iff the system prompt is set, then
        every user message in order with its role and content; AppID and
        Domain from the client, UID and auditing mode always the defaults;
        QuestionType copied (set only when non-empty, which leaves an empty
        one empty); `functions` carries the payload iff it is non-empty. */
    function GenReqJson(usrReq: ChatRequest): (r: APIRequest)
      ensures r.header == RequestHeader(appID, "12345")
      ensures r.chat.domain == domain && r.chat.auditing == "default"
      ensures r.chat.temperature == usrReq.temperature && r.chat.topK == usrReq.topk
      ensures r.chat.maxTokens == usrReq.maxtokens && r.chat.questionType == usrReq.questionType
      ensures |r.text| == |usrReq.message| + (if usrReq.system != "" then 1 else 0)
      ensures usrReq.system != "" ==> r.text[0] == SparkMessage("system", usrReq.system)
      ensures usrReq.system != "" ==> r.text[1..] == usrReq.message
      ensures usrReq.system == "" ==> r.text == usrReq.message
      ensures r.functions.Some? <==> |usrReq.functions| > 0
      ensures r.functions.Some? ==> r.functions.value == usrReq.functions
    {
      var system := if usrReq.system != "" then [SparkMessage("system", usrReq.system)] else [];
      var questionType := if usrReq.questionType != "" then usrReq.questionType else "";
      APIRequest(
        RequestHeader(appID, DefaultUID),
        ChatParameter(domain, usrReq.temperature, usrReq.maxtokens, usrReq.topk, DefaultAuditing, questionType),
        system + usrReq.message,
        if |usrReq.functions| > 0 then Some(usrReq.functions) else None)
    }

    /** SparkChatWithCallback: a failed dial or write returns its error as it
        is; then the read loop. */
    method SparkChatWithCallback(req: ChatRequest, callback: bool, link: Link<Received<APIResponse>>)
      returns (sent: Option<APIRequest>, delivered: seq<APIResponse>, result: Outcome<APIResponse, Cause>)
      ensures link.dial.Some? ==> sent.None? && delivered == [] && result == Failed(link.dial.value)
      ensures link.dial.None? ==> sent == Some(GenReqJson(req))
      ensures link.dial.None? && link.write.Some? ==> delivered == [] && result == Failed(link.write.value)
      ensures link.dial.None? && link.write.None? ==> delivered == LegacySession(link.inbound, callback).0
      ensures link.dial.None? && link.write.None? ==> result == LegacySession(link.inbound, callback).1
    {
      delivered := [];
      if link.dial.Some? {
        return None, delivered, Failed(link.dial.value);
      }
      sent := Some(GenReqJson(req));
      if link.write.Some? {
        return sent, delivered, Failed(link.write.value);
      }
      delivered, result := LegacyReadLoop(link.inbound, callback);
    }

    /** SparkChatSimple: one user message, no callback. */
    method SparkChatSimple(prompt: string, link: Link<Received<APIResponse>>)
      returns (sent: Option<APIRequest>, result: Outcome<APIResponse, Cause>)
      ensures link.dial.Some? ==> sent.None? && result == Failed(link.dial.value)
      ensures link.dial.None? ==>
                sent == Some(GenReqJson(ChatRequest.ChatRequest([SparkMessage("user", prompt)], 0.0, 0, 0, "", "", [])))
      ensures sent.Some? ==> sent.value.text == [SparkMessage("user", prompt)] && sent.value.functions.None?
      ensures link.dial.None? && link.write.Some? ==> result == Failed(link.write.value)
      ensures link.dial.None? && link.write.None? ==> result == LegacySession(link.inbound, false).1
    {
      var req := ChatRequest.ChatRequest([SparkMessage("user", prompt)], 0.0, 0, 0, "", "", []);
      var delivered;
      sent, delivered, result := SparkChatWithCallback(req, false, link);
    }
  }

  /** The process-wide registry: `clientConfigs` and `loadedEnvs`, keyed by
      env file name. */
  class Registry {
    var clientConfigs: map<string, SparkClient>
    var loadedEnvs: map<string, bool>

    /** Every name is in both maps or in neither, and marked loaded. */
    ghost predicate Valid()
      reads this
    {
      clientConfigs.Keys == loadedEnvs.Keys &&
      forall e :: e in loadedEnvs ==> loadedEnvs[e]
    }

    constructor ()
      ensures Valid() && clientConfigs == map[] && loadedEnvs == map[]
    {
      clientConfigs := map[];
      loadedEnvs := map[];
    }

    /** loadEnvIfNeeded: the cached client when `envName` was loaded before,
        without reading `env`; otherwise a new client built from `env` (the
        contents of the env file, empty when it cannot be read), stored under
        `envName` and marked loaded. No other name is touched. */
    method LoadEnvIfNeeded(envName: string, env: map<string, string>) returns (client: SparkClient)
      requires Valid()
      modifies this
      ensures Valid()
      ensures envName in old(clientConfigs) ==>
                client == old(clientConfigs)[envName] &&
                clientConfigs == old(clientConfigs) && loadedEnvs == old(loadedEnvs)
      ensures envName !in old(clientConfigs) ==>
                fresh(client) &&
                clientConfigs == old(clientConfigs)[envName := client] &&
                loadedEnvs == old(loadedEnvs)[envName := true]
      ensures envName !in old(clientConfigs) ==>
                client.appID == Lookup(env, AppIdEnvVarName) &&
                client.apiSecret == Lookup(env, ApiSecretEnvVarName) &&
                client.apiKey == Lookup(env, ApiKeyEnvVarName) &&
                client.hostURL == Lookup(env, BaseURLEnvVarName) &&
                client.domain == Lookup(env, SparkDomainEnvVarName)
      ensures envName in clientConfigs && clientConfigs[envName] == client
    {
      if envName in clientConfigs {
        return clientConfigs[envName];
      }
      client := new SparkClient.NewSparkClientWithOptions(
        Lookup(env, AppIdEnvVarName),
        Lookup(env, ApiKeyEnvVarName),
        Lookup(env, ApiSecretEnvVarName),
        Lookup(env, BaseURLEnvVarName),
        Lookup(env, SparkDomainEnvVarName));
      clientConfigs := clientConfigs[envName := client];
      loadedEnvs := loadedEnvs[envName := true];
    }

    /** NewSparkClient: the client of the default env file ".env". */
    method NewSparkClient(env: map<string, string>) returns (client: SparkClient)
      requires Valid()
      modifies this
      ensures Valid()
      ensures DefaultEnvName in clientConfigs && clientConfigs[DefaultEnvName] == client
      ensures DefaultEnvName in old(clientConfigs) ==>
                client == old(clientConfigs)[DefaultEnvName] &&
                clientConfigs == old(clientConfigs) && loadedEnvs == old(loadedEnvs)
      ensures DefaultEnvName !in old(clientConfigs) ==>
                fresh(client) &&
                clientConfigs == old(clientConfigs)[DefaultEnvName := client] &&
                loadedEnvs == old(loadedEnvs)[DefaultEnvName := true]
      ensures DefaultEnvName !in old(clientConfigs) ==>
                client.appID == Lookup(env, AppIdEnvVarName) &&
                client.apiSecret == Lookup(env, ApiSecretEnvVarName) &&
                client.apiKey == Lookup(env, ApiKeyEnvVarName) &&
                client.hostURL == Lookup(env, BaseURLEnvVarName) &&
                client.domain == Lookup(env, SparkDomainEnvVarName)
    {
      client := LoadEnvIfNeeded(DefaultEnvName, env);
    }

    /** NewSparkClientWithEnv: the client of the named env file. */
    method NewSparkClientWithEnv(envName: string, env: map<string, string>) returns (client: SparkClient)
      requires Valid()
      modifies this
      ensures Valid()
      ensures envName in clientConfigs && clientConfigs[envName] == client
      ensures envName in old(clientConfigs) ==>
                client == old(clientConfigs)[envName] &&
                clientConfigs == old(clientConfigs) && loadedEnvs == old(loadedEnvs)
      ensures envName !in old(clientConfigs) ==>
                fresh(client) &&
                clientConfigs == old(clientConfigs)[envName := client] &&
                loadedEnvs == old(loadedEnvs)[envName := true]
      ensures envName !in old(clientConfigs) ==>
                client.appID == Lookup(env, AppIdEnvVarName) &&
                client.apiSecret == Lookup(env, ApiSecretEnvVarName) &&
                client.apiKey == Lookup(env, ApiKeyEnvVarName) &&
                client.hostURL == Lookup(env, BaseURLEnvVarName) &&
                client.domain == Lookup(env, SparkDomainEnvVarName)
    {
      client := LoadEnvIfNeeded(envName, env);
    }
  }
}
