/** The wire and request types shared by both clients (models.go), plus the
    three small notions both read loops are built from: a frame's own text
    fragment, the answer accumulated from a run of frames, and a frame with
    its first choice's content replaced. */
module Models {
  import opened Wrappers

  /** json.RawMessage: the undecoded bytes of a JSON value. */
  type RawJson = seq<bv8>

  datatype SparkMessage = SparkMessage(role: string, content: string)

  datatype SparkHeader = SparkHeader(code: int, message: string, sid: string, status: int)

  datatype SparkUsage = SparkUsage(questionTokens: int, promptTokens: int, completionTokens: int, totalTokens: int)

  datatype SparkFunctionCall = SparkFunctionCall(arguments: string, name: string)

  datatype SparkChoice = SparkChoice(
    content: string,
    reasoningContent: string,
    role: string,
    contentType: string,
    functionCall: SparkFunctionCall,
    index: int)

  /** The request the caller of the structured client hands in (SparkChatRequest
      of models.go). Temperature is a float64 that is only copied; it is
      carried as a real. A nil Functions payload is the empty byte sequence. */
  datatype ChatRequest = ChatRequest(
    messages: seq<SparkMessage>,
    temperature: real,
    topK: int,
    maxTokens: int,
    system: string,
    questionType: string,
    functions: RawJson)

  datatype RequestHeader = RequestHeader(appID: string, uid: string)

  datatype ChatParameter = ChatParameter(
    domain: string,
    temperature: real,
    maxTokens: int,
    topK: int,
    auditing: string,
    questionType: string)

  /** SparkAPIRequest: header, parameter.chat, payload.message.text and the
      optional `functions.text` (None when the pointer is nil). */
  datatype APIRequest = APIRequest(
    header: RequestHeader,
    chat: ChatParameter,
    text: seq<SparkMessage>,
    functions: Option<RawJson>)

  datatype PluginInvocation = PluginInvocation(
    namespace: string,
    pluginID: string,
    pluginVer: string,
    statusCode: int,
    statusMsg: string,
    kind: string)

  /** One plugin entry; its free-form `content_meta` is not modelled. */
  datatype PluginText = PluginText(
    name: string,
    content: string,
    contentType: string,
    contentMeta: RawJson,          // `content_meta`, kept as the raw JSON it holds
    role: string,
    status: string,
    invoked: PluginInvocation)

  datatype Choices = Choices(status: int, seqNo: int, text: seq<SparkChoice>)

  datatype ResponsePayload = ResponsePayload(choices: Choices, usage: SparkUsage, plugins: Option<seq<PluginText>>)

  /** SparkAPIResponse: one decoded inbound chat frame. */
  datatype APIResponse = APIResponse(header: SparkHeader, payload: ResponsePayload)

  datatype SparkFeature = SparkFeature(encoding: string, compress: string, format: string)

  datatype EmbHeader = EmbHeader(appID: string, uid: string, status: int)

  datatype EmbParameter = EmbParameter(domain: string, feature: SparkFeature)

  datatype EmbMessage = EmbMessage(encoding: string, compress: string, format: string, status: int, text: string)

  /** SparkAPIEmbRequest. */
  datatype EmbRequest = EmbRequest(header: EmbHeader, parameter: EmbParameter, message: EmbMessage)

  /** SparkAPIEmbResponse. */
  datatype EmbResponse = EmbResponse(header: SparkHeader, feature: SparkFeature)

  /** The Go zero value of SparkAPIResponse. */
  const ZeroResponse: APIResponse :=
    APIResponse(
      SparkHeader(0, "", "", 0),
      ResponsePayload(Choices(0, 0, []), SparkUsage(0, 0, 0, 0), None))

  /** A frame with `code == 0` is good; any other code is a protocol error. */
  predicate IsGood(r: APIResponse)
  {
    r.header.code == 0
  }

  /** `payload.choices.status == 2` marks the last frame of a stream. */
  predicate IsTerminal(r: APIResponse)
  {
    r.payload.choices.status == 2
  }

  /** The text a frame contributes to the answer: its first choice's content,
      or nothing when it carries no choice. */
  function Fragment(r: APIResponse): (f: string)
    ensures r.payload.choices.text == [] ==> f == ""
    ensures r.payload.choices.text != [] ==> f == r.payload.choices.text[0].content
  {
    if |r.payload.choices.text| > 0 then r.payload.choices.text[0].content else ""
  }

  /** The answer accumulated over `rs` in arrival order. */
  function Answer(rs: seq<APIResponse>): string
  {
    if rs == [] then "" else Answer(rs[..|rs| - 1]) + Fragment(rs[|rs| - 1])
  }

  /** Accumulating two runs of frames one after the other is the same as
      accumulating each and joining the results. */
  lemma {:induction false} AnswerAppend(a: seq<APIResponse>, b: seq<APIResponse>)
    ensures Answer(a + b) == Answer(a) + Answer(b)
    decreases |b|
  {
    if b == [] {
      assert a + b == a;
    } else {
      var b', last := b[..|b| - 1], b[|b| - 1];
      assert (a + b)[..|a + b| - 1] == a + b';
      assert (a + b)[|a + b| - 1] == last;
      AnswerAppend(a, b');
      calc {
        Answer(a + b);
        Answer(a + b') + Fragment(last);
        Answer(a) + Answer(b') + Fragment(last);
        Answer(a) + Answer(b);
      }
    }
  }

  /** Frames without a choice contribute nothing: the answer over a run
      where each frame has no choice is empty. */
  lemma {:induction false} AnswerOfChoiceless(rs: seq<APIResponse>)
    requires forall i :: 0 <= i < |rs| ==> rs[i].payload.choices.text == []
    ensures Answer(rs) == ""
    decreases |rs|
  {
    if rs != [] {
      AnswerOfChoiceless(rs[..|rs| - 1]);
    }
  }

  /** `r` with its first choice's content replaced by `content`; `r`
      unchanged when it has no choice. */
  function WithContent(r: APIResponse, content: string): (r': APIResponse)
    ensures r'.header == r.header
    ensures r'.payload.usage == r.payload.usage && r'.payload.plugins == r.payload.plugins
    ensures r'.payload.choices.status == r.payload.choices.status
    ensures r'.payload.choices.seqNo == r.payload.choices.seqNo
    ensures |r'.payload.choices.text| == |r.payload.choices.text|
    ensures r.payload.choices.text == [] ==> r' == r
    ensures r.payload.choices.text != [] ==>
              Fragment(r') == content &&
              r'.payload.choices.text[1..] == r.payload.choices.text[1..] &&
              r'.payload.choices.text[0] == r.payload.choices.text[0].(content := content)
  {
    if |r.payload.choices.text| > 0 then
      var t := r.payload.choices.text;
      r.(payload := r.payload.(choices := r.payload.choices.(text := t[0 := t[0].(content := content)])))
    else r
  }
}
