# gosparkclient — a verified model of the client protocol layer

This project models the Go client library for the iFlytek Spark chat and embedding
WebSocket API (`gosparkclient`), with the network removed. It covers:

- **The structured client** (`client.go`, module `Client`):
  - the wire request built from a configuration and a chat request (`genReqJson`);
  - the fixed embedding envelope (`getEmbeddingRequest`);
  - client construction from options (`NewSparkClient`, `WithNewConfig`);
  - the three calls `Chat`, `ChatWithCallback` and `Embedding`, and `ChatSimple`.
- **The configuration** (`config.go`, module `ClientConfig`):
  - defaults;
  - the ordered required-field check;
  - options that overwrite named fields of a `Config` in place.
- **The error taxonomy** (`errors.go`, module `Errors`): typed errors, the exact `Error()` text, `Unwrap()` and the constructors.
- **The older client** (`sparkclient.go`, module `Legacy`):
  - a request builder with a fixed UID and auditing mode;
  - a read loop that hands only frames with text to its callback and does not report read or decoding failures;
  - the env-keyed client registry.
- **URL signing** (`utils.go`, module `Signing`):
  - the three-line sign string;
  - the HMAC-SHA256/Base64 signature;
  - the `hmac username=...` authorization descriptor;
  - the query appended to the host URL.

The two clients declare the same type names in Go. They are kept as two separate modules here.

**How a call is modelled.** A call is a deterministic function of what its connection hands it. This is a `Transport.Link`:
- the outcome of the dial;
- the outcome of the request write;
- the sequence of read outcomes, each one a decoded frame, a read failure or a decoding failure.

For the structured client, each loop iteration may instead find its context cancelled. When the reads run out before the call returns, the outcome is `Pending`: the real call would still be blocked in a read.

**How the read loops are proved.** Each read loop is an imperative method with a `while` loop over the reads (`Client.ChatReadLoop`, `Client.CallbackReadLoop`, `Legacy.LegacyReadLoop`). The method is proved equal to a pure specification function:
- `Session.ChatSession` and `Session.CallbackSession` for the structured client;
- `Legacy.LegacySession` for the older client.

Each specification function says where the loop stops: at the first iteration that does not continue (`Transport.FirstStop`). A second function runs the loop forward one iteration per call (`Session.ChatFrom`, `Session.CallbackFrom`, `Legacy.LegacyFrom`). Its lemma (`...FromIsSession`) shows the two agree from every iteration the loop reaches, and the loop invariant is that agreement. The lemmas beside the specification functions state what the calls promise.

**Config and the registry.** `Config` is a class whose fields the options assign in place. The registry of the older client is a class holding the two process-wide maps.

Module layout:

| file | module | models |
|---|---|---|
| wrappers.dfy | Wrappers | `Option` |
| errors.dfy | Errors | errors.go |
| models.dfy | Models | the datatypes of models.go, plus the answer accumulation shared by both clients |
| transport.dfy | Transport | the connection outcomes and the first-stop index of a read loop |
| config.dfy | ClientConfig | config.go |
| session.dfy | Session | the read loops of client.go, as specification functions and lemmas |
| client.dfy | Client | client.go |
| legacy.dfy | Legacy | sparkclient.go |
| signing.dfy | Signing | utils.go |

## Model

| member | source | states |
|---|---|---|
| Errors.TypeNamed | errors.go:10-17 | a name maps back to a category only when it is that category's name |
| Errors.TypeNamesDistinct | errors.go:10-17 | each of the six category names is read back as its own category, so the names are pairwise distinct |
| Errors.ErrorText | errors.go:27-32 | `Error()` is `"<Type>: <Message>"` without a cause and `"<Type>: <Message> (underlying: <cause text>)"` with one; it always begins with `"<Type>: <Message>"` |
| Errors.Unwrap | errors.go:35-37 | returns exactly the stored cause, nil included |
| Errors.NewSparkError | errors.go:39-46 | the error carries the given category and message, and unwraps to the given cause |
| Errors.NewConfigError | errors.go:49-51 | category ConfigurationError; message and cause as passed |
| Errors.NewConnectionError | errors.go:53-55 | category ConnectionError; message and cause as passed |
| Errors.NewAuthError | errors.go:57-59 | category AuthenticationError; message and cause as passed |
| Errors.NewRequestError | errors.go:61-63 | category RequestError; message and cause as passed |
| Errors.NewResponseError | errors.go:65-67 | category ResponseError; message and cause as passed |
| Errors.NewWebSocketError | errors.go:69-71 | category WebSocketError; message and cause as passed |
| Errors.TypeName | errors.go:10-17 | each category's string value is non-empty and contains no ':' |
| Errors.CategoryRecoverable | errors.go:27-32 | for each of the six categories of errors.go, the text of `Error()` up to its first ':' names the error's category, whatever the message and cause |
| Models.Fragment | client.go:121-123 | a frame contributes its first choice's content, or nothing when it has no choice |
| Models.AnswerAppend | client.go:121-123 | accumulating two runs of frames in turn equals joining their separate answers |
| Models.AnswerOfChoiceless | client.go:121-123 | frames without a choice add nothing to the answer |
| Models.WithContent | client.go:126-128 | replacing the first choice's content changes only that content; a response without a choice is unchanged |
| Transport.FirstStop | client.go:102-136 | the index of the first iteration that does not continue: every earlier one continues, and it does not |
| Session.StepError | client.go:103-119 | an iteration ends the call with an error iff it is not a good decoded frame; cancellation, read failure, parse failure and a non-zero code map to RequestError, WebSocketError, ResponseError and ResponseError(message, nil) |
| Session.ResponsesStep | client.go:121-123 | a decoded frame is the next response, and its fragment extends the answer |
| Session.ChatStopsAt | client.go:102-136 | the first iteration that does not continue decides Chat: its error, or its frame returned with the answer over every frame read, its own included |
| Session.CallbackStopsAt | client.go:50-78 | the first iteration that does not continue decides ChatWithCallback: a failing one returns its error after the earlier frames, a terminal one returns nil after every frame including it |
| Session.ChatFromIsSession | client.go:99-138 | run forward from any iteration the loop reaches, with the answer of the earlier frames, the chat loop ends exactly as ChatSession says |
| Session.CallbackFromIsSession | client.go:50-78 | run forward from any iteration the loop reaches, with the earlier frames already handed over, the callback loop delivers and ends exactly as CallbackSession says |
| Session.ChatSession | client.go:99-138 | Chat's read loop is still waiting iff every iteration continues; it returns only a good terminal frame; it fails only with the error of one of the iterations |
| Session.CallbackSession | client.go:50-78 | ChatWithCallback's read loop is still waiting iff every iteration continues; it fails only with the error of one of the iterations; nothing is handed over without a callback |
| Session.ChatReturnsAggregate | client.go:121-138 | on good frames ending with a terminal frame, Chat returns the terminal frame with its first choice's content set to the in-order concatenation of every fragment, its own included |
| Session.ChatAbortsOnErrorFrame | client.go:117-119 | a frame with a non-zero code ends Chat with ResponseError(header message, nil), whatever its status |
| Session.ChatFailureKinds | client.go:103-115 | cancellation, a read failure and a parse failure end Chat with RequestError "request cancelled", WebSocketError "failed to read message" and ResponseError "failed to parse response", each wrapping its cause |
| Session.ChatPendingWhileStreaming | client.go:102-136 | on good non-terminal frames only, Chat has not returned |
| Session.CallbackDeliversEveryFrame | client.go:65-76 | the callback is handed every good frame once, unmodified, in order, the terminal frame included; the call then returns nil |
| Session.CallbackStopsAtFailure | client.go:52-67 | on a failing iteration, the callback has seen exactly the earlier frames, and the error equals Chat's |
| Session.ChatAgreesWithCallback | client.go:50-79 | Chat and ChatWithCallback end alike with the same error; Chat returns the last frame handed to the callback, its content set to the answer over all handed frames |
| Session.EmbeddingRead | client.go:172-186 | only the first read counts: a read failure, a parse failure and a non-zero code each give their error; a good frame is returned as read |
| ClientConfig.DefaultConfig | config.go:8-12 | timeout 30s, UID "12345", auditing "default"; credentials, URLs and domain empty |
| ClientConfig.ValidateConfig | config.go:39-54 | success iff AppID, ApiSecret, ApiKey and HostURL are all set; otherwise "<Field> is required" for the first empty one in that order |
| ClientConfig.ValidationIgnoresOptionalFields | config.go:39-54 | EMBURL, Domain, Timeout, UID and Auditing never affect validation |
| ClientConfig.ApplyOption | config.go:56-106 | an option assigns exactly the fields it names, to the values it carries; every other field is unchanged |
| ClientConfig.WithConfigReplacesAll | config.go:101-106 | WithConfig replaces the whole configuration by its argument |
| ClientConfig.LastAssigning | config.go:56-106 | the index of the last option naming a field: it names the field, and no later option does |
| ClientConfig.LaterOptionWins | client.go:16-19 | after options run in order, each field holds what the last option naming it wrote, or its start value |
| ClientConfig.OnlyURLsNeedsAppID | config.go:40-43 | with only the URLs set, validation fails with "AppID is required" |
| ClientConfig.CredentialsAndHostSuffice | config.go:40-53 | credentials plus a host URL make a configuration valid |
| ClientConfig.Config.Default | config.go:30-37 | a fresh Config holds DefaultConfig() |
| ClientConfig.Config.Copy | client.go:190 | a fresh Config holds the same value as the original |
| ClientConfig.Config.Apply | config.go:56-106 | running one option sets the Config's value to ApplyOption of the old value |
| ClientConfig.Config.ApplyOptions | client.go:17-19 | running options in order sets the Config's value to ApplyAll of the old value |
| Client.GenReqJson | client.go:205-234 | header and chat domain and auditing come from the config; temperature, top_k, max_tokens and question type come from the request; the text is the system message (iff set) followed by the messages in order; functions is present iff non-empty, and then verbatim |
| Client.GetEmbeddingRequest | client.go:236-301 | header status 3; feature utf8/raw/plain; message utf8/raw/json with status 3 carrying the query; domain from the argument |
| Client.EmbeddingIgnoresConfiguredDomain | client.go:265 | the configured domain never reaches the embedding request |
| Client.SimpleRequest | client.go:142-149 | a single user message with the prompt, no system prompt, no functions |
| Client.ChatReadLoop | client.go:99-138 | the loop's outcome is ChatSession of the iterations |
| Client.CallbackReadLoop | client.go:50-78 | the frames the loop hands to the callback and its outcome are CallbackSession of the iterations |
| Client.ChatCall | client.go:81-138 | a request, the one GenReqJson builds, is sent iff the dial succeeds; the call fails with a ConnectionError iff the dial fails, and that error wraps the dial's cause |
| Client.CallbackCall | client.go:31-79 | a request, the one GenReqJson builds, is sent iff the dial succeeds; a ConnectionError iff the dial fails, wrapping its cause; nothing is handed to the callback after a failed dial or write, or without a callback |
| Client.SparkClient.constructor | client.go:25-28 | the client holds the configuration it is given |
| Client.SparkClient.Chat | client.go:81-139 | a failed dial is ConnectionError and nothing is sent; a failed write is RequestError; otherwise the outcome is ChatSession over the reads |
| Client.SparkClient.ChatWithCallback | client.go:31-79 | the same dial and write errors; otherwise the frames handed to the callback and the outcome are CallbackSession over the reads |
| Client.SparkClient.ChatSimple | client.go:141-151 | Chat with one user message holding the prompt, no functions |
| Client.SparkClient.Embedding | client.go:153-187 | the fixed envelope is sent; a failed dial is ConnectionError, a failed write is RequestError "failed to send embedding request"; otherwise the outcome is EmbeddingRead of the first read only |
| Client.SparkClient.WithNewConfig | client.go:189-203 | options run on a copy; this client's configuration is unchanged; on success the new client's configuration is ApplyAll, otherwise ConfigurationError "invalid configuration" wrapping the validation error |
| Client.NewSparkClient | client.go:15-29 | options run in order on DefaultConfig(), then validation; the same success and error cases |
| Legacy.Lookup | sparkclient.go:85-89 | a missing env key reads as "" |
| Legacy.LegacySession | sparkclient.go:175-205 | the older loop is still waiting iff every read continues; it fails only with the message of an error frame it read; nothing is handed over without a callback |
| Legacy.AnswerOfWithText | sparkclient.go:190-195 | the answer equals the concatenation of the fragments of the frames the callback sees |
| Legacy.AccumulateStep | sparkclient.go:190-195 | one more decoded frame extends the answer by its first choice's content and is handed over iff it has a choice; a frame without a choice changes neither |
| Legacy.NonFrameStep | sparkclient.go:178-186 | a read or decoding failure adds no frame |
| Legacy.LegacyStopsAt | sparkclient.go:177-205 | the first iteration that does not continue decides the session: an error frame returns its message after the earlier frames with text; anything else returns the last decoded response with the answer over every frame decoded |
| Legacy.LegacyFromIsSession | sparkclient.go:175-205 | run forward from any iteration the loop reaches, with the state the earlier frames leave, the legacy loop delivers and ends exactly as LegacySession says |
| Legacy.LegacyReadLoop | sparkclient.go:175-205 | the frames the loop hands to the callback and its outcome are LegacySession of the reads |
| Legacy.DecodedOfFrames | sparkclient.go:177-199 | a run of successful reads decodes to the frames themselves |
| Legacy.AfterStreaming | sparkclient.go:177-199 | after good non-terminal frames, the next read decides and nothing after it is read |
| Legacy.LegacyErrorFrame | sparkclient.go:187-189 | a non-zero code returns no response and an error whose text is the header message; the callback saw only the earlier frames with text |
| Legacy.LegacyReturnsAggregate | sparkclient.go:190-205 | a terminal frame is returned with the concatenated answer; the callback saw exactly the frames with text, in order |
| Legacy.LegacySwallowsFailures | sparkclient.go:177-205 | a read or decoding failure is not reported: the call returns the last decoded response (zero if none) with the answer so far |
| Legacy.SparkClient.NewSparkClientWithOptions | sparkclient.go:108-117 | each positional argument lands in its own field |
| Legacy.SparkClient.GenReqJson | sparkclient.go:208-250 | system message iff set, then the messages in order; UID always "12345" and auditing always "default"; AppID and domain from the client; functions iff non-empty |
| Legacy.SparkClient.SparkChatWithCallback | sparkclient.go:154-206 | dial and write errors are returned as they are; otherwise the frames handed to the callback and the outcome are LegacySession over the reads |
| Legacy.SparkClient.SparkChatSimple | sparkclient.go:140-152 | a failed dial or write is returned as it is, and nothing is sent after a failed dial; otherwise the request with one user message and no functions is sent, no callback is used, and the outcome is LegacySession's |
| Legacy.Registry.constructor | sparkclient.go:30-34 | the registry starts empty |
| Legacy.Registry.LoadEnvIfNeeded | sparkclient.go:67-98 | a cached name returns its client and changes nothing; otherwise a new client built from the env is stored under the name and the name is marked loaded; no other name changes |
| Legacy.Registry.NewSparkClient | sparkclient.go:100-102 | LoadEnvIfNeeded for ".env": the cached client, or a new one built from the env and stored under ".env"; no other name changes |
| Legacy.Registry.NewSparkClientWithEnv | sparkclient.go:104-106 | LoadEnvIfNeeded for the named env file: the cached client, or a new one built from the env and stored under the name; no other name changes |
| Signing.SignString | utils.go:22-23 | "host: <host>", "date: <date>" and "<METHOD> <path> HTTP/1.1" joined by "\n" |
| Signing.SignStringHasThreeLines | utils.go:22-23 | when no input holds a newline, the sign string is exactly those three lines, in order |
| Signing.HmacWithShaToBase64 | utils.go:33-37 | Base64 of the HMAC-SHA256 digest of the data's bytes under the key's bytes |
| Signing.Descriptor | utils.go:25 | the API key quoted as the username, then the fixed algorithm "hmac-sha256" and headers "host date request-line", then the signature quoted last |
| Signing.AlgorithmIgnored | utils.go:33-37 | the algorithm argument of HmacWithShaToBase64 does not affect the result |
| Signing.AuthQuery | utils.go:26-29 | the query has exactly the keys host, date and authorization |
| Signing.QueryMatchesSignature | utils.go:16-29 | the query's host and date are the ones signed; the authorization is Base64 of the descriptor naming the API key and that signature |
| Signing.OnlyDateAndAuthorizationVary | utils.go:21-29 | for a fixed URL, the host never depends on the time, the date does, and equal dates give equal queries |
| Signing.AssembleAuthURL | utils.go:16-31 | the result starts with hostURL + "?" and continues with the encoded query; no result iff the URL does not parse |

## Left out

- Dialing, writes, reads, `http.Transport`, proxies and handshake timeouts. These are network I/O. The outcomes of the dial, the write and each read are the input `Transport.Link`.
- `assembleAuthURL` of the structured client is not part of this model. The URL its calls dial is therefore not modelled either. The older client's `AssembleAuthURL` is modelled in `Signing`.
- JSON encoding and decoding. A decoded frame is a given value and an undecodable one is a `ParseErr` read. `omitempty` is not modelled.
- Legacy.SparkClient.SparkChatWithCallback: the older loop decodes every frame into one reused `response` variable. Fields missing from a later frame would keep earlier values; here each decoded frame replaces the response whole, and a frame that fails to decode leaves it unchanged.
- Legacy.SparkClient.SparkChatWithCallback: the call does not invoke `Signing.AssembleAuthURL`. The URL it dials is not modelled, and neither is the process exit through `log.Fatalf` when `HostURL` does not parse. The dial's outcome is the input `Transport.Link`.
- Legacy.SparkClient.SparkChatWithCallback: the callback is a flag: present or nil. In Go it receives a copy of `response` whose `Text` slice shares its backing array with the loop's variable. A frame the callback keeps is therefore overwritten by the next decode and by the final answer. That aliasing is not modelled: here each handed-over frame keeps the value it had when handed over.
- ClientConfig.ApplyOption: `ConfigOption` is a closed datatype of the seven `With*` options of config.go. In Go it is any `func(*Config)`, and `NewSparkClient` and `WithNewConfig` run whatever closures they are given. An option written by a caller is not modelled.
- Errors.NewSparkError: only the six `ErrorType` constants of errors.go are modelled, as the closed datatype `Errors.ErrorType`. In Go, `ErrorType` is a string type, so a caller may pass any category string. A caller-chosen category is not modelled. `Errors.CategoryRecoverable` speaks of the six constants only; for a category string that holds a ':' it would not hold.
- HMAC-SHA256, Base64, `[]byte` conversion, `url.Parse` and `url.Values.Encode` are foreign. They are the function fields of `Signing.Primitives`.
- `time.Now`: the formatted date is a parameter.
- `log.Fatalf` on a URL that does not parse is modelled as `None`; it ends the process.
- `ReadResp` and the `log.Printf` lines are I/O.
- `loadEnvLock` is concurrency and is not modelled.
- `godotenv.Read` is file I/O. The env file's contents are an input map, and an unreadable file is the empty map.
- The `init()` call that loads ".env" at start-up is not modelled.
- `NewSparkClientWithOptionsAndTransport` and the `Transport` field of both clients only carry network settings.
- `defaultTransport` is not modelled.
- `Temperature` is a Go float64 and is only copied. It is a `real` here.
- Client.SparkClient.ChatWithCallback: the callback is a flag: present or nil. It receives a pointer to the frame; a callback that mutates that frame is not modelled.
- Client.SparkClient.Chat: the in-place overwrite of `Text[0].Content` is modelled by the value function `Models.WithContent`.
- ClientConfig.WithConfigReplacesAll: `WithConfig` captures a `*Config` pointer and copies it when the option runs. Here the option carries the value it copies. A later change to the pointed-to Config, made between building and running the option, is not modelled.
- Legacy.Registry.LoadEnvIfNeeded: the registry is one object passed explicitly, not a package global.
- Go integer widths: `Code`, `Status`, `Seq`, `TopK`, `MaxTokens` and the token counts are unbounded integers. Nothing in the model computes with them.
- The example and demo programs, the tests and `models.go` are not modelled as operations. `models.go` only declares the types, which are the datatypes of `Models`.
