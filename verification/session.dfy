/** The read loops of the structured client (client.go), as pure functions of
    the sequence of loop iterations: what `Chat` returns, what
    `ChatWithCallback` delivers and returns, and what the single read of
    `Embedding` yields. The methods of Client.SparkClient are proved equal to
    these; the lemmas here say what they mean. */
module Session {
  import opened Wrappers
  import opened Errors
  import opened Models
  import opened Transport

  type ChatStep = Step<APIResponse>

  /** An iteration after which the chat loop reads again: no cancellation, a
      frame decoded, code 0 and a status other than 2. */
  predicate Continues(s: ChatStep)
  {
    s.Read? && s.received.Frame? && IsGood(s.received.resp) && !IsTerminal(s.received.resp)
  }

  /** The error an iteration ends the call with; None exactly for an
      iteration that decoded a good frame. */
  function StepError(s: ChatStep): (e: Option<SparkError>)
    ensures e.None? <==> s.Read? && s.received.Frame? && IsGood(s.received.resp)
    ensures s.Cancelled? ==> e == Some(NewRequestError("request cancelled", Some(s.cause)))
    ensures s.Read? && s.received.ReadErr? ==>
              e == Some(NewWebSocketError("failed to read message", Some(s.received.cause)))
    ensures s.Read? && s.received.ParseErr? ==>
              e == Some(NewResponseError("failed to parse response", Some(s.received.cause)))
    ensures s.Read? && s.received.Frame? && !IsGood(s.received.resp) ==>
              e == Some(NewResponseError(s.received.resp.header.message, None))
  {
    match s
    case Cancelled(c) => Some(NewRequestError("request cancelled", Some(c)))
    case Read(ReadErr(c)) => Some(NewWebSocketError("failed to read message", Some(c)))
    case Read(ParseErr(c)) => Some(NewResponseError("failed to parse response", Some(c)))
    case Read(Frame(r)) =>
      if r.header.code != 0 then Some(NewResponseError(r.header.message, None)) else None
  }

  /** The frames decoded in `steps`, in arrival order. */
  function Responses(steps: seq<ChatStep>): (rs: seq<APIResponse>)
    ensures |rs| <= |steps|
  {
    if steps == [] then []
    else
      var last := steps[|steps| - 1];
      Responses(steps[..|steps| - 1]) +
      (if last.Read? && last.received.Frame? then [last.received.resp] else [])
  }

  /** Each frame as one successful read. */
  function AsSteps(frames: seq<APIResponse>): (steps: seq<ChatStep>)
    ensures |steps| == |frames|
    ensures forall i :: 0 <= i < |frames| ==> steps[i] == Read(Frame(frames[i]))
  {
    seq(|frames|, i requires 0 <= i < |frames| => Read(Frame(frames[i])))
  }

  lemma {:induction false} ResponsesOfFrames(frames: seq<APIResponse>)
    ensures Responses(AsSteps(frames)) == frames
    decreases |frames|
  {
    if frames != [] {
      var n := |frames|;
      assert AsSteps(frames)[..n - 1] == AsSteps(frames[..n - 1]);
      ResponsesOfFrames(frames[..n - 1]);
      assert frames == frames[..n - 1] + [frames[n - 1]];
    }
  }

  /** Frames that keep a stream going: each good and not terminal. */
  predicate Streaming(frames: seq<APIResponse>)
  {
    forall i :: 0 <= i < |frames| ==> IsGood(frames[i]) && !IsTerminal(frames[i])
  }

  /** `Chat` after a successful dial and write: the loop over `steps` (starting
      with an empty answer). The loop runs to the first iteration that does
      not continue; that iteration's error is the call's error, and a good
      terminal frame is returned with its first choice's content replaced by
      every fragment read, its own included. */
  function ChatSession(steps: seq<ChatStep>): (o: Outcome<APIResponse, SparkError>)
    ensures o.Pending? <==> forall i :: 0 <= i < |steps| ==> Continues(steps[i])
    ensures o.Returned? ==> IsGood(o.value) && IsTerminal(o.value)
    ensures o.Failed? ==> exists i :: 0 <= i < |steps| && StepError(steps[i]) == Some(o.error)
  {
    ChatStoppedAt(steps, FirstStop(steps, Continues))
  }

  /** `Chat`'s outcome when iteration `k` is the first that does not continue
      (`k == |steps|`: none of them). */
  function ChatStoppedAt(steps: seq<ChatStep>, k: nat): Outcome<APIResponse, SparkError>
    requires k <= |steps|
  {
    if k == |steps| then Pending
    else match StepError(steps[k])
      case Some(e) => Failed(e)
      case None => Returned(WithContent(steps[k].received.resp, Answer(Responses(steps[..k + 1]))))
  }

  /** `ChatWithCallback` after a successful dial and write: the frames handed
      to the callback, in order (none when the callback is nil), and the
      error returned. Every good frame read is handed over before its status
      is looked at, so the terminal frame is handed over too. */
  function CallbackSession(steps: seq<ChatStep>, callback: bool): (r: (seq<APIResponse>, Outcome<(), SparkError>))
    ensures r.1.Pending? <==> forall i :: 0 <= i < |steps| ==> Continues(steps[i])
    ensures r.1.Failed? ==> exists i :: 0 <= i < |steps| && StepError(steps[i]) == Some(r.1.error)
    ensures !callback ==> r.0 == []
  {
    CallbackStoppedAt(steps, FirstStop(steps, Continues), callback)
  }

  /** `ChatWithCallback`'s delivered frames and outcome when iteration `k` is
      the first that does not continue. */
  function CallbackStoppedAt(steps: seq<ChatStep>, k: nat, callback: bool): (seq<APIResponse>, Outcome<(), SparkError>)
    requires k <= |steps|
  {
    var handled := if k < |steps| && StepError(steps[k]).None? then steps[..k + 1] else steps[..k];
    (if callback then Responses(handled) else [],
     if k == |steps| then Pending
     else match StepError(steps[k])
       case Some(e) => Failed(e)
       case None => Returned(()))
  }

  /** A decoded frame at iteration `i` is the next response, and its
      fragment extends the answer. */
  lemma ResponsesStep(steps: seq<ChatStep>, i: nat)
    requires i < |steps| && steps[i].Read? && steps[i].received.Frame?
    ensures Responses(steps[..i + 1]) == Responses(steps[..i]) + [steps[i].received.resp]
    ensures Answer(Responses(steps[..i + 1])) == Answer(Responses(steps[..i])) + Fragment(steps[i].received.resp)
  {
    assert steps[..i + 1][..i] == steps[..i];
    var rs := Responses(steps[..i]);
    var r := steps[i].received.resp;
    assert (rs + [r])[..|rs|] == rs;
  }

  /** The chat loop run forward from iteration `i` with `answer`
      accumulated so far: the shape of the loop itself, one iteration per
      call. */
  function ChatFrom(steps: seq<ChatStep>, i: nat, answer: string): Outcome<APIResponse, SparkError>
    requires i <= |steps|
    decreases |steps| - i
  {
    if i == |steps| then Pending
    else match StepError(steps[i])
      case Some(e) => Failed(e)
      case None =>
        var r := steps[i].received.resp;
        if IsTerminal(r) then Returned(WithContent(r, answer + Fragment(r)))
        else ChatFrom(steps, i + 1, answer + Fragment(r))
  }

  /** The callback loop run forward from iteration `i` with `delivered`
      handed over so far. */
  function CallbackFrom(steps: seq<ChatStep>, i: nat, delivered: seq<APIResponse>, callback: bool)
    : (seq<APIResponse>, Outcome<(), SparkError>)
    requires i <= |steps|
    decreases |steps| - i
  {
    if i == |steps| then (delivered, Pending)
    else match StepError(steps[i])
      case Some(e) => (delivered, Failed(e))
      case None =>
        var r := steps[i].received.resp;
        var delivered' := if callback then delivered + [r] else delivered;
        if IsTerminal(r) then (delivered', Returned(()))
        else CallbackFrom(steps, i + 1, delivered', callback)
  }

  /** Step `i` is the first that does not continue: it decides `Chat`. */
  lemma ChatStopsAt(steps: seq<ChatStep>, i: nat)
    requires i < |steps| && FirstStop(steps, Continues) == i
    ensures StepError(steps[i]).Some? ==> ChatSession(steps) == Failed(StepError(steps[i]).value)
    ensures StepError(steps[i]).None? ==>
              ChatSession(steps) == Returned(WithContent(steps[i].received.resp, Answer(Responses(steps[..i + 1]))))
  {
  }

  /** Step `i` is the first that does not continue: it decides
      `ChatWithCallback`. */
  lemma CallbackStopsAt(steps: seq<ChatStep>, i: nat, callback: bool)
    requires i < |steps| && FirstStop(steps, Continues) == i
    ensures StepError(steps[i]).Some? ==>
              CallbackSession(steps, callback) ==
              (if callback then Responses(steps[..i]) else [], Failed(StepError(steps[i]).value))
    ensures StepError(steps[i]).None? ==>
              CallbackSession(steps, callback) == (if callback then Responses(steps[..i + 1]) else [], Returned(()))
  {
  }

  /** Run forward from any iteration the loop reaches, with the answer of
      the frames read before it, the chat loop ends as ChatSession says. */
  lemma {:induction false} ChatFromIsSession(steps: seq<ChatStep>, i: nat)
    requires i <= FirstStop(steps, Continues)
    ensures ChatFrom(steps, i, Answer(Responses(steps[..i]))) == ChatSession(steps)
    decreases |steps| - i
  {
    if i < |steps| {
      if steps[i].Read? && steps[i].received.Frame? {
        ResponsesStep(steps, i);
      }
      if Continues(steps[i]) {
        GoesOnPast(steps, Continues, i);
        ChatFromIsSession(steps, i + 1);
      } else {
        StopsFirstAt(steps, Continues, i);
        ChatStopsAt(steps, i);
      }
    }
  }

  /** Run forward from any iteration the loop reaches, with the frames read
      before it already handed over, the callback loop delivers and ends as
      CallbackSession says. */
  lemma {:induction false} CallbackFromIsSession(steps: seq<ChatStep>, i: nat, callback: bool)
    requires i <= FirstStop(steps, Continues)
    ensures CallbackFrom(steps, i, if callback then Responses(steps[..i]) else [], callback) ==
            CallbackSession(steps, callback)
    decreases |steps| - i
  {
    if i < |steps| {
      if steps[i].Read? && steps[i].received.Frame? {
        ResponsesStep(steps, i);
      }
      if Continues(steps[i]) {
        GoesOnPast(steps, Continues, i);
        CallbackFromIsSession(steps, i + 1, callback);
      } else {
        StopsFirstAt(steps, Continues, i);
        CallbackStopsAt(steps, i, callback);
      }
    }
  }

  /** Where the loop stands once `frames` have streamed in and `s` comes next:
      the iteration `s` decides the call, and what follows it is never read. */
  lemma {:induction false} ChatAfterStreaming(frames: seq<APIResponse>, s: ChatStep, rest: seq<ChatStep>)
    requires Streaming(frames)
    requires !Continues(s)
    ensures var steps := AsSteps(frames) + [s] + rest;
      && FirstStop(steps, Continues) == |frames|
      && Responses(steps[..|frames| + 1]) ==
           frames + (if s.Read? && s.received.Frame? then [s.received.resp] else [])
  {
    var steps := AsSteps(frames) + [s] + rest;
    var n := |frames|;
    forall j | 0 <= j < n ensures Continues(steps[j]) {
      assert steps[j] == Read(Frame(frames[j]));
    }
    FirstStopAt(steps, Continues, n);
    assert steps[..n + 1][..n] == AsSteps(frames);
    ResponsesOfFrames(frames);
  }

  /** The aggregate: when every frame is good and the stream ends with a
      terminal frame, `Chat` returns that terminal frame with its first
      choice's content set to the in-order concatenation of the fragments of
      all the frames (frames without a choice adding nothing); a terminal
      frame without a choice comes back unchanged. Frames after it are never
      read. */
  lemma {:induction false} ChatReturnsAggregate(frames: seq<APIResponse>, last: APIResponse, rest: seq<ChatStep>)
    requires Streaming(frames)
    requires IsGood(last) && IsTerminal(last)
    ensures ChatSession(AsSteps(frames) + [Read(Frame(last))] + rest) ==
            Returned(WithContent(last, Answer(frames) + Fragment(last)))
  {
    ChatAfterStreaming(frames, Read(Frame(last)), rest);
    AnswerAppend(frames, [last]);
    assert Answer([last]) == Fragment(last) by {
      assert [last][..0] == [];
    }
  }

  /** A frame with a non-zero code aborts `Chat` wherever it comes and
      whatever its status: no result, a ResponseError whose message is
      exactly the frame's header message and whose cause is nil. */
  lemma {:induction false} ChatAbortsOnErrorFrame(frames: seq<APIResponse>, bad: APIResponse, rest: seq<ChatStep>)
    requires Streaming(frames)
    requires !IsGood(bad)
    ensures ChatSession(AsSteps(frames) + [Read(Frame(bad))] + rest) ==
            Failed(SparkError(ResponseError, bad.header.message, None))
  {
    ChatAfterStreaming(frames, Read(Frame(bad)), rest);
  }

  /** A cancellation, a read failure or an undecodable frame ends `Chat` with
      a RequestError, a WebSocketError or a ResponseError that wraps the
      failure's own cause. */
  lemma {:induction false} ChatFailureKinds(frames: seq<APIResponse>, s: ChatStep, rest: seq<ChatStep>)
    requires Streaming(frames)
    requires !(s.Read? && s.received.Frame?)
    ensures var o := ChatSession(AsSteps(frames) + [s] + rest);
      && (s.Cancelled? ==> o == Failed(SparkError(RequestError, "request cancelled", Some(s.cause))))
      && (s.Read? && s.received.ReadErr? ==>
            o == Failed(SparkError(WebSocketError, "failed to read message", Some(s.received.cause))))
      && (s.Read? && s.received.ParseErr? ==>
            o == Failed(SparkError(ResponseError, "failed to parse response", Some(s.received.cause))))
  {
    ChatAfterStreaming(frames, s, rest);
  }

  /** A stream that never ends (every frame good, none terminal) leaves the
      call waiting for more. */
  lemma {:induction false} ChatPendingWhileStreaming(frames: seq<APIResponse>)
    requires Streaming(frames)
    ensures ChatSession(AsSteps(frames)) == Pending
  {
    FirstStopAt(AsSteps(frames), Continues, |frames|);
  }

  /** `ChatWithCallback` hands every good frame to the callback exactly once,
      unmodified (each with only its own fragment), in arrival order, the
      terminal frame included, and then returns nil. */
  lemma {:induction false} CallbackDeliversEveryFrame(frames: seq<APIResponse>, last: APIResponse, rest: seq<ChatStep>)
    requires Streaming(frames)
    requires IsGood(last) && IsTerminal(last)
    ensures CallbackSession(AsSteps(frames) + [Read(Frame(last))] + rest, true) == (frames + [last], Returned(()))
  {
    ChatAfterStreaming(frames, Read(Frame(last)), rest);
  }

  /** When an iteration fails, the callback has seen exactly the frames before
      it (an error frame is never handed over), and the call returns the same
      error `Chat` would. */
  lemma {:induction false} CallbackStopsAtFailure(frames: seq<APIResponse>, s: ChatStep, rest: seq<ChatStep>)
    requires Streaming(frames)
    requires StepError(s).Some?
    ensures var steps := AsSteps(frames) + [s] + rest;
      CallbackSession(steps, true) == (frames, Failed(StepError(s).value)) &&
      ChatSession(steps) == Failed(StepError(s).value)
  {
    var steps := AsSteps(frames) + [s] + rest;
    ChatAfterStreaming(frames, s, rest);
    ResponsesOfFrames(frames);
    assert steps[..|frames|] == AsSteps(frames);
  }

  /** The two call modes agree on every input: they end the same way and
      with the same error, and what `Chat` returns is the last frame handed
      to the callback with its content replaced by the concatenation of the
      fragments the callback was handed. */
  lemma {:induction false} ChatAgreesWithCallback(steps: seq<ChatStep>)
    ensures var (delivered, o) := CallbackSession(steps, true);
      && (ChatSession(steps).Pending? <==> o.Pending?)
      && (ChatSession(steps).Failed? <==> o.Failed?)
      && (o.Failed? ==> ChatSession(steps).error == o.error)
      && (o.Returned? ==>
            |delivered| > 0 &&
            ChatSession(steps) == Returned(WithContent(delivered[|delivered| - 1], Answer(delivered))))
  {
    var k := FirstStop(steps, Continues);
    if k < |steps| && StepError(steps[k]).None? {
      var handled := steps[..k + 1];
      assert handled[..k] == steps[..k];
      assert handled[k] == steps[k];
    }
  }

  /** The single read of `Embedding`: a read failure, an undecodable frame and
      a frame with a non-zero code each give their error; a good frame is
      returned as decoded. Nothing after the first read is consulted. */
  function EmbeddingRead(inbound: seq<Received<EmbResponse>>): (o: Outcome<EmbResponse, SparkError>)
    ensures inbound == [] <==> o.Pending?
    ensures inbound != [] && inbound[0].Frame? && inbound[0].resp.header.code == 0 ==>
              o == Returned(inbound[0].resp)
    ensures inbound != [] && inbound[0].Frame? && inbound[0].resp.header.code != 0 ==>
              o == Failed(SparkError(ResponseError, inbound[0].resp.header.message, None))
    ensures inbound != [] && inbound[0].ReadErr? ==>
              o == Failed(SparkError(WebSocketError, "failed to read message", Some(inbound[0].cause)))
    ensures inbound != [] && inbound[0].ParseErr? ==>
              o == Failed(SparkError(ResponseError, "failed to parse response", Some(inbound[0].cause)))
  {
    if inbound == [] then Pending
    else match inbound[0]
      case ReadErr(c) => Failed(NewWebSocketError("failed to read message", Some(c)))
      case ParseErr(c) => Failed(NewResponseError("failed to parse response", Some(c)))
      case Frame(r) =>
        if r.header.code != 0 then Failed(NewResponseError(r.header.message, None)) else Returned(r)
  }
}
