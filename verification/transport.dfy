/** What the WebSocket connection hands to a call, as data: the outcome of the
    dial, of the single request write, and of each read in arrival order. The
    transport itself is not modelled; a call is a deterministic function of
    these outcomes. */
module Transport {
  import opened Wrappers
  import opened Errors

  /** One `ReadMessage` followed by `json.Unmarshal`: a decoded frame, a read
      failure, or bytes that did not decode. */
  datatype Received<T> = Frame(resp: T) | ReadErr(cause: Cause) | ParseErr(cause: Cause)

  /** One iteration of a read loop that first polls its context: the context
      was already done (with cause `ctx.Err()`), or a read happened. */
  datatype Step<T> = Cancelled(cause: Cause) | Read(received: Received<T>)

  /** The connection as one call sees it: `dial` and `write` hold the error of
      the dial and of the request write (None on success); `inbound` holds the
      outcomes of the loop's iterations, in order. */
  datatype Link<T> = Link(dial: Option<Cause>, write: Option<Cause>, inbound: seq<T>)

  /** How a call ends: it returns a value, it returns an error, or the reads
      ran out before it returned (the real call would still be blocked in a
      read). */
  datatype Outcome<T, E> = Returned(value: T) | Failed(error: E) | Pending

  /** The index of the first element of `s` after which a loop would not go
      on; |s| when it would go on after every element. */
  function FirstStop<T>(s: seq<T>, goesOn: T -> bool): (k: nat)
    ensures k <= |s|
    ensures forall j :: 0 <= j < k ==> goesOn(s[j])
    ensures k < |s| ==> !goesOn(s[k])
  {
    if s == [] || !goesOn(s[0]) then 0 else 1 + FirstStop(s[1..], goesOn)
  }

  /** FirstStop is the unique index with those two properties. */
  lemma FirstStopAt<T>(s: seq<T>, goesOn: T -> bool, k: nat)
    requires k <= |s|
    requires forall j :: 0 <= j < k ==> goesOn(s[j])
    requires k < |s| ==> !goesOn(s[k])
    ensures FirstStop(s, goesOn) == k
  {
  }

  /** A loop known to have gone on past the first `i` elements stops at
      element `i` when that one does not go on. */
  lemma StopsFirstAt<T>(s: seq<T>, goesOn: T -> bool, i: nat)
    requires i < |s| && i <= FirstStop(s, goesOn) && !goesOn(s[i])
    ensures FirstStop(s, goesOn) == i
  {
  }

  /** A loop that has gone on past the first `i` elements and goes on past
      element `i` has gone on past the first `i + 1`. */
  lemma GoesOnPast<T>(s: seq<T>, goesOn: T -> bool, i: nat)
    requires i < |s| && i <= FirstStop(s, goesOn) && goesOn(s[i])
    ensures i + 1 <= FirstStop(s, goesOn)
  {
  }
}
