/** The error taxonomy of the client (errors.go): six error categories, an
    error value that carries a category, a message and an optional underlying
    cause, and the text its Error() method renders. */
module Errors {
  import opened Wrappers

  /** The six ErrorType constants. */
  datatype ErrorType =
    | ConfigurationError
    | ConnectionError
    | AuthenticationError
    | RequestError
    | ResponseError
    | WebSocketError

  /** The string value of each ErrorType constant: a non-empty name
      without the ':' that Error() puts after it. */
  function TypeName(t: ErrorType): (n: string)
    ensures n != [] && ':' !in n
  {
    match t
    case ConfigurationError => "ConfigurationError"
    case ConnectionError => "ConnectionError"
    case AuthenticationError => "AuthenticationError"
    case RequestError => "RequestError"
    case ResponseError => "ResponseError"
    case WebSocketError => "WebSocketError"
  }

  /** The category whose string value is `name`, if there is one. */
  function TypeNamed(name: string): (t: Option<ErrorType>)
    ensures t.Some? ==> TypeName(t.value) == name
  {
    if name == "ConfigurationError" then Some(ConfigurationError)
    else if name == "ConnectionError" then Some(ConnectionError)
    else if name == "AuthenticationError" then Some(AuthenticationError)
    else if name == "RequestError" then Some(RequestError)
    else if name == "ResponseError" then Some(ResponseError)
    else if name == "WebSocketError" then Some(WebSocketError)
    else None
  }

  /** Every category has its own name: the names are pairwise distinct
      strings, because the name determines the category. */
  lemma TypeNamesDistinct(t: ErrorType, u: ErrorType)
    ensures TypeNamed(TypeName(t)) == Some(t)
    ensures TypeName(t) == TypeName(u) ==> t == u
  {
    match t
    case ConfigurationError =>
    case ConnectionError =>
    case AuthenticationError =>
    case RequestError =>
    case ResponseError =>
    case WebSocketError =>
  }

  /** A Go `error` that a SparkError may wrap: either a plain error with its
      own text (errors.New, a transport or decoding failure, a context
      cancellation) or another SparkError. */
  datatype Cause = Plain(text: string) | Spark(inner: SparkError)

  /** The SparkError struct: category, message and the wrapped error (None for nil). */
  datatype SparkError = SparkError(kind: ErrorType, message: string, err: Option<Cause>)

  /** The part every rendering of `e` starts with: "<Type>: <Message>". */
  function Head(e: SparkError): string
  {
    TypeName(e.kind) + ": " + e.message
  }

  /** Error(): "<Type>: <Message>" when there is no cause, and
      "<Type>: <Message> (underlying: <cause's text>)" otherwise. */
  function ErrorText(e: SparkError): (s: string)
    ensures Head(e) <= s
    ensures e.err.None? ==> s == Head(e)
    ensures e.err.Some? ==> s == Head(e) + " (underlying: " + CauseText(e.err.value) + ")"
    decreases e, 1
  {
    match e.err
    case None => Head(e)
    case Some(c) => Head(e) + " (underlying: " + CauseText(c) + ")"
  }

  /** The text `%v` prints for a wrapped error. */
  function CauseText(c: Cause): string
    decreases c, 0
  {
    match c
    case Plain(text) => text
    case Spark(inner) => ErrorText(inner)
  }

  /** Unwrap(): the stored cause, nil included. */
  function Unwrap(e: SparkError): (c: Option<Cause>)
    ensures c.Some? <==> e.err.Some?
    ensures c.Some? ==> c.value == e.err.value
  {
    e.err
  }

  /** NewSparkError. */
  function NewSparkError(kind: ErrorType, message: string, err: Option<Cause>): (e: SparkError)
    ensures e.kind == kind && e.message == message && Unwrap(e) == err
  {
    SparkError(kind, message, err)
  }

  function NewConfigError(message: string, err: Option<Cause>): (e: SparkError)
    ensures e.kind == ConfigurationError && e.message == message && Unwrap(e) == err
  {
    NewSparkError(ConfigurationError, message, err)
  }

  function NewConnectionError(message: string, err: Option<Cause>): (e: SparkError)
    ensures e.kind == ConnectionError && e.message == message && Unwrap(e) == err
  {
    NewSparkError(ConnectionError, message, err)
  }

  function NewAuthError(message: string, err: Option<Cause>): (e: SparkError)
    ensures e.kind == AuthenticationError && e.message == message && Unwrap(e) == err
  {
    NewSparkError(AuthenticationError, message, err)
  }

  function NewRequestError(message: string, err: Option<Cause>): (e: SparkError)
    ensures e.kind == RequestError && e.message == message && Unwrap(e) == err
  {
    NewSparkError(RequestError, message, err)
  }

  function NewResponseError(message: string, err: Option<Cause>): (e: SparkError)
    ensures e.kind == ResponseError && e.message == message && Unwrap(e) == err
  {
    NewSparkError(ResponseError, message, err)
  }

  function NewWebSocketError(message: string, err: Option<Cause>): (e: SparkError)
    ensures e.kind == WebSocketError && e.message == message && Unwrap(e) == err
  {
    NewSparkError(WebSocketError, message, err)
  }

  /** The text of `s` up to (not including) its first ':'; all of `s` when it
      has none. */
  function BeforeColon(s: string): (p: string)
    ensures p <= s
    ensures ':' !in p
    ensures |p| < |s| ==> s[|p|] == ':'
  {
    if s == [] || s[0] == ':' then [] else [s[0]] + BeforeColon(s[1..])
  }

  lemma {:induction false} BeforeColonOf(name: string, rest: string)
    requires ':' !in name
    ensures BeforeColon(name + ":" + rest) == name
  {
    if name != [] {
      assert (name + ":" + rest)[1..] == name[1..] + ":" + rest;
      BeforeColonOf(name[1..], rest);
    }
  }

  /** The category of an error can be read back from its rendered text: the
      text before the first ':' of Error() is the category's name, whatever
      the message and the cause. */
  lemma {:induction false} CategoryRecoverable(e: SparkError)
    ensures TypeNamed(BeforeColon(ErrorText(e))) == Some(e.kind)
  {
    var name := TypeName(e.kind);
    var rest := ErrorText(e)[|name| + 1..];
    assert ErrorText(e) == name + ":" + rest;
    BeforeColonOf(name, rest);
    TypeNamesDistinct(e.kind, e.kind);
  }
}
