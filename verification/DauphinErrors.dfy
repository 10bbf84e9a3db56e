/**
 * How GraphQL resolvers report errors: `UserFacingGraphQLError` carries a
 * schema error object to hand back to the client, and `capture_dauphin_error`
 * wraps a resolver so that whatever it raises becomes a returned error object.
 */
module DauphinErrors {
  import opened Wrappers
  import PyValue

  /** A schema error object: its class name and, if it has one, its `message` attribute. */
  datatype DauphinError = DauphinError(className: string, message: Option<string>)

  /** The serialisable information captured from an arbitrary Python exception;
      its contents are produced outside this model. */
  datatype ErrorInfo = ErrorInfo(className: string, message: string, stack: seq<string>)

  /** An exception carrying the schema error object to return, and its message. */
  datatype UserFacingGraphQLError = UserFacingGraphQLError(dauphinError: DauphinError, text: string)

  /** What a call can raise. `except Exception` does not catch the exceptions that
      derive only from `BaseException` (`KeyboardInterrupt`, `SystemExit`,
      `GeneratorExit`), named here by their class. */
  datatype Exception =
    | UserFacing(error: UserFacingGraphQLError)
    | OtherException(info: ErrorInfo)
    | BaseExceptionOnly(className: string)

  /** An exception `except Exception` catches. */
  predicate Catchable(e: Exception) {
    !e.BaseExceptionOnly?
  }

  /** What a resolver hands back to the GraphQL layer: data, a schema error
      object, or the schema's wrapper of a Python error. */
  datatype Reply =
    | Data(value: PyValue.Value)
    | DauphinErrorReply(error: DauphinError)
    | PythonError(info: ErrorInfo)

  /** A call either returns or raises. */
  datatype Outcome = Returned(reply: Reply) | Raised(exception: Exception)

  /** The text Python's `str.format` gives the `message` attribute: `None` when absent. */
  function MessageText(message: Option<string>): (text: string)
    ensures message.Some? ==> text == message.value
    ensures message.None? ==> text == "None"
  {
    match message
    case Some(m) => m
    case None => "None"
  }

  /** `UserFacingGraphQLError(dauphin_error)`: the message names the error's class
      in brackets, then its message. */
  function NewUserFacingGraphQLError(e: DauphinError): (r: UserFacingGraphQLError)
    ensures r.dauphinError == e
    ensures |r.text| == |e.className| + 3 + |MessageText(e.message)|
    ensures r.text[0] == '[' && r.text[|e.className| + 1..|e.className| + 3] == "] "
    ensures r.text[1..|e.className| + 1] == e.className
    ensures r.text[|e.className| + 3..] == MessageText(e.message)
  {
    UserFacingGraphQLError(e, "[" + e.className + "] " + MessageText(e.message))
  }

  /** The index of the first `]` in `s`, if any. */
  function FirstCloseBracket(s: string): (r: Option<nat>)
    ensures r.Some? ==> r.value < |s| && s[r.value] == ']' &&
                        forall i :: 0 <= i < r.value ==> s[i] != ']'
    ensures r.None? ==> forall i :: 0 <= i < |s| ==> s[i] != ']'
  {
    if |s| == 0 then None
    else if s[0] == ']' then Some(0)
    else match FirstCloseBracket(s[1..])
      case None => None
      case Some(k) => Some(k + 1)
  }

  /** Splits a `[Class] message` text into its class name and message. */
  function ParseUserFacingText(text: string): Option<(string, string)> {
    if |text| == 0 || text[0] != '[' then None
    else match FirstCloseBracket(text[1..])
      case None => None
      case Some(k) =>
        if k + 2 < |text| && text[k + 2] == ' ' then Some((text[1..k + 1], text[k + 3..])) else None
  }

  /** A class name never contains `]`, so the class name and the message text
      can be read back off the exception's message. */
  lemma UserFacingTextReadsBack(e: DauphinError)
    requires forall i :: 0 <= i < |e.className| ==> e.className[i] != ']'
    ensures ParseUserFacingText(NewUserFacingGraphQLError(e).text) == Some((e.className, MessageText(e.message)))
  {
    var text := NewUserFacingGraphQLError(e).text;
    var n := |e.className|;
    var k := FirstCloseBracket(text[1..]);
    assert text[1..][n] == ']';
    assert forall i :: 0 <= i < n ==> text[1..][i] == e.className[i];
    assert k == Some(n);
  }

  /** A missing `message` attribute and the message "None" are rendered alike. */
  lemma MissingMessageLooksLikeNone(className: string)
    ensures NewUserFacingGraphQLError(DauphinError(className, None)).text
         == NewUserFacingGraphQLError(DauphinError(className, Some("None"))).text
  {
  }

  /** One call of a function wrapped by `capture_dauphin_error`. */
  function CaptureCall(call: Outcome): (r: Outcome)
    ensures r.Returned? <==> call.Returned? || Catchable(call.exception)
    ensures call.Returned? ==> r == call
    ensures call.Raised? && call.exception.UserFacing? ==>
              r == Returned(DauphinErrorReply(call.exception.error.dauphinError))
    ensures call.Raised? && call.exception.OtherException? ==> r == Returned(PythonError(call.exception.info))
    ensures call.Raised? && !Catchable(call.exception) ==> r == call
  {
    match call
    case Returned(_) => call
    case Raised(UserFacing(error)) => Returned(DauphinErrorReply(error.dauphinError))
    case Raised(OtherException(info)) => Returned(PythonError(info))
    case Raised(BaseExceptionOnly(_)) => call
  }

  /** `capture_dauphin_error(fn)`: the wrapped resolver raises only what
      `except Exception` lets through, agrees with `fn` whenever `fn` returns,
      and turns every caught exception into an error reply. */
  function CaptureDauphinError<A(!new)>(fn: A -> Outcome): (wrapped: A -> Outcome)
    ensures forall a :: wrapped(a).Returned? <==> fn(a).Returned? || Catchable(fn(a).exception)
    ensures forall a :: fn(a).Returned? ==> wrapped(a) == fn(a)
    ensures forall a :: fn(a).Raised? && fn(a).exception.UserFacing? ==>
              wrapped(a) == Returned(DauphinErrorReply(fn(a).exception.error.dauphinError))
    ensures forall a :: fn(a).Raised? && fn(a).exception.OtherException? ==>
              wrapped(a) == Returned(PythonError(fn(a).exception.info))
    ensures forall a :: fn(a).Raised? && !Catchable(fn(a).exception) ==> wrapped(a) == fn(a)
  {
    a => CaptureCall(fn(a))
  }

  /** Wrapping an already wrapped resolver changes nothing. */
  lemma CaptureIdempotent(call: Outcome)
    ensures CaptureCall(CaptureCall(call)) == CaptureCall(call)
  {
  }

  /** Raising a `UserFacingGraphQLError` and returning its error object are the
      same to the client. */
  lemma RaisingIsReturning(e: DauphinError)
    ensures CaptureCall(Raised(UserFacing(NewUserFacingGraphQLError(e))))
         == CaptureCall(Returned(DauphinErrorReply(e)))
  {
  }
}
