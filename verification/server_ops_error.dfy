/**
  ServerOpsError: the one error type of the package. It carries a message and
  an HTTP status code, normalises the status code on construction, and knows
  how to answer a request, log itself and reject a promise with itself.
 */
module OpsError {
  import opened Wrappers
  import opened Js

  /**
    An error value. `message` is the constructor's message argument after the
    `?? "Unknown Error"` default; `statusCode` is the value the statusCode
    setter stored.
   */
  datatype ServerOpsError = ServerOpsError(message: Value, statusCode: real)

  const DefaultStatusCode: real := 500.0
  const UnknownError: Value := Str("Unknown Error")

  /** `typeof statusCode === 'number' && statusCode >= 100 && statusCode <= 599`. */
  predicate IsValidStatusCode(statusCode: Value) {
    statusCode.Num? && statusCode.n.Finite? && 100.0 <= statusCode.n.r <= 599.0
  }

  /** The invariant every constructed error keeps. */
  predicate Valid(e: ServerOpsError) {
    !IsNullish(e.message) && 100.0 <= e.statusCode <= 599.0
  }

  /**
    The statusCode setter: a number in [100, 599] is kept, anything else
    (NaN, the infinities, out-of-range numbers, non-numbers) becomes 500.
   */
  function NormaliseStatusCode(statusCode: Value): (r: real)
    ensures 100.0 <= r <= 599.0
    ensures IsValidStatusCode(statusCode) <==> statusCode == Num(Finite(r))
    ensures !IsValidStatusCode(statusCode) ==> r == DefaultStatusCode
  {
    if IsValidStatusCode(statusCode) then statusCode.n.r else DefaultStatusCode
  }

  /** `new ServerOpsError(message, statusCode)`. */
  function New(message: Value, statusCode: Value): (e: ServerOpsError)
    ensures Valid(e)
    ensures IsNullish(message) ==> e.message == UnknownError
    ensures !IsNullish(message) ==> e.message == message
    ensures IsValidStatusCode(statusCode) <==> statusCode == Num(Finite(e.statusCode))
    ensures !IsValidStatusCode(statusCode) ==> e.statusCode == DefaultStatusCode
  {
    ServerOpsError(Coalesce(message, UnknownError), NormaliseStatusCode(statusCode))
  }

  /** `ServerOpsError.init(message, statusCode)`: the static factory. */
  function Init(message: Value, statusCode: Value): (e: ServerOpsError)
    ensures e == New(message, statusCode)
    ensures Valid(e)
  {
    New(message, statusCode)
  }

  /**
    Normalisation is a projection: rebuilding a valid error from its own
    message and status code gives back the same error.
   */
  lemma RebuildValid(e: ServerOpsError)
    requires Valid(e)
    ensures New(e.message, Num(Finite(e.statusCode))) == e
  {
  }

  /** The status code of a constructed error is 500 exactly when it was not a valid one or was 500. */
  lemma StatusCodeKeptIff(message: Value, statusCode: Value)
    ensures New(message, statusCode).statusCode == DefaultStatusCode
      <==> (!IsValidStatusCode(statusCode) || statusCode == Num(Finite(DefaultStatusCode)))
  {
  }

  /* ---------- responses ---------- */

  /** A response body: JSON (`res.json`) or plain text (`res.send` with a string). */
  datatype Body = Json(v: Value) | Text(s: string)

  /** One response written to an Express response object: its status and its body. */
  datatype Response = Response(status: real, body: Body)

  /** The wire form `{"error": {"message": message}}`. */
  function ErrorBody(message: Value): Value {
    Obj(map["error" := Obj(map["message" := message])])
  }

  /**
    Reads a wire error body back: defined only on an object whose sole key is
    "error", holding an object whose sole key is "message".
   */
  function WireMessage(v: Value): Option<Value> {
    if v.Obj? && v.props.Keys == {"error"}
       && v.props["error"].Obj? && v.props["error"].props.Keys == {"message"}
    then Some(v.props["error"].props["message"])
    else None
  }

  /**
    `send(res)`: one response whose status is the error's status code and
    whose JSON body reads back, under the exact wire shape, as the message.
   */
  function Send(e: ServerOpsError): (r: Response)
    ensures r.status == e.statusCode
    ensures r.body.Json? && WireMessage(r.body.v) == Some(e.message)
  {
    Response(e.statusCode, Json(ErrorBody(e.message)))
  }

  /** The wire shape is exact: a body that reads back as `m` is `ErrorBody(m)` and nothing else. */
  lemma WireMessageExact(v: Value, m: Value)
    requires WireMessage(v) == Some(m)
    ensures v == ErrorBody(m)
  {
    var inner := v.props["error"];
    assert inner.props == map["message" := m];
    assert v.props == map["error" := inner];
  }

  /** Two errors give the same response exactly when they are equal. */
  lemma SendInjective(e1: ServerOpsError, e2: ServerOpsError)
    ensures Send(e1) == Send(e2) <==> e1 == e2
  {
    if Send(e1) == Send(e2) {
      assert WireMessage(Send(e1).body.v) == Some(e1.message);
      assert WireMessage(Send(e2).body.v) == Some(e2.message);
    }
  }

  /* ---------- log and reject ---------- */

  /** The structured argument a log callback receives. */
  datatype LogFields = LogFields(message: Value, statusCode: real, timestamp: string)

  /**
    What `log` prints: the default line `"<timestamp> | <statusCode> - <message>"`
    (held as its three parts), or whatever the callback returned.
   */
  datatype Printed = DefaultLine(timestamp: string, statusCode: real, message: Value) | CallbackLine(v: Value)

  /**
    `log(cb)` with the clock reading passed in. `cb` is `None` when the
    argument is not a function. The result pairs the returned error with
    the printed line.
   */
  function Log(e: ServerOpsError, timestamp: string, cb: Option<LogFields -> Value>): (r: (ServerOpsError, Printed))
    ensures r.0 == e
    ensures cb.None? ==> r.1 == DefaultLine(timestamp, e.statusCode, e.message)
    ensures cb.Some? ==> r.1 == CallbackLine(cb.value(LogFields(e.message, e.statusCode, timestamp)))
  {
    var printed :=
      match cb
      case None => DefaultLine(timestamp, e.statusCode, e.message)
      case Some(f) => CallbackLine(f(LogFields(e.message, e.statusCode, timestamp)));
    (e, printed)
  }

  /**
    The text the console shows for a printed line, where this model can say
    it: the default line with a non-negative integral code below 10^21
    (which JavaScript writes without an exponent) and a string
    message, or a callback result that is a string. The template literal
    converts other codes by JavaScript's number formatting and non-string
    messages by ToString, and `console.error` prints a non-string callback
    result through `util.inspect`; those cases are `None` here.
   */
  function Render(p: Printed): Option<string> {
    match p
    case DefaultLine(timestamp, code, message) =>
      if message.Str? && 0.0 <= code < 1000000000000000000000.0 && code == code.Floor as real
      then Some(timestamp + " | " + DecimalText(code.Floor) + " - " + message.s)
      else None
    case CallbackLine(v) => if v.Str? then Some(v.s) else None
  }

  /**
    The default log line of an error with an integral code and a string
    message is `"<timestamp> | <code> - <message>"`: it starts with the
    timestamp and the separator, parseInt reads the status code back from
    what follows, and it ends with the separator and the message.
   */
  lemma DefaultLogLineReadsBack(e: ServerOpsError, timestamp: string)
    requires Valid(e) && e.message.Str? && e.statusCode == e.statusCode.Floor as real
    ensures var text := Render(Log(e, timestamp, None).1);
      && text.Some?
      && |text.value| >= |timestamp| + 3
      && text.value[..|timestamp| + 3] == timestamp + " | "
      && ParseIntDecimal(text.value[|timestamp| + 3..]) == Some(e.statusCode.Floor)
      && text.value[|text.value| - |e.message.s| - 3..] == " - " + e.message.s
  {
    var code: nat := e.statusCode.Floor;
    var digits := DecimalText(code);
    var tail := " - " + e.message.s;
    var text := timestamp + " | " + digits + tail;
    assert Render(Log(e, timestamp, None).1) == Some(text) by {
      assert timestamp + " | " + digits + " - " + e.message.s == text;
    }
    assert text[|timestamp| + 3..] == digits + tail;
    assert text[..|timestamp| + 3] == timestamp + " | ";
    assert text[|text| - |tail|..] == tail;
    ParseIntOfDecimal(code, false, tail);
    assert (if false then "-" else "") + digits + tail == digits + tail;
  }

  /** `e.log().send(res)` answers exactly as `e.send(res)` does. */
  lemma LogThenSend(e: ServerOpsError, timestamp: string, cb: Option<LogFields -> Value>)
    ensures Send(Log(e, timestamp, cb).0) == Send(e)
    ensures Valid(e) ==> Valid(Log(e, timestamp, cb).0)
  {
  }

  /**
    `reject(f)`: the sequence of calls made to `f`. It is called once, with
    the error itself, so the rejection reason carries the same message and
    status code.
   */
  function Reject(e: ServerOpsError): (calls: seq<ServerOpsError>)
    ensures |calls| == 1
    ensures forall i :: 0 <= i < |calls| ==> calls[i] == e
  {
    [e]
  }
}
