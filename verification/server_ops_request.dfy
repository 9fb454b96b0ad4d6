/**
  ServerOpsRequest: an outbound HTTP helper. It builds a request configuration
  whose parameter placement depends on the method, hands it to the transport
  (axios, here an arbitrary function from configuration to outcome), and turns
  every failure into a ServerOpsError.
 */
module OpsRequest {
  import opened Wrappers
  import opened Js
  import opened OpsError

  /** The destructured second argument `{url, params, headers, withCreds}`. */
  datatype Options = Options(url: Value, params: Value, headers: Value, withCreds: Value)

  /**
    Where the parameters travel. `FormBody(p)` is the request body
    `new URLSearchParams(p).toString()`; `QueryParams(p)` is the query string.
   */
  datatype Payload = FormBody(params: Value) | QueryParams(params: Value)

  /** The configuration object handed to the transport. */
  datatype RequestConfig = RequestConfig(
    withCredentials: bool,
    url: Value,
    verb: string,
    headers: Value,
    payload: Payload)

  /**
    What the transport call, or the code around it, ends in: a response
    body, an axios error with a response, an axios error with a request but
    no response, any other axios error, a non-axios error (given by its
    `message` property), or a ServerOpsError thrown in the try block.
   */
  datatype Outcome =
    | Resolved(data: Value)
    | AxiosResponseErr(status: Value, data: Value)
    | AxiosNoResponse(message: string)
    | AxiosOther(message: string)
    | NonAxios(thrownMessage: Value)
    | AlreadyServerOpsError(error: ServerOpsError)

  /** The two method names the helper supports, after lower-casing. */
  predicate IsPost(verb: string) {
    LowerAscii(verb) == "post"
  }

  predicate IsGet(verb: string) {
    LowerAscii(verb) == "get"
  }

  /** The 405 error raised for any other method. */
  function Unsupported(verb: string): (e: ServerOpsError)
    ensures e.statusCode == 405.0
    ensures e.message == Str("Unsupported HTTP Method \"" + verb + "\"")
  {
    New(Str("Unsupported HTTP Method \"" + verb + "\""), Num(Finite(405.0)))
  }

  /**
    The try block up to the transport call: the configuration for a get or
    post, or the 405 error for anything else.
   */
  function Prepare(verb: string, opts: Options): (r: Result<RequestConfig, ServerOpsError>)
    ensures r.Success? <==> IsGet(verb) || IsPost(verb)
    ensures r.Failure? ==> r.error == Unsupported(verb)
    ensures r.Success? ==>
      && r.value.withCredentials == (opts.withCreds == Bool(true))
      && r.value.url == opts.url
      && r.value.verb == verb
      && r.value.headers == (if IsNullish(opts.headers) then EmptyObject else opts.headers)
      && (r.value.payload.FormBody? <==> IsPost(verb))
      && r.value.payload.params == (if IsNullish(opts.params) then EmptyObject else opts.params)
  {
    var withCredentials := opts.withCreds == Bool(true);
    var headers := Coalesce(opts.headers, EmptyObject);
    var lowered := LowerAscii(verb);
    if lowered == "post" then
      Success(RequestConfig(withCredentials, opts.url, verb, headers, FormBody(Coalesce(opts.params, EmptyObject))))
    else if lowered == "get" then
      Success(RequestConfig(withCredentials, opts.url, verb, headers, QueryParams(Coalesce(opts.params, EmptyObject))))
    else
      Failure(Unsupported(verb))
  }

  /* ---------- the catch block ---------- */

  /** `err.message || fallback` for an axios error message. */
  function MessageOr(message: string, fallback: string): Value {
    Str(if message == "" then fallback else message)
  }

  /**
    The message taken from an error response: the `error.message` of the
    body when the body carries an `error` object, the raw body otherwise.
    A `null` or `undefined` body, or an `error` property holding `null`,
    counts as carrying no `error` object.
   */
  function ResponseMessage(data: Value): (m: Value)
    ensures data.Obj? && "error" in data.props && data.props["error"].Obj? ==>
      var err := data.props["error"].props;
      m == (if "message" in err then err["message"] else Undefined)
    ensures !data.Obj? || "error" !in data.props || IsNullish(data.props["error"]) ==> m == data
    ensures data.Obj? && "error" in data.props && !data.props["error"].Obj? && !IsNullish(data.props["error"]) ==>
      m == Undefined
  {
    match GetProp(data, "error")
    case None => data
    case Some(err) => if IsNullish(err) then data else GetProp(err, "message").value
  }

  /**
    The catch block: a resolved body is returned; every failure becomes a
    ServerOpsError, and a ServerOpsError is passed through unchanged.
   */
  function Classify(o: Outcome): (r: Result<Value, ServerOpsError>)
    ensures r.Success? <==> o.Resolved?
    ensures o.Resolved? ==> r.value == o.data
    ensures r.Failure? ==> Valid(r.error) || o.AlreadyServerOpsError?
    ensures o.AxiosResponseErr? ==>
      && r.error.statusCode == NormaliseStatusCode(o.status)
      && r.error.message == Coalesce(ResponseMessage(o.data), UnknownError)
    ensures o.AxiosNoResponse? ==>
      && r.error.statusCode == 400.0
      && r.error.message == MessageOr(o.message, "No response received")
    ensures o.AxiosOther? ==>
      && r.error.statusCode == 500.0
      && r.error.message == MessageOr(o.message, "Unknown Axios error")
    ensures o.NonAxios? ==>
      && r.error.statusCode == 500.0
      && r.error.message == Coalesce(o.thrownMessage, UnknownError)
    ensures o.AlreadyServerOpsError? ==> r.error == o.error
  {
    match o
    case Resolved(data) => Success(data)
    case AxiosResponseErr(status, data) => Failure(New(ResponseMessage(data), status))
    case AxiosNoResponse(message) => Failure(New(MessageOr(message, "No response received"), Num(Finite(400.0))))
    case AxiosOther(message) => Failure(New(MessageOr(message, "Unknown Axios error"), Num(Finite(500.0))))
    case NonAxios(message) => Failure(Init(message, Num(Finite(500.0))))
    case AlreadyServerOpsError(e) => Failure(e)
  }

  /**
    Re-throwing is idempotent: feeding any failure of the catch block back
    into it as a ServerOpsError gives the same failure.
   */
  lemma ClassifyIdempotent(o: Outcome)
    requires Classify(o).Failure?
    ensures Classify(AlreadyServerOpsError(Classify(o).error)) == Classify(o)
  {
  }

  /**
    `ServerOpsRequest.send(method, opts)` with the transport passed in. The
    transport is consulted only for get and post.
   */
  function Send(verb: string, opts: Options, transport: RequestConfig -> Outcome): (r: Result<Value, ServerOpsError>)
    ensures !IsGet(verb) && !IsPost(verb) ==> r == Failure(Unsupported(verb))
    ensures IsGet(verb) || IsPost(verb) ==> r == Classify(transport(Prepare(verb, opts).value))
  {
    match Prepare(verb, opts)
    case Failure(e) => Classify(AlreadyServerOpsError(e))
    case Success(config) => Classify(transport(config))
  }

  /** An unsupported method fails the same way whatever the transport would do. */
  lemma UnsupportedSkipsTransport(verb: string, opts: Options, t1: RequestConfig -> Outcome, t2: RequestConfig -> Outcome)
    requires !IsGet(verb) && !IsPost(verb)
    ensures Send(verb, opts, t1) == Send(verb, opts, t2)
    ensures Send(verb, opts, t1).error.statusCode == 405.0
  {
  }

  /** Every failure `send` reports carries a status code in [100, 599] and a message. */
  lemma SendFailuresValid(verb: string, opts: Options, transport: RequestConfig -> Outcome)
    requires forall c :: transport(c).AlreadyServerOpsError? ==> Valid(transport(c).error)
    ensures Send(verb, opts, transport).Failure? ==> Valid(Send(verb, opts, transport).error)
  {
  }

  /**
    `ServerOpsRequest.GET(opts)`: `send("get", opts)`, which always reaches the
    transport with the parameters in the query string.
   */
  function SendGet(opts: Options, transport: RequestConfig -> Outcome): (r: Result<Value, ServerOpsError>)
    ensures r == Send("get", opts, transport)
    ensures r == Classify(transport(RequestConfig(
      opts.withCreds == Bool(true), opts.url, "get",
      Coalesce(opts.headers, EmptyObject), QueryParams(Coalesce(opts.params, EmptyObject)))))
  {
    Send("get", opts, transport)
  }

  /**
    `ServerOpsRequest.POST(opts)`: `send("post", opts)`, which always reaches the
    transport with the form-encoded parameters in the body.
   */
  function SendPost(opts: Options, transport: RequestConfig -> Outcome): (r: Result<Value, ServerOpsError>)
    ensures r == Send("post", opts, transport)
    ensures r == Classify(transport(RequestConfig(
      opts.withCreds == Bool(true), opts.url, "post",
      Coalesce(opts.headers, EmptyObject), FormBody(Coalesce(opts.params, EmptyObject)))))
  {
    Send("post", opts, transport)
  }

  /* ---------- the catch block as written ---------- */

  /** How the promise returned by `send` can reject: with a ServerOpsError, or with a TypeError. */
  datatype Rejection = Raised(error: ServerOpsError) | EscapedTypeError

  /**
    The response-message extraction exactly as written: `data.error` is read
    unguarded, and so is `data.error.message` whenever `data.error !== undefined`.
    `None` is the TypeError either read throws.
   */
  function ResponseMessageAsWritten(data: Value): Option<Value> {
    match GetProp(data, "error")
    case None => None
    case Some(err) => if err != Undefined then GetProp(err, "message") else Some(data)
  }

  /** The catch block exactly as written. */
  function ClassifyAsWritten(o: Outcome): Result<Value, Rejection> {
    match o
    case AxiosResponseErr(status, data) =>
      (match ResponseMessageAsWritten(data)
       case None => Failure(EscapedTypeError)
       case Some(m) => Failure(Raised(New(m, status))))
    case _ => Classify(o).MapFailure(e => Raised(e))
  }

  /** The error responses on which the code as written throws a TypeError from inside its catch block. */
  predicate ReadsThroughNull(o: Outcome) {
    o.AxiosResponseErr? && (IsNullish(o.data) || (o.data.Obj? && "error" in o.data.props && o.data.props["error"] == Null))
  }

  /**
    The code as written agrees with the corrected catch block except on
    responses whose body is `null`/`undefined` or whose `error` is `null`,
    where a TypeError escapes instead of a ServerOpsError.
   */
  lemma AsWrittenAgreesElsewhere(o: Outcome)
    ensures ReadsThroughNull(o) <==> ClassifyAsWritten(o) == Failure(EscapedTypeError)
    ensures !ReadsThroughNull(o) ==> ClassifyAsWritten(o) == Classify(o).MapFailure(e => Raised(e))
  {
  }

  /** A concrete input: a 503 answer whose JSON body is `null` makes `send` reject with a TypeError. */
  lemma NullBodyEscapes()
    ensures ClassifyAsWritten(AxiosResponseErr(Num(Finite(503.0)), Null)) == Failure(EscapedTypeError)
    ensures Classify(AxiosResponseErr(Num(Finite(503.0)), Null)) == Failure(ServerOpsError(UnknownError, 503.0))
  {
  }
}
