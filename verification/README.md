# server-ops, modelled in Dafny

A model of the three pieces of logic the `server-ops` package owns itself:

- **ServerOpsError** (module `OpsError`): an error value carrying a message and
  an HTTP status code. Construction normalises the status code: a number in
  [100, 599] is kept and anything else becomes 500. A `null`/`undefined`
  message becomes `"Unknown Error"`. The error can answer a request with
  `{"error":{"message": …}}`, log itself and return itself, and reject a
  promise with itself.
- **ServerOpsRequest** (module `OpsRequest`): the outbound-request helper. It
  builds the axios configuration, placing the parameters according to the
  lower-cased method (form body for post, query string for get, 405 for
  anything else). It then classifies every failure into a ServerOpsError. The
  transport is a function parameter from configuration to an abstract
  `Outcome`.
- **ServerOps** (module `Ops`): the chainable route builder. It holds an ordered
  sequence of deferred `Action`s (route bindings for get/post/put/delete and
  middleware with an optional prefix), concatenated by `Chain`. `Launch`
  folds them, in order, onto the Express app. The app is modelled as the
  ordered log of its `Registration`s. `Launch` then adds the 404 catch-all and
  the error catch-all, and listens on the port. The route wrapper and the
  error catch-all are modelled with the handler's behaviour as an abstract
  `HandlerOutcome`. The builder the handler runs against is an explicit
  parameter.

Supporting modules:

- `Js` gives the JavaScript semantics the code relies on: values, `??`,
  truthiness, property reads that throw on `null`/`undefined`, the method-name
  lower-casing, and `parseInt(…, 10)`.
- `Wrappers` gives `Option` and `Result`.
- `Propagation` connects request failures to route answers.

The port setter computes `parseInt(port ?? 3000, 10)`, so only
`null`/`undefined` fall back to 3000; a string with no digits after optional leading white space and sign gives NaN
(`Ops.PortNaN`). `OpsRequest.Send` follows the corrected catch block
`OpsRequest.Classify`; the catch block as the code writes it, which lets a
TypeError escape on a `null` response body, is `OpsRequest.ClassifyAsWritten`
(see "## Findings").

## Model

| member | source | states |
|---|---|---|
| `OpsError.NormaliseStatusCode` | src/ServerOpsError/index.js:29-41 | the stored code always lies in [100, 599]; it equals the argument exactly when the argument is a finite number in [100, 599], and is 500 for anything else (NaN, infinities, non-numbers) |
| `OpsError.New` | src/ServerOpsError/index.js:13-16 | every constructed error is `Valid`: its message is never nullish and its code is in [100, 599]; a nullish message becomes "Unknown Error", any other (including "") is kept; the code is kept iff valid, else 500 |
| `OpsError.RebuildValid` | src/ServerOpsError/index.js:29-41 | normalisation is a projection: rebuilding a valid error from its own message and code gives the same error |
| `OpsError.StatusCodeKeptIff` | src/ServerOpsError/index.js:29-41 | a constructed error has code 500 exactly when the argument was invalid or was 500 itself |
| `OpsError.Init` | src/ServerOpsError/index.js:85-87 | `init(m, s)` is the same error as `new ServerOpsError(m, s)` |
| `OpsError.Send` | src/ServerOpsError/index.js:56-60 | the single response has the error's status code, and its JSON body has the exact wire shape `{"error":{"message": m}}` and reads back as the message |
| `OpsError.WireMessageExact` | src/ServerOpsError/index.js:56-60 | any body that reads back as message `m` under the wire shape is exactly `{"error":{"message": m}}`, with no other keys |
| `OpsError.SendInjective` | src/ServerOpsError/index.js:56-60 | two errors produce the same response if and only if they are equal |
| `OpsError.Log` | src/ServerOpsError/index.js:70-76 | returns the same error; without a function callback it prints the default line built from timestamp, code and message; with one it prints the callback's result on `{message, statusCode, timestamp}` |
| `OpsError.LogThenSend` | src/ServerOpsError/index.js:70-76 | `e.log().send(res)` answers exactly as `e.send(res)` and keeps the error valid |
| `OpsError.DefaultLogLineReadsBack` | src/ServerOpsError/index.js:71-73 | for an integral code and a string message the default line is `"<timestamp> \| <code> - <message>"`: it starts with the timestamp and `" \| "`, parseInt reads the status code back from what follows, and it ends with `" - "` and the message |
| `OpsError.Reject` | src/ServerOpsError/index.js:64-66 | the rejection function is called once, with the error itself |
| `Js.LowerAscii` | src/ServerOpsRequest/index.js:23 | lower-casing keeps the length and maps exactly the letters A-Z to a-z, position by position |
| `OpsRequest.Unsupported` | src/ServerOpsRequest/index.js:30-31 | the unsupported-method error has code 405 and message `Unsupported HTTP Method "<method>"` |
| `OpsRequest.Prepare` | src/ServerOpsRequest/index.js:15-32 | a configuration is built iff the lower-cased method is get or post, else the 405 error; `withCredentials` is true iff `withCreds` is `true`; headers and params default to `{}`; the params go to the body iff the method is post |
| `OpsRequest.ResponseMessage` | src/ServerOpsRequest/index.js:46-48 | for a body object whose `error` is an object, the message is that object's `message` (`undefined` when absent); a body that is not an object, or whose `error` is absent, `undefined` or `null`, is itself the message; a primitive `error` gives `undefined` |
| `OpsRequest.Classify` | src/ServerOpsRequest/index.js:38-72 | success iff the outcome resolved, with its data; a response error keeps the normalised response status and takes `data.error.message` or the raw data; no response gives 400 with the message or "No response received"; other axios errors give 500 with the message or "Unknown Axios error"; non-axios errors give 500; a ServerOpsError passes unchanged; every other failure is valid |
| `OpsRequest.ClassifyIdempotent` | src/ServerOpsRequest/index.js:65-68 | feeding any failure back into the catch block as a ServerOpsError returns the same failure |
| `OpsRequest.Send` | src/ServerOpsRequest/index.js:10-74 | an unsupported method fails with the 405 error; get and post return the classification of what the transport does with the prepared configuration |
| `OpsRequest.UnsupportedSkipsTransport` | src/ServerOpsRequest/index.js:23-32 | for an unsupported method the result is the same whatever the transport would do, and its code is 405 |
| `OpsRequest.SendFailuresValid` | src/ServerOpsRequest/index.js:38-72 | every failure `send` reports has a code in [100, 599] and a non-nullish message, provided the transport's own ServerOpsErrors are valid |
| `OpsRequest.SendGet` | src/ServerOpsRequest/index.js:78-80 | `GET(opts)` is `send("get", opts)` and always reaches the transport with the parameters in the query string |
| `OpsRequest.SendPost` | src/ServerOpsRequest/index.js:84-86 | `POST(opts)` is `send("post", opts)` and always reaches the transport with the form-encoded parameters in the body |
| `OpsRequest.AsWrittenAgreesElsewhere` | src/ServerOpsRequest/index.js:44-49 | the catch block as written throws a TypeError exactly on error responses whose body is null/undefined or whose `error` is null, and agrees with the corrected one everywhere else |
| `OpsRequest.NullBodyEscapes` | src/ServerOpsRequest/index.js:44-49 | a 503 whose body is `null` rejects with a TypeError as written, and with ServerOpsError("Unknown Error", 503) once corrected |
| `Ops.ParsePort` | src/ServerOps/index.js:39-41 | a nullish port becomes 3000; an integer written without exponent is kept; a string gives NaN exactly when parseInt finds no digits; an object is converted through its own `toString` exactly when it has one; booleans, objects without their own `toString`, functions, NaN and the infinities give NaN |
| `Js.ParseIntOfDecimal` | src/ServerOps/index.js:39-41 | parseInt reads the decimal text of n, signed or not and followed by anything not starting with a digit, back as n |
| `Js.ParseIntSkipsWhiteSpace` | src/ServerOps/index.js:39-41 | leading JavaScript white space does not change what parseInt reads |
| `Ops.PortFromDecimalText` | src/ServerOps/index.js:39-41 | a port given as the decimal string of n is stored as n |
| `Ops.StoreCors` | src/ServerOps/index.js:53-58 | `"*"` is stored as `{}` and anything else verbatim; the stored value is never `"*"` and is undefined iff the argument was |
| `Ops.BaseMiddleware` | src/ServerOps/index.js:72-93 | a fresh app gets helmet first, then CORS with the stored options exactly when they are not undefined, then the JSON and url-encoded parsers last |
| `Ops.Create` | src/ServerOps/index.js:20-25 | construction fails iff the config is nullish; otherwise it stores the parsed port, the stored cors, the routes or `[]`, and the base middleware for that cors |
| `Ops.Init` | src/ServerOps/index.js:252-254 | `init(config)` never fails, starts with no routes, and with a nullish config has port 3000 and no CORS |
| `Ops.BindRoute` | src/ServerOps/index.js:135-154 | appends exactly one route action at the end; earlier actions, port, cors and app are unchanged |
| `Ops.RouteGet` | src/ServerOps/index.js:159-161 | appends exactly one get route action, nothing else changes |
| `Ops.RoutePost` | src/ServerOps/index.js:166-168 | appends exactly one post route action, nothing else changes |
| `Ops.RoutePut` | src/ServerOps/index.js:173-175 | appends exactly one put route action, nothing else changes |
| `Ops.RouteDelete` | src/ServerOps/index.js:180-182 | appends exactly one delete route action, nothing else changes |
| `Ops.Use` | src/ServerOps/index.js:187-194 | appends exactly one middleware action; with two arguments they are the route and the function, with any other count the route is null and the function is the first argument |
| `Ops.Static` | src/ServerOps/index.js:199-201 | appends exactly one middleware action serving the directory under the route |
| `Ops.Chain` | src/ServerOps/index.js:205-208 | the routes become this builder's followed by the other's, each in its own order; port, cors and app are kept |
| `Ops.ApplyAllAppends` | src/ServerOps/index.js:215 | the reduce registers exactly one entry per action, in action order, after the existing registrations |
| `Ops.RegistrationOf` | src/ServerOps/index.js:137-138 | a route action registers its handler under its own method and route; a middleware action registers what `Ops.UseRegistration` gives; no action registers construction middleware or a catch-all |
| `Ops.UseRegistration` | src/ServerOps/index.js:189-192 | a deferred `use` registers scoped middleware under its route exactly when the route is truthy, and the same function unscoped otherwise |
| `Ops.Launch` | src/ServerOps/index.js:212-243 | the app log becomes the existing log, then one registration per action in order, then the 404 handler, then the error handler; the app listens on the stored port; a function callback is called, otherwise the banner is printed |
| `Ops.LaunchOrder` | src/ServerOps/index.js:212-231 | on a constructed builder, construction middleware precedes all user registrations, which precede both catch-alls, and the log ends with the 404 handler then the error handler |
| `Ops.LastActionRegisteredLast` | src/ServerOps/index.js:212-220 | whatever action was pushed last onto the route list is registered third from the end of the app, right before the 404 and error catch-alls |
| `Ops.LaunchChained` | src/ServerOps/index.js:205-208 | launching a chained builder registers the first builder's actions, then the second's, then the catch-alls |
| `Ops.UseOverload` | src/ServerOps/index.js:187-194 | two arguments with a truthy route register scoped middleware; a falsy route, or a single argument, registers it unscoped |
| `Ops.RouteWrapper` | src/ServerOps/index.js:138-147 | a thrown ServerOpsError is logged and answered with its own response, and `next` is not called; any other thrown value goes to `next`; a completing handler leaves the response to itself |
| `Ops.ErrorCatchAll` | src/ServerOps/index.js:224-231 | a ServerOpsError is logged and sent with its own status; anything else is written to the console and answered 500 "Internal Server Error" |
| `Ops.Serve` | src/ServerOps/index.js:137-140 | a request reaching a route registration runs that route's wrapper; one reaching the 404 catch-all is answered 404 "Route Does Not Exist"; the two cases occur exactly at those registrations |
| `Ops.RouteRunsOnLauncher` | src/ServerOps/index.js:137-140 | the handler of the k-th pending route action is served at position k after the construction middleware, inside its wrapper with the launched builder (same port, cors and routes) as `server` |
| `Ops.ChainedRouteRunsOnChainer` | src/ServerOps/index.js:205-208 | a route contributed by another builder through `chain` runs with the chaining builder as `server`, with that builder's port and cors value |
| `Ops.NotFoundAnswered` | src/ServerOps/index.js:218-220 | in every launched app, the second-to-last registration answers 404 "Route Does Not Exist" |
| `Ops.AnswerByOutcome` | src/ServerOps/index.js:138-147 | how a route ends: a thrown ServerOpsError is answered by the wrapper with its status and message; any other value Express counts as an error gets the error catch-all's generic 500; a falsy value or the string "route" goes on to later registrations; the string "router" leaves the app's router, so neither catch-all runs; a handler that completes answers for itself |
| `Ops.CatchAllAgreesWithWrapper` | src/ServerOps/index.js:224-231 | a ServerOpsError reaching the catch-all gets the same response and log line as in the route wrapper |
| `Propagation.RequestFailureAnswered` | src/ServerOps/index.js:138-147 | a request failure thrown from a route handler is answered with the request error's status, which lies in [100, 599], and with its message |
| `Propagation.UnsupportedMethodAnswered` | src/ServerOpsRequest/index.js:30-31 | an unsupported outbound method thrown from a handler reaches the client as a 405 with the "Unsupported HTTP Method" message |

## Left out

- Express itself is not modelled: path matching, the behaviour of helmet, cors, the body parsers and `express.static`, and `app.listen`. Only the order of registrations on the app is modelled.
- The axios transport is an arbitrary function from the request configuration to an `Outcome`. `FormBody(p)` stands for `new URLSearchParams(p).toString()` without computing the encoding. A URLSearchParams constructor that throws on exotic params is not modelled.
- Promises and `async` are not modelled. Each handler or request yields one outcome.
- The clock is not modelled. The timestamp is a parameter. `ServerOps.timestamp`, `ServerOpsError.timestamp` and `getIPAddress` are not modelled because they read the clock and `os.networkInterfaces`.
- The startup banner text is not modelled. `Launch` records only whether the ready callback is called or the banner is printed.
- Console output is not modelled. This includes the notice printed for an invalid status code and the CORS `"*"` notice.
- OpsError.Log: the default line is held as its three parts (timestamp, code, message). `OpsError.Render` gives its text only for a non-negative integral code below 10^21 and a string message: the template literal converts other codes with JavaScript's number formatting and non-string messages with ToString (an object becomes `"[object Object]"`), neither of which is modelled. A callback result that is not a string is printed by `console.error` through `util.inspect`, which is not modelled either.
- OpsError.New: the message is kept as the JavaScript value after `??`. The `Error` constructor's ToString conversion of non-string messages is not modelled. For strings the two agree.
- Ops.ParsePort: `PortFromExponent` marks numbers that JavaScript writes with an exponent, where parseInt reads only the leading digit. That digit is not computed.
- Ops.ParsePort: numbers read from long digit strings are exact integers here. In JavaScript they lose precision beyond 2^53.
- Ops.ParsePort: an object with its own `toString` gives `PortFromObjectConversion`. parseInt converts the object by calling that `toString` (and then `valueOf` when `toString` is not callable or returns an object), so `{toString: () => "8080"}` gives 8080. That call is foreign code, so its result is not computed. A conversion that throws makes the constructor throw, and that is not modelled either. Objects that inherit a custom `toString` or define `Symbol.toPrimitive` are outside the value model.
- Ops.ParsePort: a function port is NaN. The exception is a method-shorthand function whose source text starts with digits, which is not modelled.
- Ops.Create: the routes given to the constructor (src/ServerOps/index.js:19-23), or stored by the `routes` setter (src/ServerOps/index.js:105-107), are limited to the closures that `bindRoute` and `use` build. An arbitrary `(serverOps -> serverOps)` function can register any number of entries. The reduce in `launch` passes its return value on as the next `server`, and that hand-off is not modelled either, so `Ops.ApplyAllAppends` and `Ops.LaunchOrder` cover only the builder's own closures.
- Ops.AnswerByOutcome: Express's routing after `next` is not modelled. `PassedToLaterRoutes` stands for the request moving on to later registrations; if none answers, it reaches the 404 catch-all (`Ops.NotFoundAnswered`). `LeftRouter` stands for Express's own final handler, whose 404 "Cannot <METHOD> <path>" text is not computed. A forwarded error is first offered to any error-handling middleware (a four-parameter function) that `use` registered after the route. Such middleware answers before the error catch-all, so the 500 is the answer only when none of them answers.
- Ops.BindRoute: the method is one of the four names that `GET`, `POST`, `PUT` and `DELETE` pass (src/ServerOps/index.js:159-182). `bindRoute` called directly with another name is not modelled: a name such as "patch" registers that Express method, and a name the app does not have makes `server.app[method](…)` throw a TypeError inside `launch` (src/ServerOps/index.js:138, reached from 215).
- Js.LowerAscii: only ASCII letters are lower-cased, while `toLowerCase` (src/ServerOpsRequest/index.js:23) lower-cases all of Unicode and can change the length (U+0130 "İ" becomes two code units). Its only use is the comparison with "get" and "post". That comparison decides the same either way, because no non-ASCII character lower-cases to one of their letters, but the lowered string itself is not JavaScript's.
- OpsRequest.Classify: a thrown `null` or `undefined` is not modelled (`NonAxios` carries a value with a `message` read off it). It can come only from a rejecting axios interceptor. There, reading `err.message` (src/ServerOpsRequest/index.js:63) throws a TypeError inside the catch block, the same kind of escape as the one under "## Findings".
- Js.GetProp: only own properties of plain objects are read. Primitives and functions give `undefined` for the keys this model reads.
- A non-string method makes `method.toLowerCase()` throw a TypeError, which becomes a 500 with the engine's message. It is not modelled: the method is a string.
- A missing options object is not modelled. Destructuring it throws before the try block. The options are a record here.
- Aliasing of the routes array passed to the constructor is not modelled. Later `push`es would also change the caller's array. The model has value semantics.
- Launching twice, or adding routes after launch, is not modelled because the behaviour is undefined.
- Handler requests and responses are abstract. Which handler a request reaches depends on Express path matching.
- The `error` getter is not modelled: it only returns the ServerOpsError class.
- `src/index.js` is not modelled: it only re-exports.

## Findings

| source | as written | input that shows it | evidently intended | confidence | as-written member | corrected member |
|---|---|---|---|---|---|---|
| src/ServerOpsRequest/index.js:44-49 | the catch block reads `err.response.data.error` unguarded, and then `.message` whenever that is not `undefined`; on a `null` body, or a body whose `error` is `null`, this throws a TypeError inside the catch block, and `send` rejects with that TypeError | an error response with status 503 and JSON body `null` | every failure becomes a ServerOpsError; here ServerOpsError("Unknown Error", 503) | medium, not executed | `OpsRequest.ClassifyAsWritten` (shown by `OpsRequest.NullBodyEscapes`, `OpsRequest.AsWrittenAgreesElsewhere`) | `OpsRequest.Classify` |
