/**
  ServerOps: a chainable route builder over an Express app. Route and
  middleware bindings are recorded as deferred actions; `launch` applies them
  in order to the app, then installs a 404 catch-all and an error catch-all
  and listens on the configured port.

  The Express app is modelled by the ordered log of what was registered on it.
 */
module Ops {
  import opened Wrappers
  import opened Js
  import opened OpsError

  /* ---------- configuration ---------- */

  /**
    The stored port: `parseInt(port ?? 3000, 10)`. `PortFromExponent(r)` is a
    finite number so large or so small that JavaScript writes it with an
    exponent, where parseInt reads only its leading digit.
    `PortFromObjectConversion(v)` is an object with its own `toString`, which
    parseInt calls to turn the object into text.
   */
  datatype Port = PortNumber(n: int) | PortNaN | PortFromExponent(r: real) | PortFromObjectConversion(v: Value)

  const DefaultPort: int := 3000

  /** Truncation toward zero, which is what parseInt keeps of a plainly written number. */
  function TruncateReal(r: real): int {
    if r >= 0.0 then r.Floor else -((-r).Floor)
  }

  /** Whether JavaScript writes the finite number `r` without an exponent. */
  predicate PlainlyWritten(r: real) {
    r == 0.0 || (0.000001 <= (if r < 0.0 then -r else r) < 1000000000000000000000.0)
  }

  /** The port setter. */
  function ParsePort(port: Value): (p: Port)
    ensures IsNullish(port) ==> p == PortNumber(DefaultPort)
    ensures port.Num? && port.n.Finite? && PlainlyWritten(port.n.r) && port.n.r == port.n.r.Floor as real
      ==> p == PortNumber(port.n.r.Floor)
    ensures port.Str? ==> (p.PortNaN? <==> ParseIntDecimal(port.s).None?)
    ensures port.Obj? ==> (p.PortFromObjectConversion? <==> "toString" in port.props)
    ensures port.Bool? || (port.Obj? && "toString" !in port.props) || port.Func? || (port.Num? && !port.n.Finite?)
      ==> p == PortNaN
  {
    match port
    case Undefined => PortNumber(DefaultPort)
    case Null => PortNumber(DefaultPort)
    case Num(Finite(r)) => if PlainlyWritten(r) then PortNumber(TruncateReal(r)) else PortFromExponent(r)
    case Num(_) => PortNaN
    case Str(s) =>
      (match ParseIntDecimal(s)
       case None => PortNaN
       case Some(n) => PortNumber(n))
    case Obj(props) => if "toString" in props then PortFromObjectConversion(port) else PortNaN
    case _ => PortNaN
  }

  /** A port given as the decimal text of a number is read back as that number. */
  lemma PortFromDecimalText(n: nat)
    ensures ParsePort(Str(DecimalText(n))) == PortNumber(n)
  {
    var d := DecimalText(n);
    ParseIntOfDecimal(n, false, "");
    assert (if false then "-" else "") + d + "" == d;
    assert ParseIntDecimal(d) == Some(n);
  }

  /** The cors setter: `"*"` is stored as `{}`, anything else as given. */
  function StoreCors(config: Value): (c: Value)
    ensures config == Str("*") ==> c == EmptyObject
    ensures config != Str("*") ==> c == config
    ensures c != Str("*")
    ensures c == Undefined <==> config == Undefined
  {
    if config == Str("*") then EmptyObject else config
  }

  /* ---------- the app's registration log ---------- */

  /** The four route methods, by their Express method names. */
  datatype Verb = Get | Post | Put | Delete

  /** A middleware function: one supplied by the caller, or `express.static(dir)`. */
  datatype Middleware = Supplied(fn: Value) | ServeStatic(dir: Value)

  /** One call made on the Express app, in the order it was made. */
  datatype Registration =
    | Helmet                                     // app.use(helmet())
    | Cors(options: Value)                       // app.use(cors(options))
    | JsonParser                                 // app.use(express.json())
    | UrlEncodedParser                           // app.use(express.urlencoded({extended: true}))
    | RouteHandler(verb: Verb, route: Value, handler: Value)   // app[verb](route, wrapper of handler)
    | ScopedMiddleware(prefix: Value, fn: Middleware)         // app.use(prefix, fn)
    | GlobalMiddleware(fn: Middleware)                        // app.use(fn)
    | NotFoundHandler                            // app.use("*", …) answering 404
    | ErrorHandler                               // app.use((err, req, res, next) => …)

  /** Whether a registration is one the constructor makes. */
  predicate IsConstructionMiddleware(r: Registration) {
    r.Helmet? || r.Cors? || r.JsonParser? || r.UrlEncodedParser?
  }

  /** Whether a registration is one of the two catch-alls `launch` adds. */
  predicate IsCatchAll(r: Registration) {
    r.NotFoundHandler? || r.ErrorHandler?
  }

  /** The phase a registration belongs to: construction 0, user actions 1, catch-alls 2. */
  function Phase(r: Registration): nat {
    if IsConstructionMiddleware(r) then 0 else if IsCatchAll(r) then 2 else 1
  }

  /** The app setter: the middleware installed on a fresh Express app, given the stored cors value. */
  function BaseMiddleware(cors: Value): (app: seq<Registration>)
    ensures |app| == (if cors == Undefined then 3 else 4)
    ensures app[0] == Helmet && app[|app| - 2] == JsonParser && app[|app| - 1] == UrlEncodedParser
    ensures (exists i :: 0 <= i < |app| && app[i].Cors?) <==> cors != Undefined
    ensures forall i :: 0 <= i < |app| && app[i].Cors? ==> app[i] == Cors(cors)
    ensures forall i :: 0 <= i < |app| ==> IsConstructionMiddleware(app[i])
  {
    if cors != Undefined then
      var app := [Helmet, Cors(cors), JsonParser, UrlEncodedParser];
      assert app[1].Cors?;
      app
    else
      [Helmet, JsonParser, UrlEncodedParser]
  }

  /* ---------- the builder ---------- */

  /** A deferred registration, applied to the app at launch. */
  datatype Action =
    | RouteAction(verb: Verb, route: Value, handler: Value)
    | UseAction(route: Value, fn: Middleware)

  /** The builder's state: port, stored cors value, pending actions and the app's registration log. */
  datatype ServerOps = ServerOps(port: Port, cors: Value, routes: seq<Action>, app: seq<Registration>)

  /**
    `new ServerOps(config, routes)`: `None` is the TypeError of destructuring
    `{port, cors}` from `null` or `undefined`. A routes argument of `null` or
    `undefined` is `None` here and becomes the empty list.
   */
  function Create(config: Value, routes: Option<seq<Action>>): (r: Option<ServerOps>)
    ensures r.None? <==> IsNullish(config)
    ensures r.Some? ==>
      && r.value.port == ParsePort(GetProp(config, "port").value)
      && r.value.cors == StoreCors(GetProp(config, "cors").value)
      && r.value.routes == (if routes.Some? then routes.value else [])
      && r.value.app == BaseMiddleware(r.value.cors)
  {
    match GetProp(config, "port")
    case None => None
    case Some(port) =>
      var cors := StoreCors(GetProp(config, "cors").value);
      Some(ServerOps(ParsePort(port), cors, if routes.Some? then routes.value else [], BaseMiddleware(cors)))
  }

  /** `ServerOps.init(config)`: `new ServerOps(config ?? {})`, which never throws. */
  function Init(config: Value): (r: ServerOps)
    ensures Create(Coalesce(config, EmptyObject), None) == Some(r)
    ensures r.routes == []
    ensures IsNullish(config) ==> r.port == PortNumber(DefaultPort) && r.cors == Undefined
  {
    Create(Coalesce(config, EmptyObject), None).value
  }

  /** `r` is `b` with exactly the action `a` pushed onto its routes. */
  predicate Appended(b: ServerOps, r: ServerOps, a: Action) {
    && r.port == b.port && r.cors == b.cors && r.app == b.app
    && |r.routes| == |b.routes| + 1
    && r.routes[..|b.routes|] == b.routes
    && r.routes[|b.routes|] == a
  }

  /** `bindRoute(method, route, fn)`: pushes one route action and returns the builder. */
  function BindRoute(b: ServerOps, verb: Verb, route: Value, handler: Value): (r: ServerOps)
    ensures Appended(b, r, RouteAction(verb, route, handler))
  {
    b.(routes := b.routes + [RouteAction(verb, route, handler)])
  }

  function RouteGet(b: ServerOps, route: Value, handler: Value): (r: ServerOps)
    ensures Appended(b, r, RouteAction(Get, route, handler))
  {
    BindRoute(b, Get, route, handler)
  }

  function RoutePost(b: ServerOps, route: Value, handler: Value): (r: ServerOps)
    ensures Appended(b, r, RouteAction(Post, route, handler))
  {
    BindRoute(b, Post, route, handler)
  }

  function RoutePut(b: ServerOps, route: Value, handler: Value): (r: ServerOps)
    ensures Appended(b, r, RouteAction(Put, route, handler))
  {
    BindRoute(b, Put, route, handler)
  }

  function RouteDelete(b: ServerOps, route: Value, handler: Value): (r: ServerOps)
    ensures Appended(b, r, RouteAction(Delete, route, handler))
  {
    BindRoute(b, Delete, route, handler)
  }

  /**
    `use(...args)`: with exactly two arguments they are the route and the
    middleware; with any other count the route is `null` and the middleware
    is the first argument (`undefined` when there is none).
   */
  function Use(b: ServerOps, args: seq<Value>): (r: ServerOps)
    ensures |args| == 2 ==> Appended(b, r, UseAction(args[0], Supplied(args[1])))
    ensures |args| != 2 ==> Appended(b, r, UseAction(Null, Supplied(if |args| > 0 then args[0] else Undefined)))
  {
    var route := if |args| == 2 then args[0] else Null;
    var fn := if |args| == 2 then args[1] else if |args| > 0 then args[0] else Undefined;
    b.(routes := b.routes + [UseAction(route, Supplied(fn))])
  }

  /** `static(route, dirname)`: `use(route, express.static(dirname))`. */
  function Static(b: ServerOps, route: Value, dir: Value): (r: ServerOps)
    ensures Appended(b, r, UseAction(route, ServeStatic(dir)))
  {
    b.(routes := b.routes + [UseAction(route, ServeStatic(dir))])
  }

  /** `chain(other)`: this builder's actions followed by the other's; the other builder is not changed. */
  function Chain(b: ServerOps, other: ServerOps): (r: ServerOps)
    ensures r.port == b.port && r.cors == b.cors && r.app == b.app
    ensures |r.routes| == |b.routes| + |other.routes|
    ensures r.routes[..|b.routes|] == b.routes
    ensures r.routes[|b.routes|..] == other.routes
  {
    b.(routes := b.routes + other.routes)
  }

  /* ---------- launch ---------- */

  /** What a deferred `use` registers: `route ? app.use(route, fn) : app.use(fn)`. */
  function UseRegistration(route: Value, fn: Middleware): (r: Registration)
    ensures r.ScopedMiddleware? <==> Truthy(route)
    ensures r == ScopedMiddleware(route, fn) || r == GlobalMiddleware(fn)
    ensures Phase(r) == 1
  {
    if Truthy(route) then ScopedMiddleware(route, fn) else GlobalMiddleware(fn)
  }

  /** What applying one deferred action registers on the app. */
  function RegistrationOf(a: Action): (r: Registration)
    ensures Phase(r) == 1
    ensures a.RouteAction? ==> r == RouteHandler(a.verb, a.route, a.handler)
    ensures a.UseAction? ==> r == UseRegistration(a.route, a.fn)
  {
    match a
    case RouteAction(verb, route, handler) => RouteHandler(verb, route, handler)
    case UseAction(route, fn) => UseRegistration(route, fn)
  }

  /** The registrations a list of actions makes, one per action. */
  function RegistrationsOf(actions: seq<Action>): seq<Registration> {
    if actions == [] then [] else [RegistrationOf(actions[0])] + RegistrationsOf(actions[1..])
  }

  /** Each action's registration sits at the action's own position. */
  lemma {:induction false} RegistrationsOfPointwise(actions: seq<Action>)
    ensures |RegistrationsOf(actions)| == |actions|
    ensures forall i :: 0 <= i < |actions| ==> RegistrationsOf(actions)[i] == RegistrationOf(actions[i])
  {
    if actions != [] {
      RegistrationsOfPointwise(actions[1..]);
      forall i | 0 < i < |actions|
        ensures RegistrationsOf(actions)[i] == RegistrationOf(actions[i])
      {
        assert actions[1..][i - 1] == actions[i];
      }
    }
  }

  /** Applying one action to the server: `route(server)`. */
  function Apply(server: ServerOps, a: Action): ServerOps {
    server.(app := server.app + [RegistrationOf(a)])
  }

  /** `routes.reduce((server, route) => route(server), this)`: the actions applied first to last. */
  function ApplyAll(server: ServerOps, actions: seq<Action>): ServerOps
    decreases |actions|
  {
    if actions == [] then server else ApplyAll(Apply(server, actions[0]), actions[1..])
  }

  /** The fold registers exactly one entry per action, in order, after what was there before. */
  lemma {:induction false} ApplyAllAppends(server: ServerOps, actions: seq<Action>)
    ensures ApplyAll(server, actions).app == server.app + RegistrationsOf(actions)
    ensures ApplyAll(server, actions).routes == server.routes
    ensures ApplyAll(server, actions).port == server.port
    ensures ApplyAll(server, actions).cors == server.cors
    decreases |actions|
  {
    if actions == [] {
      assert server.app + RegistrationsOf(actions) == server.app;
    } else {
      var next := Apply(server, actions[0]);
      ApplyAllAppends(next, actions[1..]);
      calc {
        ApplyAll(server, actions).app;
        ApplyAll(next, actions[1..]).app;
        (server.app + [RegistrationOf(actions[0])]) + RegistrationsOf(actions[1..]);
        server.app + ([RegistrationOf(actions[0])] + RegistrationsOf(actions[1..]));
        server.app + RegistrationsOf(actions);
      }
    }
  }

  /** How `launch` finishes: calling the ready callback with the builder, or printing the banner. */
  datatype Startup = ReadyCallback(cb: Value) | Banner

  /** The state after `launch`: the builder with its app, the port listened on, and the startup step. */
  datatype Launched = Launched(server: ServerOps, listeningOn: Port, startup: Startup)

  /**
    `launch(cb)`: every pending action is applied in order, then the 404
    catch-all and the error catch-all are registered, then the app listens on
    the port.
   */
  function Launch(b: ServerOps, cb: Value): (l: Launched)
    ensures l.server.app == b.app + RegistrationsOf(b.routes) + [NotFoundHandler, ErrorHandler]
    ensures l.server.routes == b.routes && l.server.port == b.port && l.server.cors == b.cors
    ensures l.listeningOn == b.port
    ensures l.startup == (if cb.Func? then ReadyCallback(cb) else Banner)
  {
    ApplyAllAppends(b, b.routes);
    var bound := ApplyAll(b, b.routes);
    var finished := bound.(app := bound.app + [NotFoundHandler, ErrorHandler]);
    Launched(finished, b.port, if cb.Func? then ReadyCallback(cb) else Banner)
  }

  /**
    On a builder made by the constructor, launching registers construction
    middleware, then every user action, then the two catch-alls: the phase
    never goes down along the registration log, and the log ends with the
    404 handler followed by the error handler.
   */
  lemma LaunchOrder(config: Value, routes: Option<seq<Action>>, cb: Value)
    requires Create(config, routes).Some?
    ensures var b := Create(config, routes).value;
      var app := Launch(b, cb).server.app;
      && (forall i, j :: 0 <= i < j < |app| ==> Phase(app[i]) <= Phase(app[j]))
      && |app| == |b.app| + |b.routes| + 2
      && app[|app| - 2] == NotFoundHandler && app[|app| - 1] == ErrorHandler
      && (forall k :: 0 <= k < |b.routes| ==> app[|b.app| + k] == RegistrationOf(b.routes[k]))
  {
    var b := Create(config, routes).value;
    var app := Launch(b, cb).server.app;
    var regs := RegistrationsOf(b.routes);
    RegistrationsOfPointwise(b.routes);
    assert app == b.app + regs + [NotFoundHandler, ErrorHandler];
    LayersOrdered(b.app, regs, [NotFoundHandler, ErrorHandler]);
  }

  /**
    A log made of construction middleware, then registrations of user
    actions, then catch-alls, has non-decreasing phases.
   */
  lemma LayersOrdered(base: seq<Registration>, regs: seq<Registration>, tail: seq<Registration>)
    requires forall i :: 0 <= i < |base| ==> IsConstructionMiddleware(base[i])
    requires forall i :: 0 <= i < |regs| ==> !IsConstructionMiddleware(regs[i]) && !IsCatchAll(regs[i])
    requires forall i :: 0 <= i < |tail| ==> IsCatchAll(tail[i])
    ensures var app := base + regs + tail;
      forall i, j :: 0 <= i < j < |app| ==> Phase(app[i]) <= Phase(app[j])
  {
    var app := base + regs + tail;
    forall i | 0 <= i < |app|
      ensures Phase(app[i]) == (if i < |base| then 0 else if i < |base| + |regs| then 1 else 2)
    {
      if i < |base| {
        assert app[i] == base[i];
      } else if i < |base| + |regs| {
        assert app[i] == regs[i - |base|];
      } else {
        assert app[i] == tail[i - |base| - |regs|];
      }
    }
  }

  /** The registrations a list of actions makes distribute over concatenation. */
  lemma {:induction false} RegistrationsOfAppend(xs: seq<Action>, ys: seq<Action>)
    ensures RegistrationsOf(xs + ys) == RegistrationsOf(xs) + RegistrationsOf(ys)
  {
    if xs == [] {
      assert xs + ys == ys;
    } else {
      assert (xs + ys)[0] == xs[0];
      assert (xs + ys)[1..] == xs[1..] + ys;
      RegistrationsOfAppend(xs[1..], ys);
    }
  }

  /**
    Launching a chained builder registers the first builder's actions and
    then the second's, both in their own order, before the catch-alls.
   */
  lemma LaunchChained(b: ServerOps, other: ServerOps, cb: Value)
    ensures Launch(Chain(b, other), cb).server.app
      == b.app + RegistrationsOf(b.routes) + RegistrationsOf(other.routes) + [NotFoundHandler, ErrorHandler]
  {
    var chained := b.(routes := b.routes + other.routes);
    var tail := [NotFoundHandler, ErrorHandler];
    assert Chain(b, other) == chained;
    RegistrationsOfAppend(b.routes, other.routes);
    calc {
      Launch(chained, cb).server.app;
      b.app + RegistrationsOf(b.routes + other.routes) + tail;
      b.app + (RegistrationsOf(b.routes) + RegistrationsOf(other.routes)) + tail;
      b.app + RegistrationsOf(b.routes) + RegistrationsOf(other.routes) + tail;
    }
  }

  /**
    The `use` overload as seen by the app: two arguments with a truthy route
    register scoped middleware; a falsy route, or one argument, registers it
    unscoped.
   */
  lemma UseOverload(b: ServerOps, route: Value, fn: Value, cb: Value)
    ensures var app := Launch(Use(b, [route, fn]), cb).server.app;
      app[|app| - 3] == (if Truthy(route) then ScopedMiddleware(route, Supplied(fn)) else GlobalMiddleware(Supplied(fn)))
    ensures var app := Launch(Use(b, [fn]), cb).server.app;
      app[|app| - 3] == GlobalMiddleware(Supplied(fn))
  {
    LastActionRegisteredLast(b, UseAction(route, Supplied(fn)), cb);
    LastActionRegisteredLast(b, UseAction(Null, Supplied(fn)), cb);
  }

  /** The action pushed last is registered just before the two catch-alls. */
  lemma LastActionRegisteredLast(b: ServerOps, a: Action, cb: Value)
    ensures var app := Launch(b.(routes := b.routes + [a]), cb).server.app;
      |app| >= 3 && app[|app| - 3] == RegistrationOf(a)
  {
    RegistrationsOfAppend(b.routes, [a]);
    assert [a][1..] == [];
    assert RegistrationsOf([a]) == [RegistrationOf(a)];
  }

  /* ---------- answering errors ---------- */

  /** What a route handler does when run: completes, throws a ServerOpsError, or throws anything else. */
  datatype HandlerOutcome = Completes | ThrowsServerOpsError(error: ServerOpsError) | ThrowsOther(thrown: Value)

  /** A value passed to `next(err)`. */
  datatype Thrown = OpsErrorThrown(error: ServerOpsError) | OtherThrown(v: Value)

  /** The effect of the route wrapper: nothing more, one logged response, or a call to `next(err)`. */
  datatype RouteEffect = Handled | Replied(response: Response, logged: Printed) | Forwarded(err: Thrown)

  /**
    The wrapper `bindRoute` puts around a handler. `behaviour` gives what the
    handler does when called with the launching builder as its context.
    A thrown ServerOpsError is logged and sent; anything else goes to `next`.
   */
  function RouteWrapper(server: ServerOps, handler: Value, behaviour: (ServerOps, Value) -> HandlerOutcome, timestamp: string): (r: RouteEffect)
    ensures behaviour(server, handler).Completes? <==> r.Handled?
    ensures behaviour(server, handler).ThrowsServerOpsError? ==>
      var e := behaviour(server, handler).error;
      r == Replied(Send(e), DefaultLine(timestamp, e.statusCode, e.message))
    ensures behaviour(server, handler).ThrowsOther? <==> r.Forwarded?
    ensures r.Forwarded? ==> r.err == OtherThrown(behaviour(server, handler).thrown)
  {
    match behaviour(server, handler)
    case Completes => Handled
    case ThrowsServerOpsError(e) =>
      var (logged, line) := Log(e, timestamp, None);
      Replied(Send(logged), line)
    case ThrowsOther(v) => Forwarded(OtherThrown(v))
  }

  /** What the error catch-all writes to the diagnostics: the error's log line, or the raw value. */
  datatype Diagnostic = Logged(line: Printed) | ConsoleError(err: Thrown)

  const InternalServerError: Response := Response(500.0, Text("Internal Server Error"))


  /**
    The error catch-all: a ServerOpsError is logged and sent with its own
    status; anything else is written to the console and answered with a
    plain 500.
   */
  function ErrorCatchAll(err: Thrown, timestamp: string): (r: (Response, Diagnostic))
    ensures err.OpsErrorThrown? ==> r.0 == Send(err.error) && r.1 == Logged(DefaultLine(timestamp, err.error.statusCode, err.error.message))
    ensures err.OtherThrown? ==> r.0.status == 500.0 && r.0.body == Text("Internal Server Error") && r.1 == ConsoleError(err)
  {
    match err
    case OpsErrorThrown(e) =>
      var (logged, line) := Log(e, timestamp, None);
      (Send(logged), Logged(line))
    case OtherThrown(_) => (InternalServerError, ConsoleError(err))
  }

  /**
    Whether Express treats a value passed to `next` as an error: a falsy
    value means "no error", "route" is a control string that skips to later
    routes, and "router" one that leaves the app's router altogether.
   */
  predicate IsExpressError(v: Value) {
    Truthy(v) && v != Str("route") && v != Str("router")
  }

  /**
    How a request on a bound route ends: the handler answered it itself; a
    response was sent; `next` was called without an error and the request
    goes on to later registrations (at the end, the 404 catch-all); or
    `next("router")` left the app's router, so that neither catch-all runs
    and Express's own final handler answers.
   */
  datatype FinalAnswer = ByHandler | Sent(response: Response) | PassedToLaterRoutes | LeftRouter

  /**
    The end of a bound route: the wrapper's answer, or, for a forwarded
    error, the answer of the error catch-all, taken when no error middleware
    of the caller registered after the route answers first.
   */
  function Answer(server: ServerOps, handler: Value, behaviour: (ServerOps, Value) -> HandlerOutcome, timestamp: string): FinalAnswer {
    match RouteWrapper(server, handler, behaviour, timestamp)
    case Handled => ByHandler
    case Replied(response, _) => Sent(response)
    case Forwarded(err) =>
      if err.OtherThrown? && err.v == Str("router") then LeftRouter
      else if err.OtherThrown? && !IsExpressError(err.v) then PassedToLaterRoutes
      else Sent(ErrorCatchAll(err, timestamp).0)
  }

  /**
    A route's answer: a thrown ServerOpsError is answered with its own status
    and its message in the wire body; any other value Express counts as an
    error reaches the error catch-all's generic 500; a falsy value or "route"
    goes on to later registrations; "router" leaves the app's router; and a
    handler that completes has answered for itself.
   */
  lemma AnswerByOutcome(server: ServerOps, handler: Value, behaviour: (ServerOps, Value) -> HandlerOutcome, timestamp: string)
    ensures var a := Answer(server, handler, behaviour, timestamp);
      match behaviour(server, handler)
      case Completes => a == ByHandler
      case ThrowsServerOpsError(e) =>
        a.Sent? && a.response.status == e.statusCode && WireMessage(a.response.body.v) == Some(e.message)
      case ThrowsOther(v) =>
        a == (if v == Str("router") then LeftRouter
              else if IsExpressError(v) then Sent(InternalServerError)
              else PassedToLaterRoutes)
  {
  }

  /** A ServerOpsError that reaches the catch-all is answered exactly as the route wrapper answers it. */
  lemma CatchAllAgreesWithWrapper(server: ServerOps, handler: Value, e: ServerOpsError, timestamp: string)
    ensures RouteWrapper(server, handler, (s, h) => ThrowsServerOpsError(e), timestamp)
      == Replied(ErrorCatchAll(OpsErrorThrown(e), timestamp).0, ErrorCatchAll(OpsErrorThrown(e), timestamp).1.line)
  {
  }

  /* ---------- serving a request ---------- */

  /** The answer of the 404 catch-all. */
  const NotFoundResponse: Response := Response(404.0, Text("Route Does Not Exist"))

  /** What a registration does with a request that reaches it. */
  datatype Served = RouteServed(effect: RouteEffect) | NotFoundServed(response: Response) | PassedOn

  /**
    A request reaching the registration at position `i` of a launched app.
    A route handler runs inside its wrapper with the launched builder as
    `server`, the object `launch` folded the routes over; the 404 catch-all
    answers "Route Does Not Exist". `PassedOn` abstracts every other
    registration: Express's own middleware, and the caller's middleware,
    which may answer the request itself.
   */
  function Serve(l: Launched, i: nat, behaviour: (ServerOps, Value) -> HandlerOutcome, timestamp: string): (r: Served)
    ensures r.RouteServed? <==> i < |l.server.app| && l.server.app[i].RouteHandler?
    ensures r.NotFoundServed? <==> i < |l.server.app| && l.server.app[i].NotFoundHandler?
    ensures r.NotFoundServed? ==> r.response.status == 404.0 && r.response.body == Text("Route Does Not Exist")
  {
    if i < |l.server.app| then
      match l.server.app[i]
      case RouteHandler(_, _, handler) => RouteServed(RouteWrapper(l.server, handler, behaviour, timestamp))
      case NotFoundHandler => NotFoundServed(NotFoundResponse)
      case _ => PassedOn
    else
      PassedOn
  }

  /**
    The handler of the `k`-th pending route action runs against the builder
    that was launched: the route wrapper gets that builder, with its port,
    cors value and route list, as `server`.
   */
  lemma RouteRunsOnLauncher(b: ServerOps, cb: Value, k: nat, behaviour: (ServerOps, Value) -> HandlerOutcome, timestamp: string)
    requires k < |b.routes| && b.routes[k].RouteAction?
    ensures var l := Launch(b, cb);
      && Serve(l, |b.app| + k, behaviour, timestamp)
        == RouteServed(RouteWrapper(l.server, b.routes[k].handler, behaviour, timestamp))
      && l.server.port == b.port && l.server.cors == b.cors && l.server.routes == b.routes
  {
    RegistrationsOfPointwise(b.routes);
    var l := Launch(b, cb);
    assert l.server.app[|b.app| + k] == RegistrationsOf(b.routes)[k];
  }

  /**
    A route that another builder contributed through `chain` runs with the
    chaining builder as `server`: its port and cors value, not the other's.
   */
  lemma ChainedRouteRunsOnChainer(b: ServerOps, other: ServerOps, cb: Value, k: nat,
    behaviour: (ServerOps, Value) -> HandlerOutcome, timestamp: string)
    requires k < |other.routes| && other.routes[k].RouteAction?
    ensures var l := Launch(Chain(b, other), cb);
      && Serve(l, |b.app| + |b.routes| + k, behaviour, timestamp)
        == RouteServed(RouteWrapper(l.server, other.routes[k].handler, behaviour, timestamp))
      && l.server.port == b.port && l.server.cors == b.cors
  {
    var c := Chain(b, other);
    assert c.routes[|b.routes| + k] == other.routes[k];
    RouteRunsOnLauncher(c, cb, |b.routes| + k, behaviour, timestamp);
  }

  /** In every launched app, a request that reaches the 404 catch-all is answered 404 "Route Does Not Exist". */
  lemma NotFoundAnswered(b: ServerOps, cb: Value, behaviour: (ServerOps, Value) -> HandlerOutcome, timestamp: string)
    ensures var l := Launch(b, cb);
      |l.server.app| >= 2
      && Serve(l, |l.server.app| - 2, behaviour, timestamp) == NotFoundServed(Response(404.0, Text("Route Does Not Exist")))
  {
  }
}
