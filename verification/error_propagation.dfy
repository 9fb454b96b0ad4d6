/**
  How the two halves of the error contract meet: a failure of an outbound
  request, thrown on from inside a route handler, is answered by the route
  wrapper like any other ServerOpsError.
 */
module Propagation {
  import opened Wrappers
  import opened Js
  import opened OpsError
  import OpsRequest
  import Ops

  /**
    A handler that awaits `ServerOpsRequest.send` and lets its rejection
    propagate is answered with the request error's own status code, which
    lies in [100, 599], and its message in the wire body; `next` is not
    involved.
   */
  lemma RequestFailureAnswered(
    server: Ops.ServerOps, handler: Value,
    verb: string, opts: OpsRequest.Options,
    transport: OpsRequest.RequestConfig -> OpsRequest.Outcome, timestamp: string)
    requires forall c :: transport(c).AlreadyServerOpsError? ==> Valid(transport(c).error)
    requires OpsRequest.Send(verb, opts, transport).Failure?
    ensures var e := OpsRequest.Send(verb, opts, transport).error;
      var effect := Ops.RouteWrapper(server, handler, (s, h) => Ops.ThrowsServerOpsError(e), timestamp);
      && effect.Replied?
      && effect.response.status == e.statusCode
      && 100.0 <= effect.response.status <= 599.0
      && WireMessage(effect.response.body.v) == Some(e.message)
  {
    OpsRequest.SendFailuresValid(verb, opts, transport);
  }

  /**
    The 405 of an unsupported method reaches the client as a 405 carrying
    the "Unsupported HTTP Method" message.
   */
  lemma UnsupportedMethodAnswered(server: Ops.ServerOps, handler: Value, verb: string, opts: OpsRequest.Options,
    transport: OpsRequest.RequestConfig -> OpsRequest.Outcome, timestamp: string)
    requires !OpsRequest.IsGet(verb) && !OpsRequest.IsPost(verb)
    ensures var e := OpsRequest.Send(verb, opts, transport).error;
      var effect := Ops.RouteWrapper(server, handler, (s, h) => Ops.ThrowsServerOpsError(e), timestamp);
      && effect.Replied?
      && effect.response.status == 405.0
      && WireMessage(effect.response.body.v) == Some(Str("Unsupported HTTP Method \"" + verb + "\""))
  {
  }
}
