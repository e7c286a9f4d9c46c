/**
 * PropagationMiddleware: picks the header mapping of an inbound request according
 * to its transport and runs the rest of the pipeline with `{headers}` as the current
 * value of the propagation store. Nothing here writes to the request.
 */
module Propagation {
  import opened Wrappers
  import opened Transport
  import opened Context

  /** HTTP: the request's own header object, as it is. */
  function GetHttpHeaders(request: Request): (h: Headers)
    reads request
    requires request.headers.Some?
    ensures h == request.headers.value
  {
    request.headers.value
  }

  /** The handshake's headers, or an empty object when there is no handshake or it has none. */
  function HandshakeHeaders(socket: Request): (h: Headers)
    ensures socket.handshake.Some? && socket.handshake.value.headers.Some? ==> h == socket.handshake.value.headers.value
    ensures socket.handshake.None? || socket.handshake.value.headers.None? ==> h == map[]
  {
    match socket.handshake
    case Some(hs) => hs.headers.GetOr(map[])
    case None => map[]
  }

  /**
   * WebSocket: the handshake headers, overlaid with the payload's `headers` when the
   * payload has them. The overlay is a new object: on a name both carry, the payload wins.
   */
  function GetWsHeaders(socket: Request, data: Option<Payload>): (h: Headers)
    ensures data.Some? && data.value.headers.Some? ==>
      var base, own := HandshakeHeaders(socket), data.value.headers.value;
      && h.Keys == base.Keys + own.Keys
      && (forall k :: k in own ==> h[k] == own[k])
      && (forall k :: k in base && k !in own ==> h[k] == base[k])
    ensures data.None? || data.value.headers.None? ==> h == HandshakeHeaders(socket)
  {
    var base := HandshakeHeaders(socket);
    if data.Some? && data.value.headers.Some? then base + data.value.headers.value else base
  }

  /** RPC: whatever `getMap()` returns, or an empty object when there is no `getMap`. */
  function GetRpcHeaders(context: Request): (h: Headers)
    ensures context.getMap.Some? ==> h == context.getMap.value
    ensures context.getMap.None? ==> h == map[]
  {
    context.getMap.GetOr(map[])
  }

  /** The header mapping to propagate, chosen by the shared first-match classification. */
  function GetHeaders(request: Request): (h: Headers)
    reads request
    ensures Classify(request) == Http ==> h == request.headers.value
    ensures Classify(request) == Ws ==> h == GetWsHeaders(request, request.data)
    ensures Classify(request) == Rpc ==> request.getMap.Some? && h == request.getMap.value
    ensures Classify(request) == Unknown ==> h == map[]
  {
    match Classify(request)
    case Http => GetHttpHeaders(request)
    case Ws => GetWsHeaders(request, request.data)
    case Rpc => GetRpcHeaders(request)
    case Unknown => map[]
  }

  /**
   * `use`: runs the next stage, which here is the call `next()`, with the
   * propagation store set to `{headers: GetHeaders(request)}`, then puts the previous
   * value back. The trace store is left as it was, and so is the request.
   */
  method Use(request: Request, rt: Runtime)
    modifies rt
    ensures rt.headerScope == old(rt.headerScope) && rt.traceScope == old(rt.traceScope)
    ensures rt.events == old(rt.events) +
      [Event(Some(PropagationScope(GetHeaders(request))), old(rt.traceScope), NextCalled(None))]
  {
    var scope := PropagationScope(GetHeaders(request));
    var saved := rt.headerScope;
    rt.headerScope := Some(scope);
    rt.Emit(NextCalled(None));
    rt.headerScope := saved;
  }
}
