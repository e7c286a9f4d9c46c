/**
 * TraceMiddleware: describes the inbound request, resolves its correlation
 * identifier (reusing one the request carries, otherwise minting one and, for HTTP
 * and WebSocket, writing it back), and runs the next stage inside the trace store's
 * scope, logging entry and exit and stamping escaping errors with the elapsed time
 * and the identifier.
 */
module Trace {
  import opened Wrappers
  import opened Transport
  import opened Context
  import opened Ids
  import Decimal

  // ---------------------------------------------------------------------------
  // Request description

  /** The matched route's path, else a truthy event name, else "unknown". */
  function GetRequestUrl(request: Request): (url: string)
    ensures request.route.Some? ==> url == request.route.value.path
    ensures request.route.None? && Truthy(request.eventName) ==> url == request.eventName.value
    ensures request.route.None? && !Truthy(request.eventName) ==> url == "unknown"
  {
    if request.route.Some? then request.route.value.path
    else if Truthy(request.eventName) then request.eventName.value
    else "unknown"
  }

  function GetHttpRequestMetadata(request: Request): (m: RequestMetadata)
    reads request
    requires request.headers.Some?
    ensures m.HttpMetadata? && m.reqUrl == GetRequestUrl(request)
    ensures m.reqMethod == request.httpMethod && m.reqBody == request.body
    ensures m.reqIp == request.ip && m.reqIps == request.ips
    ensures m.referer == Lookup(request.headers.value, "referer")
    ensures m.userAgent == Lookup(request.headers.value, "user-agent")
  {
    var h := request.headers.value;
    HttpMetadata(request.httpMethod, GetRequestUrl(request), request.body, request.ip, request.ips,
                 Lookup(h, "referer"), Lookup(h, "user-agent"))
  }

  function GetWsRequestMetadata(socket: Request, data: Option<Payload>): (m: RequestMetadata)
    ensures m.WsMetadata? && m.reqUrl == GetRequestUrl(socket) && m.reqBody == data
  {
    WsMetadata(GetRequestUrl(socket), data)
  }

  function GetRpcRequestMetadata(context: Request, data: Option<Payload>): (m: RequestMetadata)
    ensures m.RpcMetadata? && m.reqUrl == GetRequestUrl(context) && m.reqBody == data
    ensures m.metadata == context.getMap
  {
    RpcMetadata(GetRequestUrl(context), data, context.getMap)
  }

  /**
   * The record logged on entry: its kind is the first-match classification, an
   * unrecognised shape gives the empty record, and every other record carries the
   * request's url.
   */
  function GetRequestMetadata(request: Request): (m: RequestMetadata)
    reads request
    ensures m.ReqType() == Classify(request).ReqType()
    ensures m.NoMetadata? <==> Classify(request) == Unknown
    ensures !m.NoMetadata? ==> m.reqUrl == GetRequestUrl(request)
    ensures m.HttpMetadata? ==> m == GetHttpRequestMetadata(request)
    ensures m.WsMetadata? || m.RpcMetadata? ==> m.reqBody == request.data
    ensures m.RpcMetadata? ==> m.metadata.Some? && m.metadata == request.getMap
  {
    match Classify(request)
    case Http => GetHttpRequestMetadata(request)
    case Ws => GetWsRequestMetadata(request, request.data)
    case Rpc => GetRpcRequestMetadata(request, request.data)
    case Unknown => NoMetadata
  }

  // ---------------------------------------------------------------------------
  // Correlation identifier

  /**
   * The branch `getRequestId` takes. Its HTTP test is a header object together with a
   * response, which is not the classifier's header object together with `get`.
   */
  function IdRoute(request: Request, c: Carrier, hasResponse: bool): (t: Transport)
    ensures t == Http <==> c.headers.Some? && hasResponse
    ensures t == Ws <==> !(c.headers.Some? && hasResponse) && request.handshake.Some?
    ensures t == Rpc <==> !(c.headers.Some? && hasResponse) && request.handshake.None? && request.getMap.Some?
    ensures t == Unknown <==> !(c.headers.Some? && hasResponse) && request.handshake.None? && request.getMap.None?
  {
    if c.headers.Some? && hasResponse then Http
    else if request.handshake.Some? then Ws
    else if request.getMap.Some? then Rpc
    else Unknown
  }

  /**
   * The two tests agree exactly when a response is at hand for precisely the requests
   * that have `get` (or there is no header object at all).
   */
  lemma IdRouteAgreesWithClassify(request: Request, hasResponse: bool)
    ensures request.headers.None? || hasResponse == request.hasGet ==>
      IdRoute(request, request.State(), hasResponse) == Classify(request)
    ensures request.headers.Some? && !request.hasGet && hasResponse ==>
      IdRoute(request, request.State(), hasResponse) == Http && Classify(request) != Http
    ensures request.headers.Some? && request.hasGet && !hasResponse ==>
      IdRoute(request, request.State(), hasResponse) != Http && Classify(request) == Http
  {
  }

  /**
   * The outcome of one identifier resolution: the identifier, the writable parts of
   * the request afterwards, whether a new identifier was used up, and whether the
   * identifier was set on the response.
   */
  datatype Resolution = Resolution(id: string, carrier: Carrier, minted: bool, echoed: bool)

  /**
   * The HTTP branch: reuse a truthy `x-request-id` of the request's headers or write
   * `newId` there; the identifier is always set on the response.
   */
  function ResolveHttpId(c: Carrier, newId: string): (res: Resolution)
    requires c.headers.Some?
    ensures var h, h' := c.headers.value, res.carrier.headers;
      && res.echoed && res.carrier.data == c.data && h'.Some?
      && h'.value.Keys == h.Keys + {RequestIdHeader}
      && h'.value[RequestIdHeader] == res.id
      && (forall k :: k in h && k != RequestIdHeader ==> h'.value[k] == h[k])
      && (res.minted <==> !Truthy(Lookup(h, RequestIdHeader)))
      && (res.minted ==> res.id == newId)
      && (!res.minted ==> res.id == h[RequestIdHeader] && h'.value == h)
  {
    var h := c.headers.value;
    if Truthy(Lookup(h, RequestIdHeader)) then Resolution(h[RequestIdHeader], c, false, true)
    else Resolution(newId, c.(headers := Some(h[RequestIdHeader := newId])), true, true)
  }

  /**
   * The WebSocket branch: without a payload there is nothing to write into; otherwise
   * the payload gets a `headers` object if it lacks one, and a truthy `x-request-id`
   * there is reused or `newId` is written there. The request's own headers and the
   * response are left alone.
   */
  function ResolveWsId(c: Carrier, newId: string): (res: Resolution)
    ensures !res.echoed && res.carrier.headers == c.headers
    ensures c.data.None? ==> res == Resolution(newId, c, true, false)
    ensures c.data.Some? ==>
      var d, d' := c.data.value, res.carrier.data;
      && d'.Some? && d'.value.content == d.content && d'.value.headers.Some?
      && d'.value.headers.value.Keys == PayloadHeaders(d).Keys + {RequestIdHeader}
      && d'.value.headers.value[RequestIdHeader] == res.id
      && (forall k :: k in PayloadHeaders(d) && k != RequestIdHeader ==> d'.value.headers.value[k] == PayloadHeaders(d)[k])
      && (res.minted <==> !Truthy(Lookup(PayloadHeaders(d), RequestIdHeader)))
      && (res.minted ==> res.id == newId)
      && (!res.minted ==> res.id == PayloadHeaders(d)[RequestIdHeader])
  {
    if c.data.None? then Resolution(newId, c, true, false)
    else
      var d := c.data.value;
      var dh := PayloadHeaders(d);
      if Truthy(Lookup(dh, RequestIdHeader)) then
        Resolution(dh[RequestIdHeader], c.(data := Some(d.(headers := Some(dh)))), false, false)
      else
        Resolution(newId, c.(data := Some(d.(headers := Some(dh[RequestIdHeader := newId])))), true, false)
  }

  /**
   * The RPC branch: a truthy `x-request-id` of the `getMap()` result, else `newId`,
   * which is not written back anywhere.
   */
  function ResolveRpcId(c: Carrier, metadata: Headers, newId: string): (res: Resolution)
    ensures res.carrier == c && !res.echoed
    ensures res.minted <==> !Truthy(Lookup(metadata, RequestIdHeader))
    ensures res.minted ==> res.id == newId
    ensures !res.minted ==> res.id == metadata[RequestIdHeader]
  {
    if Truthy(Lookup(metadata, RequestIdHeader)) then Resolution(metadata[RequestIdHeader], c, false, false)
    else Resolution(newId, c, true, false)
  }

  /**
   * What `getRequestId` does to a request whose writable parts are `c`, when `newId`
   * is the identifier a mint would produce: the branch `IdRoute` picks, and for an
   * unknown shape always the new identifier.
   */
  function ResolveId(request: Request, c: Carrier, hasResponse: bool, newId: string): (res: Resolution)
    // the resolved identifier is always truthy, and the new one is used only when none is found
    ensures newId != "" ==> res.id != ""
    ensures res.minted ==> res.id == newId
    ensures IdRoute(request, c, hasResponse) == Http ==>
      (res.minted <==> !Truthy(Lookup(c.headers.value, RequestIdHeader)))
    ensures IdRoute(request, c, hasResponse) == Ws ==>
      (res.minted <==> c.data.None? || !Truthy(Lookup(PayloadHeaders(c.data.value), RequestIdHeader)))
    ensures IdRoute(request, c, hasResponse) == Rpc ==>
      (res.minted <==> !Truthy(Lookup(request.getMap.value, RequestIdHeader)))
    ensures !res.minted ==> IdRoute(request, c, hasResponse) != Unknown
    ensures res.echoed <==> IdRoute(request, c, hasResponse) == Http
    ensures IdRoute(request, c, hasResponse) != Http ==> res.carrier.headers == c.headers
    ensures IdRoute(request, c, hasResponse) == Rpc || IdRoute(request, c, hasResponse) == Unknown ==> res.carrier == c
  {
    match IdRoute(request, c, hasResponse)
    case Http => ResolveHttpId(c, newId)
    case Ws => ResolveWsId(c, newId)
    case Rpc => ResolveRpcId(c, request.getMap.value, newId)
    case Unknown => Resolution(newId, c, true, false)
  }

  /**
   * Asking again for the identifier of an HTTP request, or of a WebSocket request that
   * has a payload, gives the same identifier, uses up no new one and changes nothing.
   */
  lemma ResolveIdIdempotent(request: Request, c: Carrier, hasResponse: bool, newId1: string, newId2: string)
    requires newId1 != ""
    requires IdRoute(request, c, hasResponse) == Http || (IdRoute(request, c, hasResponse) == Ws && c.data.Some?)
    ensures var first := ResolveId(request, c, hasResponse, newId1);
      var second := ResolveId(request, first.carrier, hasResponse, newId2);
      second.id == first.id && !second.minted && second.carrier == first.carrier
  {
  }

  /**
   * The other shapes keep nothing: a WebSocket request without payload, an RPC call
   * whose map has no identifier, and an unknown shape get a new identifier on every
   * call, so two calls with distinct new identifiers disagree.
   */
  lemma ResolveIdMintsEachTime(request: Request, c: Carrier, hasResponse: bool, newId1: string, newId2: string)
    requires var t := IdRoute(request, c, hasResponse);
      t == Unknown || (t == Ws && c.data.None?) ||
      (t == Rpc && !Truthy(Lookup(request.getMap.value, RequestIdHeader)))
    ensures var first := ResolveId(request, c, hasResponse, newId1);
      var second := ResolveId(request, first.carrier, hasResponse, newId2);
      first.minted && second.minted && first.carrier == c && second.carrier == c
      && (newId1 != newId2 ==> first.id != second.id)
  {
  }

  /**
   * `getRequestId`: resolves the identifier as `ResolveId` describes, minting from
   * `ids` only when it has to, and setting the `x-request-id` response header in the
   * HTTP branch.
   */
  method GetRequestId(request: Request, response: Response?, ids: IdSupply) returns (requestId: string)
    modifies request, response, ids
    ensures var res := ResolveId(request, old(request.State()), response != null, IdOf(old(ids.issued)));
      && requestId == res.id
      && request.State() == res.carrier
      && ids.issued == old(ids.issued) + (if res.minted then 1 else 0)
      && (response != null ==>
            response.headers == if res.echoed then old(response.headers)[RequestIdHeader := requestId]
                                else old(response.headers))
  {
    if request.headers.Some? && response != null {
      if !Truthy(Lookup(request.headers.value, RequestIdHeader)) {
        var id := ids.Mint();
        request.headers := Some(request.headers.value[RequestIdHeader := id]);
      }
      requestId := request.headers.value[RequestIdHeader];
      response.SetHeader(RequestIdHeader, requestId);
      return;
    }
    if request.handshake.Some? {
      var data := request.data;
      if data.None? {
        requestId := ids.Mint();
        return;
      }
      if data.value.headers.None? {
        request.data := Some(data.value.(headers := Some(map[])));
      }
      var d := request.data.value;
      var existing := Lookup(d.headers.value, RequestIdHeader);
      if Truthy(existing) {
        requestId := existing.value;
      } else {
        requestId := ids.Mint();
        request.data := Some(d.(headers := Some(d.headers.value[RequestIdHeader := requestId])));
      }
      return;
    }
    if request.getMap.Some? {
      // the source's inner test for a missing `getMap` cannot succeed here
      var metadata := request.getMap.value;
      var existing := Lookup(metadata, RequestIdHeader);
      if Truthy(existing) {
        requestId := existing.value;
      } else {
        requestId := ids.Mint();
      }
      return;
    }
    requestId := ids.Mint();
  }

  // ---------------------------------------------------------------------------
  // Elapsed time

  /** A duration string: a non-empty run of decimal digits followed by "ms". */
  predicate IsDuration(s: string) {
    |s| > 2 && s[|s| - 2..] == "ms" && Decimal.AllDigits(s[..|s| - 2])
  }

  /**
   * `getResTime`: the nanosecond difference divided by 1000 and by 1000 again with
   * BigInt division, rendered with `toString` and suffixed by "ms".
   */
  function ResTime(start: int, end: int): string {
    Decimal.IntToString(Decimal.TruncDiv(Decimal.TruncDiv(end - start, 1000), 1000)) + "ms"
  }

  /**
   * For a clock that did not go back the duration is the whole number of milliseconds,
   * and its digits read back as that number; otherwise it is the quotient by one million
   * truncated toward zero, which carries a minus sign only when it is not zero.
   */
  lemma ResTimeRendering(start: int, end: int)
    ensures end >= start ==> ResTime(start, end) == Decimal.NatToString((end - start) / 1000000) + "ms"
    ensures end >= start ==>
      IsDuration(ResTime(start, end)) && Decimal.DigitsValue(ResTime(start, end)[..|ResTime(start, end)| - 2]) == (end - start) / 1000000
    ensures end < start ==> ResTime(start, end) == Decimal.IntToString(Decimal.TruncDiv(end - start, 1000000)) + "ms"
  {
    Decimal.NestedTruncDiv(end - start);
    var r := ResTime(start, end);
    if end >= start {
      var digits := Decimal.NatToString((end - start) / 1000000);
      assert r[..|r| - 2] == digits && r[|r| - 2..] == "ms";
      Decimal.DigitsValueOfNatToString((end - start) / 1000000);
    }
  }


  // ---------------------------------------------------------------------------
  // The traced request cycle

  /**
   * How the next stage behaves once it is given the wrapped continuation: it never
   * calls it; it calls it (with an error or without) when the clock reads `at`; it
   * throws before calling it; or it calls it and then throws (for instance because the
   * original `next` threw inside the continuation).
   */
  datatype Stage =
    | Pending
    | Continue(error: Option<ErrorObject>, at: int)
    | Throw(thrown: ErrorObject, at: int)
    | ContinueThenThrow(error: Option<ErrorObject>, at: int, thrown: ErrorObject, thrownAt: int)

  /** The error objects a stage hands back. */
  function StageErrors(stage: Stage): (errs: set<ErrorObject>)
    ensures stage.Pending? ==> errs == {}
    ensures stage.Throw? || stage.ContinueThenThrow? ==> stage.thrown in errs
    ensures (stage.Continue? || stage.ContinueThenThrow?) && stage.error.Some? ==> stage.error.value in errs
  {
    match stage
    case Pending => {}
    case Continue(error, _) => if error.Some? then {error.value} else {}
    case Throw(thrown, _) => {thrown}
    case ContinueThenThrow(error, _, thrown, _) => (if error.Some? then {error.value} else {}) + {thrown}
  }

  /** The effects of `wrappedNext(error)`. */
  function WrappedEffects(error: Option<ErrorObject>, resTime: string): seq<Effect> {
    if error.Some? then [NextCalled(error)] else [RequestOut(resTime), NextCalled(None)]
  }

  /** The effects of the next stage's part of the cycle, in order. */
  function StageEffects(stage: Stage, start: int): seq<Effect> {
    match stage
    case Pending => []
    case Continue(error, at) => WrappedEffects(error, ResTime(start, at))
    case Throw(thrown, _) => [NextCalled(Some(thrown))]
    case ContinueThenThrow(error, at, thrown, _) => WrappedEffects(error, ResTime(start, at)) + [NextCalled(Some(thrown))]
  }

  /** The effects of one traced request cycle, in order. */
  function TraceEffects(metadata: RequestMetadata, stage: Stage, start: int): seq<Effect> {
    [RequestIn(metadata), StageInvoked] + StageEffects(stage, start)
  }

  /**
   * The error objects a stage handed back carry the elapsed time at which the tracer
   * last annotated them and the request's identifier.
   */
  predicate Stamped(stage: Stage, start: int, requestId: string)
    reads StageErrors(stage)
  {
    match stage
    case Pending => true
    case Continue(error, at) =>
      error.Some? ==> error.value.meta == Some(ErrorMeta(ResTime(start, at), requestId))
    case Throw(thrown, at) =>
      thrown.meta == Some(ErrorMeta(ResTime(start, at), requestId))
    case ContinueThenThrow(error, at, thrown, thrownAt) =>
      && thrown.meta == Some(ErrorMeta(ResTime(start, thrownAt), requestId))
      && (error.Some? && error.value != thrown ==> error.value.meta == Some(ErrorMeta(ResTime(start, at), requestId)))
  }

  /** The arguments `next` was called with, in order. */
  function Forwards(effects: seq<Effect>): seq<Option<ErrorObject>> {
    if effects == [] then []
    else (if effects[0].NextCalled? then [effects[0].error] else []) + Forwards(effects[1..])
  }

  /** The durations of the "request out" lines, in order. */
  function Outs(effects: seq<Effect>): seq<string> {
    if effects == [] then []
    else (if effects[0].RequestOut? then [effects[0].resTime] else []) + Outs(effects[1..])
  }

  /** The metadata of the "request in" lines, in order. */
  function Ins(effects: seq<Effect>): seq<RequestMetadata> {
    if effects == [] then []
    else (if effects[0].RequestIn? then [effects[0].metadata] else []) + Ins(effects[1..])
  }

  lemma {:induction false} ForwardsConcat(a: seq<Effect>, b: seq<Effect>)
    ensures Forwards(a + b) == Forwards(a) + Forwards(b)
  {
    if a != [] {
      assert (a + b)[1..] == a[1..] + b;
      ForwardsConcat(a[1..], b);
    } else {
      assert a + b == b;
    }
  }

  lemma {:induction false} OutsConcat(a: seq<Effect>, b: seq<Effect>)
    ensures Outs(a + b) == Outs(a) + Outs(b)
  {
    if a != [] {
      assert (a + b)[1..] == a[1..] + b;
      OutsConcat(a[1..], b);
    } else {
      assert a + b == b;
    }
  }

  lemma {:induction false} InsConcat(a: seq<Effect>, b: seq<Effect>)
    ensures Ins(a + b) == Ins(a) + Ins(b)
  {
    if a != [] {
      assert (a + b)[1..] == a[1..] + b;
      InsConcat(a[1..], b);
    } else {
      assert a + b == b;
    }
  }

  /** A single effect counts as a call of `next`, a "request out" or a "request in" exactly by its kind. */
  lemma SingleEffect(e: Effect)
    ensures Forwards([e]) == (if e.NextCalled? then [e.error] else [])
    ensures Outs([e]) == (if e.RequestOut? then [e.resTime] else [])
    ensures Ins([e]) == (if e.RequestIn? then [e.metadata] else [])
  {
    assert [e][1..] == [];
  }

  /** What `wrappedNext` contributes: one call of `next`, and a "request out" only without an error. */
  lemma WrappedEffectsCounts(error: Option<ErrorObject>, resTime: string)
    ensures var w := WrappedEffects(error, resTime);
      Forwards(w) == [error] && Outs(w) == (if error.None? then [resTime] else []) && Ins(w) == []
  {
    SingleEffect(NextCalled(error));
    if error.None? {
      SingleEffect(RequestOut(resTime));
      assert WrappedEffects(error, resTime) == [RequestOut(resTime)] + [NextCalled(None)];
      ForwardsConcat([RequestOut(resTime)], [NextCalled(None)]);
      OutsConcat([RequestOut(resTime)], [NextCalled(None)]);
      InsConcat([RequestOut(resTime)], [NextCalled(None)]);
    }
  }

  /** The stage's part of a cycle never logs "request in". */
  lemma StageEffectsHaveNoIn(stage: Stage, start: int)
    ensures Ins(StageEffects(stage, start)) == []
  {
    match stage
    case Pending =>
    case Continue(error, at) =>
      WrappedEffectsCounts(error, ResTime(start, at));
    case Throw(thrown, _) =>
    case ContinueThenThrow(error, at, thrown, _) =>
      WrappedEffectsCounts(error, ResTime(start, at));
      InsConcat(WrappedEffects(error, ResTime(start, at)), [NextCalled(Some(thrown))]);
  }

  /** Splits the effects of a cycle into its fixed opening and the stage's part. */
  lemma TraceEffectsSplit(metadata: RequestMetadata, stage: Stage, start: int)
    ensures Forwards(TraceEffects(metadata, stage, start)) == Forwards(StageEffects(stage, start))
    ensures Outs(TraceEffects(metadata, stage, start)) == Outs(StageEffects(stage, start))
    ensures Ins(TraceEffects(metadata, stage, start)) == [metadata] + Ins(StageEffects(stage, start))
  {
    var rest := StageEffects(stage, start);
    SingleEffect(RequestIn(metadata));
    SingleEffect(StageInvoked);
    ForwardsConcat([RequestIn(metadata)], [StageInvoked]);
    OutsConcat([RequestIn(metadata)], [StageInvoked]);
    InsConcat([RequestIn(metadata)], [StageInvoked]);
    assert [RequestIn(metadata)] + [StageInvoked] == [RequestIn(metadata), StageInvoked];
    ForwardsConcat([RequestIn(metadata), StageInvoked], rest);
    OutsConcat([RequestIn(metadata), StageInvoked], rest);
    InsConcat([RequestIn(metadata), StageInvoked], rest);
  }

  /**
   * Every cycle logs "request in" exactly once, with the request's metadata, before
   * the next stage is started.
   */
  lemma TraceLogsInFirst(metadata: RequestMetadata, stage: Stage, start: int)
    ensures var fx := TraceEffects(metadata, stage, start);
      |fx| >= 2 && fx[0] == RequestIn(metadata) && fx[1] == StageInvoked && Ins(fx) == [metadata]
  {
    TraceEffectsSplit(metadata, stage, start);
    StageEffectsHaveNoIn(stage, start);
  }

  /**
   * Success: a stage that calls the continuation without an error gets exactly one
   * "request out" with its duration, then exactly one call `next()` with no error.
   */
  lemma TraceSuccess(metadata: RequestMetadata, stage: Stage, start: int)
    requires stage.Continue? && stage.error.None?
    ensures var fx := TraceEffects(metadata, stage, start);
      && Forwards(fx) == [None]
      && Outs(fx) == [ResTime(start, stage.at)]
      && fx[|fx| - 2] == RequestOut(ResTime(start, stage.at)) && fx[|fx| - 1] == NextCalled(None)
  {
    TraceEffectsSplit(metadata, stage, start);
    WrappedEffectsCounts(stage.error, ResTime(start, stage.at));
  }

  /**
   * Failure: whether the stage hands the continuation an error or throws it, that error
   * reaches `next` exactly once and no "request out" is logged.
   */
  lemma TraceFailure(metadata: RequestMetadata, stage: Stage, start: int, e: ErrorObject)
    requires (stage.Continue? && stage.error == Some(e)) || (stage.Throw? && stage.thrown == e)
    ensures var fx := TraceEffects(metadata, stage, start);
      Forwards(fx) == [Some(e)] && Outs(fx) == []
  {
    TraceEffectsSplit(metadata, stage, start);
    if stage.Continue? {
      WrappedEffectsCounts(stage.error, ResTime(start, stage.at));
    }
  }

  /** A stage that never calls the continuation gets neither "request out" nor a call of `next`. */
  lemma TracePending(metadata: RequestMetadata, start: int)
    ensures var fx := TraceEffects(metadata, Pending, start);
      Forwards(fx) == [] && Outs(fx) == []
  {
    TraceEffectsSplit(metadata, Pending, start);
  }

  /** `wrappedNext(error)` followed by the `catch` block's `next(thrown)`. */
  lemma WrappedThenThrownCounts(error: Option<ErrorObject>, resTime: string, thrown: ErrorObject)
    ensures var fx := WrappedEffects(error, resTime) + [NextCalled(Some(thrown))];
      Forwards(fx) == [error, Some(thrown)] && Outs(fx) == (if error.None? then [resTime] else [])
  {
    var w := WrappedEffects(error, resTime);
    WrappedEffectsCounts(error, resTime);
    SingleEffect(NextCalled(Some(thrown)));
    ForwardsConcat(w, [NextCalled(Some(thrown))]);
    OutsConcat(w, [NextCalled(Some(thrown))]);
  }

  /**
   * A stage that calls the continuation and then throws reaches `next` twice: first
   * with what it handed the continuation, then with the thrown error.
   */
  lemma TraceContinueThenThrow(metadata: RequestMetadata, stage: Stage, start: int)
    requires stage.ContinueThenThrow?
    ensures var fx := TraceEffects(metadata, stage, start);
      Forwards(fx) == [stage.error, Some(stage.thrown)]
      && Outs(fx) == (if stage.error.None? then [ResTime(start, stage.at)] else [])
  {
    var resTime := ResTime(start, stage.at);
    assert StageEffects(stage, start) == WrappedEffects(stage.error, resTime) + [NextCalled(Some(stage.thrown))];
    TraceEffectsSplit(metadata, stage, start);
    WrappedThenThrownCounts(stage.error, resTime, stage.thrown);
  }

  /**
   * The error path shared by `wrappedNext(error)` and the `catch` block: replace
   * `error.meta` with the elapsed time and the identifier, then call `next(error)`.
   */
  method ForwardError(error: ErrorObject, at: int, start: int, requestId: string, rt: Runtime)
    modifies error, rt
    ensures error.meta == Some(ErrorMeta(ResTime(start, at), requestId)) && error.fields == old(error.fields)
    ensures rt.headerScope == old(rt.headerScope) && rt.traceScope == old(rt.traceScope)
    ensures rt.events == old(rt.events) + Tagged(rt.headerScope, rt.traceScope, [NextCalled(Some(error))])
  {
    error.meta := Some(ErrorMeta(ResTime(start, at), requestId));
    rt.Emit(NextCalled(Some(error)));
  }

  /** `wrappedNext(error?)`, called by the next stage when the clock reads `at`. */
  method WrappedNext(error: Option<ErrorObject>, at: int, start: int, requestId: string, rt: Runtime)
    modifies rt, if error.Some? then {error.value} else {}
    ensures rt.headerScope == old(rt.headerScope) && rt.traceScope == old(rt.traceScope)
    ensures rt.events == old(rt.events) + Tagged(rt.headerScope, rt.traceScope, WrappedEffects(error, ResTime(start, at)))
    ensures error.Some? ==>
      error.value.meta == Some(ErrorMeta(ResTime(start, at), requestId)) && error.value.fields == old(error.value.fields)
  {
    if error.Some? {
      ForwardError(error.value, at, start, requestId, rt);
    } else {
      var resTime := ResTime(start, at);
      rt.Emit(RequestOut(resTime));
      rt.Emit(NextCalled(None));
    }
  }

  /** The next stage runs with the wrapped continuation and behaves as `stage` says. */
  method RunStage(stage: Stage, start: int, requestId: string, rt: Runtime)
    modifies rt, StageErrors(stage)
    ensures rt.headerScope == old(rt.headerScope) && rt.traceScope == old(rt.traceScope)
    ensures rt.events == old(rt.events) + Tagged(rt.headerScope, rt.traceScope, StageEffects(stage, start))
    ensures Stamped(stage, start, requestId)
    ensures forall e :: e in StageErrors(stage) ==> e.fields == old(e.fields)
  {
    match stage {
      case Pending =>
      case Continue(error, at) =>
        WrappedNext(error, at, start, requestId, rt);
      case Throw(thrown, at) =>
        ForwardError(thrown, at, start, requestId, rt);
      case ContinueThenThrow(error, at, thrown, thrownAt) =>
        ghost var before := rt.events;
        WrappedNext(error, at, start, requestId, rt);
        ForwardError(thrown, thrownAt, start, requestId, rt);
        TaggedConcat(rt.headerScope, rt.traceScope, WrappedEffects(error, ResTime(start, at)), [NextCalled(Some(thrown))]);
    }
  }

  /** Logs "request in" with the metadata, then starts the next stage. */
  method LogIn(metadata: RequestMetadata, rt: Runtime)
    modifies rt
    ensures rt.headerScope == old(rt.headerScope) && rt.traceScope == old(rt.traceScope)
    ensures rt.events == old(rt.events) + Tagged(rt.headerScope, rt.traceScope, [RequestIn(metadata), StageInvoked])
  {
    rt.Emit(RequestIn(metadata));
    rt.Emit(StageInvoked);
  }

  /** The events of a cycle are those of its opening followed by those of the stage's part. */
  lemma TaggedTrace(hs: Option<PropagationScope>, ts: Option<TraceScope>, metadata: RequestMetadata, stage: Stage, start: int)
    ensures Tagged(hs, ts, TraceEffects(metadata, stage, start))
         == Tagged(hs, ts, [RequestIn(metadata), StageInvoked]) + Tagged(hs, ts, StageEffects(stage, start))
  {
    TaggedConcat(hs, ts, [RequestIn(metadata), StageInvoked], StageEffects(stage, start));
  }

  /**
   * One traced cycle under the scope values now current: log "request in", then start
   * the next stage with the wrapped continuation, catching what it throws.
   */
  method Cycle(metadata: RequestMetadata, requestId: string, stage: Stage, start: int, rt: Runtime)
    modifies rt, StageErrors(stage)
    ensures rt.headerScope == old(rt.headerScope) && rt.traceScope == old(rt.traceScope)
    ensures rt.events == old(rt.events) + Tagged(rt.headerScope, rt.traceScope, TraceEffects(metadata, stage, start))
    ensures Stamped(stage, start, requestId)
    ensures forall e :: e in StageErrors(stage) ==> e.fields == old(e.fields)
  {
    LogIn(metadata, rt);
    RunStage(stage, start, requestId, rt);
    TaggedTrace(rt.headerScope, rt.traceScope, metadata, stage, start);
  }

  /**
   * The callback `use` hands to the trace store's `run`: with the store set to
   * `{requestId}` and the clock at `start`, run one traced cycle. Afterwards the trace
   * store holds its previous value again; the propagation store is never touched.
   */
  method RunInTraceScope(metadata: RequestMetadata, requestId: string, stage: Stage, start: int, rt: Runtime)
    modifies rt, StageErrors(stage)
    ensures rt.headerScope == old(rt.headerScope) && rt.traceScope == old(rt.traceScope)
    ensures rt.events == old(rt.events) + Tagged(old(rt.headerScope), Some(TraceScope(requestId)), TraceEffects(metadata, stage, start))
    ensures Stamped(stage, start, requestId)
    ensures forall e :: e in StageErrors(stage) ==> e.fields == old(e.fields)
  {
    var saved := rt.traceScope;
    rt.traceScope := Some(TraceScope(requestId));
    Cycle(metadata, requestId, stage, start, rt);
    rt.traceScope := saved;
  }

  /**
   * `use`: describe the request, resolve its identifier, and run the traced cycle in
   * the trace store's scope for that identifier; the next stage behaves as `stage`.
   */
  method Use(request: Request, response: Response?, stage: Stage, start: int, ids: IdSupply, rt: Runtime)
    modifies request, response, ids, rt, StageErrors(stage)
    ensures var res := ResolveId(request, old(request.State()), response != null, IdOf(old(ids.issued)));
      && request.State() == res.carrier
      && ids.issued == old(ids.issued) + (if res.minted then 1 else 0)
      && (response != null ==>
            response.headers == if res.echoed then old(response.headers)[RequestIdHeader := res.id]
                                else old(response.headers))
      && rt.events == old(rt.events) +
           Tagged(old(rt.headerScope), Some(TraceScope(res.id)), TraceEffects(old(GetRequestMetadata(request)), stage, start))
      && Stamped(stage, start, res.id)
    ensures forall e :: e in StageErrors(stage) ==> e.fields == old(e.fields)
    ensures rt.headerScope == old(rt.headerScope) && rt.traceScope == old(rt.traceScope)
  {
    var requestMetadata := GetRequestMetadata(request);
    var requestId := GetRequestId(request, response, ids);
    RunInTraceScope(requestMetadata, requestId, stage, start, rt);
  }
}
