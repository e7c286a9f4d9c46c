/**
 * The request-like values both middlewares receive, and the structural test that
 * tells an Express HTTP request, a socket.io-style WebSocket client and an RPC
 * context apart. Both middlewares probe the same three fields in the same order;
 * the model states that test once, as `Classify`.
 */
module Transport {
  import opened Wrappers

  /** A header mapping, header name to value. */
  type Headers = map<string, string>

  /** The header under which the correlation identifier travels. */
  const RequestIdHeader: string := "x-request-id"

  /** Property access on a header object: `headers[name]`, absent when the key is missing. */
  function Lookup(h: Headers, name: string): (v: Option<string>)
    ensures v.Some? <==> name in h
    ensures v.Some? ==> v.value == h[name]
  {
    if name in h then Some(h[name]) else None
  }

  /** JavaScript truthiness of a string property: it is present and not the empty string. */
  predicate Truthy(v: Option<string>) {
    v.Some? && v.value != ""
  }

  /** The route Express has matched, with its path pattern. */
  datatype Route = Route(path: string)

  /** A socket.io handshake, with the headers of the upgrade request when present. */
  datatype Handshake = Handshake(headers: Option<Headers>)

  /**
   * A payload object (an event payload or a parsed request body): its `headers`
   * sub-object when present, and the remainder of its content, carried opaquely.
   */
  datatype Payload = Payload(headers: Option<Headers>, content: string)

  /** The `headers` sub-object of a payload, or an empty one in its place. */
  function PayloadHeaders(d: Payload): (h: Headers)
    ensures d.headers.Some? ==> h == d.headers.value
    ensures d.headers.None? ==> h == map[]
  {
    d.headers.GetOr(map[])
  }

  /** The parts of a request that the tracer writes to: its header object and its payload. */
  datatype Carrier = Carrier(headers: Option<Headers>, data: Option<Payload>)

  /**
   * A request-like value. The properties the middlewares probe are optional; the
   * three function-valued ones are modelled by whether they exist (`get`) or by what
   * they return (`getMap()`). Only `headers` and `data` are ever assigned to.
   */
  class Request {
    var headers: Option<Headers>
    var data: Option<Payload>
    const hasGet: bool
    const route: Option<Route>
    const eventName: Option<string>
    const handshake: Option<Handshake>
    const getMap: Option<Headers>
    const httpMethod: string
    const body: Option<Payload>
    const ip: string
    const ips: seq<string>

    constructor (headers: Option<Headers>, data: Option<Payload>, hasGet: bool, route: Option<Route>,
                 eventName: Option<string>, handshake: Option<Handshake>, getMap: Option<Headers>,
                 httpMethod: string, body: Option<Payload>, ip: string, ips: seq<string>)
      ensures this.headers == headers && this.data == data && this.hasGet == hasGet
      ensures this.route == route && this.eventName == eventName && this.handshake == handshake
      ensures this.getMap == getMap && this.httpMethod == httpMethod && this.body == body
      ensures this.ip == ip && this.ips == ips
    {
      this.headers := headers;
      this.data := data;
      this.hasGet := hasGet;
      this.route := route;
      this.eventName := eventName;
      this.handshake := handshake;
      this.getMap := getMap;
      this.httpMethod := httpMethod;
      this.body := body;
      this.ip := ip;
      this.ips := ips;
    }

    /** The current contents of the writable parts. */
    function State(): (c: Carrier)
      reads this
      ensures c.headers == headers && c.data == data
    {
      Carrier(headers, data)
    }
  }

  /** An Express response; only its outgoing headers are modelled. */
  class Response {
    var headers: Headers

    constructor ()
      ensures headers == map[]
    {
      headers := map[];
    }

    /** `response.setHeader(name, value)`: sets or replaces one outgoing header. */
    method SetHeader(name: string, value: string)
      modifies this
      ensures headers == old(headers)[name := value]
    {
      headers := headers[name := value];
    }
  }

  datatype Transport = Http | Ws | Rpc | Unknown {
    /** The `reqType` a metadata record of this transport carries; none for an unknown shape. */
    function ReqType(): Option<string> {
      match this
      case Http => Some("http")
      case Ws => Some("ws")
      case Rpc => Some("rpc")
      case Unknown => None
    }
  }

  /**
   * The structural classification, first match wins: a header object together with a
   * `get` accessor is HTTP, else a handshake is WebSocket, else a `getMap` accessor is RPC.
   */
  function Classify(r: Request): (t: Transport)
    reads r
    ensures t == Http <==> r.headers.Some? && r.hasGet
    ensures t == Ws <==> !(r.headers.Some? && r.hasGet) && r.handshake.Some?
    ensures t == Rpc <==> !(r.headers.Some? && r.hasGet) && r.handshake.None? && r.getMap.Some?
    ensures t == Unknown <==> !(r.headers.Some? && r.hasGet) && r.handshake.None? && r.getMap.None?
  {
    if r.headers.Some? && r.hasGet then Http
    else if r.handshake.Some? then Ws
    else if r.getMap.Some? then Rpc
    else Unknown
  }

  /** The descriptive record the tracer logs on entry, one variant per transport. */
  datatype RequestMetadata =
    | HttpMetadata(reqMethod: string, reqUrl: string, reqBody: Option<Payload>, reqIp: string,
                   reqIps: seq<string>, referer: Option<string>, userAgent: Option<string>)
    | WsMetadata(reqUrl: string, reqBody: Option<Payload>)
    | RpcMetadata(reqUrl: string, reqBody: Option<Payload>, metadata: Option<Headers>)
    | NoMetadata
  {
    /** The record's `reqType` field; the empty record has none. */
    function ReqType(): Option<string> {
      match this
      case HttpMetadata(_, _, _, _, _, _, _) => Some("http")
      case WsMetadata(_, _) => Some("ws")
      case RpcMetadata(_, _, _) => Some("rpc")
      case NoMetadata => None
    }
  }
}
