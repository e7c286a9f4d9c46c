/**
 * The ambient world both middlewares act on: the two scoped context stores (one
 * for propagated headers, one for the correlation identifier), the error objects
 * the tracer annotates, and the observable effects (log lines and calls of `next`),
 * each recorded with the scope values current when it happened.
 */
module Context {
  import opened Wrappers
  import opened Transport

  /** The value the tracer's store holds for one request. */
  datatype TraceScope = TraceScope(requestId: string)

  /** The value the propagation store holds for one request. */
  datatype PropagationScope = PropagationScope(headers: Headers)

  /** What the tracer attaches to an escaping error. */
  datatype ErrorMeta = ErrorMeta(resTime: string, requestId: string)

  /** An error object: its `meta` property and its other properties. */
  class ErrorObject {
    var meta: Option<ErrorMeta>
    var fields: map<string, string>

    constructor (fields: map<string, string>, meta: Option<ErrorMeta>)
      ensures this.fields == fields && this.meta == meta
    {
      this.fields := fields;
      this.meta := meta;
    }
  }

  /** One observable effect of a middleware. */
  datatype Effect =
    | RequestIn(metadata: RequestMetadata)   // trace-level "request in" on a logger carrying the metadata
    | StageInvoked                           // `next(wrappedNext)`: the next stage is started
    | RequestOut(resTime: string)            // trace-level "request out" on a logger carrying `{resTime}`
    | NextCalled(error: Option<ErrorObject>) // `next()` or `next(error)`

  /** An effect together with the two scope values current when it happened. */
  datatype Event = Event(headerScope: Option<PropagationScope>, traceScope: Option<TraceScope>, effect: Effect)

  /** Effects as recorded under fixed scope values. */
  function Tagged(hs: Option<PropagationScope>, ts: Option<TraceScope>, effects: seq<Effect>): (events: seq<Event>)
    ensures |events| == |effects|
    ensures forall i :: 0 <= i < |effects| ==> events[i] == Event(hs, ts, effects[i])
  {
    seq(|effects|, i requires 0 <= i < |effects| => Event(hs, ts, effects[i]))
  }

  lemma TaggedConcat(hs: Option<PropagationScope>, ts: Option<TraceScope>, a: seq<Effect>, b: seq<Effect>)
    ensures Tagged(hs, ts, a + b) == Tagged(hs, ts, a) + Tagged(hs, ts, b)
  {
  }

  /**
   * The two context stores and the record of effects. `run(value, k)` of a store is
   * modelled as: set the store's current value, run k, put the previous value back.
   */
  class Runtime {
    var headerScope: Option<PropagationScope>
    var traceScope: Option<TraceScope>
    var events: seq<Event>

    constructor ()
      ensures headerScope == None && traceScope == None && events == []
    {
      headerScope := None;
      traceScope := None;
      events := [];
    }

    /** Records one effect under the scope values now current. */
    method Emit(e: Effect)
      modifies this
      ensures headerScope == old(headerScope) && traceScope == old(traceScope)
      ensures events == old(events) + [Event(headerScope, traceScope, e)]
    {
      events := events + [Event(headerScope, traceScope, e)];
    }
  }
}
