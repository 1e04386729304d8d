// A resource configuration as stored, and the definition of one resource
// method that a run works from (model/resources/ResourceMethodDefinition.java).
module Resources {
  import opened Wrappers
  import opened Seqs

  datatype RetryPolicy = RetryPolicy(maxRetries: int, backOffSeconds: int)

  /** Retry with `retryPolicy` when `retryCondition` renders to "true". */
  datatype RetryHandler = RetryHandler(retryCondition: string, retryPolicy: RetryPolicy)

  /** A header map in document order; a value list may be null. */
  type HeaderEntries = seq<(string, Option<seq<string>>)>

  /** Templates for the status, body and headers of the response. */
  datatype Outbound = Outbound(
    code: Option<string>,
    transformationOutTemplate: Option<string>,
    headers: Option<HeaderEntries>)

  /** Apply `outbound` instead of the method's when `errorCondition` renders to "true". */
  datatype ErrorHandler = ErrorHandler(errorCondition: string, outbound: Option<Outbound>)

  /** Request-side settings; request header keys are exact and a value in a
   *  list may be null. */
  datatype Inbound = Inbound(
    queryParams: Option<string>,
    transformationInTemplate: Option<string>,
    headers: Option<map<string, seq<Option<string>>>>,
    encodeUrl: Option<bool>)

  datatype ResourceMethodProperty = ResourceMethodProperty(
    inbound: Option<Inbound>,
    outbound: Option<Outbound>,
    retryHandlers: Option<seq<RetryHandler>>,
    errorHandlers: Option<seq<ErrorHandler>>)

  /** A resource: a path and its methods, in document order. */
  datatype Resource = Resource(path: Option<string>, methods: seq<(string, ResourceMethodProperty)>)

  datatype ResourceConfiguration = ResourceConfiguration(
    name: string,
    resources: map<string, Resource>,
    globalRetryHandlers: Option<seq<RetryHandler>>,
    globalErrorHandlers: Option<seq<ErrorHandler>>,
    globalRequestHeaders: Option<map<string, seq<Option<string>>>>,
    globalResponseHeaders: Option<HeaderEntries>)

  function ListOrEmpty<T>(l: Option<seq<T>>): seq<T>
  {
    if l.Some? then l.value else []
  }

  function MapOrEmpty<V>(m: Option<map<string, V>>): map<string, V>
  {
    if m.Some? then m.value else map[]
  }

  /** The effective handler list: local entries, then global ones. */
  function LocalThenGlobal<T>(local: Option<seq<T>>, global: Option<seq<T>>): seq<T>
  {
    ListOrEmpty(local) + ListOrEmpty(global)
  }

  /** A first-match scan of the effective list picks a local handler whenever
   *  one matches, and a global one only when none does. */
  lemma LocalHandlersTakePrecedence<T>(local: Option<seq<T>>, global: Option<seq<T>>, p: T -> bool)
    ensures FindFirst(LocalThenGlobal(local, global), p) ==
            (if FindFirst(ListOrEmpty(local), p).Some? then FindFirst(ListOrEmpty(local), p)
             else FindFirst(ListOrEmpty(global), p))
  {
    FindFirstAppend(ListOrEmpty(local), ListOrEmpty(global), p);
  }

  /** The effective request headers: the global map overlaid by the inbound one. */
  function GlobalOverlaidByLocal<V>(global: Option<map<string, V>>, local: Option<map<string, V>>): map<string, V>
  {
    MapOrEmpty(global) + MapOrEmpty(local)
  }

  /** Keys of either map survive, the local value wins, and keys are compared
   *  exactly ("X-A" and "x-a" are two headers). */
  lemma OverlayKeepsKeysLocalWins<V>(global: Option<map<string, V>>, local: Option<map<string, V>>, k: string)
    ensures k in GlobalOverlaidByLocal(global, local) <==> k in MapOrEmpty(global) || k in MapOrEmpty(local)
    ensures k in MapOrEmpty(local) ==> GlobalOverlaidByLocal(global, local)[k] == MapOrEmpty(local)[k]
    ensures k !in MapOrEmpty(local) && k in MapOrEmpty(global) ==>
              GlobalOverlaidByLocal(global, local)[k] == MapOrEmpty(global)[k]
  {
  }

  /** Overlaying the same local map again changes nothing. */
  lemma OverlayIdempotent<V>(global: Option<map<string, V>>, local: Option<map<string, V>>)
    ensures GlobalOverlaidByLocal(Some(GlobalOverlaidByLocal(global, local)), local) ==
            GlobalOverlaidByLocal(global, local)
  {
  }

  /**
   * The definition of one resource method. The method's own handler lists
   * and the configuration's global request-header map are mutable: the
   * getters append to / put into the stored objects and return them.
   */
  class ResourceMethodDefinition {
    const methodName: string
    const path: Option<string>
    const inbound: Option<Inbound>
    const outbound: Option<Outbound>
    const globalRetryHandlers: Option<seq<RetryHandler>>
    const globalErrorHandlers: Option<seq<ErrorHandler>>
    const globalResponseHeaders: Option<HeaderEntries>
    var methodRetryHandlers: Option<seq<RetryHandler>>
    var methodErrorHandlers: Option<seq<ErrorHandler>>
    var globalRequestHeaders: Option<map<string, seq<Option<string>>>>

    constructor(name: string, m: ResourceMethodProperty, r: Resource, c: ResourceConfiguration)
      ensures methodName == name && path == r.path
      ensures inbound == m.inbound && outbound == m.outbound
      ensures methodRetryHandlers == m.retryHandlers && methodErrorHandlers == m.errorHandlers
      ensures globalRetryHandlers == c.globalRetryHandlers && globalErrorHandlers == c.globalErrorHandlers
      ensures globalRequestHeaders == c.globalRequestHeaders
      ensures globalResponseHeaders == c.globalResponseHeaders
    {
      methodName, path := name, r.path;
      inbound, outbound := m.inbound, m.outbound;
      methodRetryHandlers, methodErrorHandlers := m.retryHandlers, m.errorHandlers;
      globalRetryHandlers, globalErrorHandlers := c.globalRetryHandlers, c.globalErrorHandlers;
      globalRequestHeaders, globalResponseHeaders := c.globalRequestHeaders, c.globalResponseHeaders;
    }

    /** `getRetryHandlers`: local then global handlers. When the method has its
     *  own list, the global handlers are appended to that stored list. */
    method GetRetryHandlers() returns (hs: seq<RetryHandler>)
      modifies this
      ensures hs == LocalThenGlobal(old(methodRetryHandlers), globalRetryHandlers)
      ensures methodRetryHandlers == (if old(methodRetryHandlers).Some? then Some(hs) else None)
      ensures methodErrorHandlers == old(methodErrorHandlers)
      ensures globalRequestHeaders == old(globalRequestHeaders)
    {
      hs := LocalThenGlobal(methodRetryHandlers, globalRetryHandlers);
      if methodRetryHandlers.Some? {
        methodRetryHandlers := Some(hs);
      }
    }

    /** `getErrorHandlers`: the same shape for error handlers. */
    method GetErrorHandlers() returns (hs: seq<ErrorHandler>)
      modifies this
      ensures hs == LocalThenGlobal(old(methodErrorHandlers), globalErrorHandlers)
      ensures methodErrorHandlers == (if old(methodErrorHandlers).Some? then Some(hs) else None)
      ensures methodRetryHandlers == old(methodRetryHandlers)
      ensures globalRequestHeaders == old(globalRequestHeaders)
    {
      hs := LocalThenGlobal(methodErrorHandlers, globalErrorHandlers);
      if methodErrorHandlers.Some? {
        methodErrorHandlers := Some(hs);
      }
    }

    /** The inbound header map, if the method has an inbound spec with headers. */
    function InboundHeaders(): Option<map<string, seq<Option<string>>>>
    {
      if inbound.Some? then inbound.value.headers else None
    }

    /** `getRequestHeaders`: the global map overlaid by the inbound headers.
     *  When a global map exists, the inbound entries are put into it. */
    method GetRequestHeaders() returns (h: map<string, seq<Option<string>>>)
      modifies this
      ensures h == GlobalOverlaidByLocal(old(globalRequestHeaders), InboundHeaders())
      ensures globalRequestHeaders == (if old(globalRequestHeaders).Some? then Some(h) else None)
      ensures methodRetryHandlers == old(methodRetryHandlers)
      ensures methodErrorHandlers == old(methodErrorHandlers)
    {
      h := GlobalOverlaidByLocal(globalRequestHeaders, InboundHeaders());
      if globalRequestHeaders.Some? {
        globalRequestHeaders := Some(h);
      }
    }
  }

  /** Because the result is the stored list, a second call appends the global
   *  handlers once more. */
  method RepeatedRetryHandlerCalls(local: RetryHandler, global: RetryHandler)
    returns (first: seq<RetryHandler>, second: seq<RetryHandler>)
    ensures first == [local, global]
    ensures second == [local, global, global]
  {
    var m := ResourceMethodProperty(None, None, Some([local]), None);
    var c := ResourceConfiguration("config", map[], Some([global]), None, None, None);
    var d := new ResourceMethodDefinition("GET", m, Resource(None, [("GET", m)]), c);
    first := d.GetRetryHandlers();
    second := d.GetRetryHandlers();
  }

  /** Without a local list there is nothing to alias: every call returns the
   *  same fresh list. */
  method RepeatedCallsWithoutLocalList(global: RetryHandler)
    returns (first: seq<RetryHandler>, second: seq<RetryHandler>)
    ensures first == [global] && second == [global]
  {
    var m := ResourceMethodProperty(None, None, None, None);
    var c := ResourceConfiguration("config", map[], Some([global]), None, None, None);
    var d := new ResourceMethodDefinition("GET", m, Resource(None, [("GET", m)]), c);
    first := d.GetRetryHandlers();
    second := d.GetRetryHandlers();
  }
}
