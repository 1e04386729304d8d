// The state one run works on: the execution context every stage reads
// (service/run/RunExecutionContext.java) and the response the response
// stages rewrite (service/run/response/HttpRunResponse.java).
module RunContext {
  import opened Wrappers
  import opened Values
  import opened Resources
  import opened Connectivity
  import opened Http
  import opened Strings

  /** The body of a run call: the method to call, a literal request body,
   *  the caller's template inputs (a JSON object, or Null when absent) and
   *  the response format. */
  datatype RunRequest = RunRequest(
    httpMethod: Option<string>,
    body: Option<Value>,
    inputs: Value,
    responseFormat: Option<string>)

  /** The outbound the response stages use: the matched error handler's
   *  when there is one, otherwise the method's own (which may be absent). */
  function ElseMethodOutbound(matched: Option<Outbound>, own: Option<Outbound>): (o: Option<Outbound>)
    ensures matched.Some? ==> o == matched
    ensures matched.None? ==> o == own
  {
    if matched.Some? then matched else own
  }

  /**
   * What the stages of one run share. The run request, method definition,
   * system and token are fixed at construction; only the outbound of the
   * error handler that matched is written later.
   */
  class RunExecutionContext {
    const runRequest: RunRequest
    const resourceMethod: ResourceMethodDefinition
    const subsystem: Subsystem
    const authToken: Option<string>
    var matchedErrorHandlerOutbound: Option<Outbound>

    constructor(runRequest: RunRequest, resourceMethod: ResourceMethodDefinition,
                subsystem: Subsystem, authToken: Option<string>)
      ensures this.runRequest == runRequest && this.resourceMethod == resourceMethod
      ensures this.subsystem == subsystem && this.authToken == authToken
      ensures matchedErrorHandlerOutbound.None?
    {
      this.runRequest := runRequest;
      this.resourceMethod := resourceMethod;
      this.subsystem := subsystem;
      this.authToken := authToken;
      matchedErrorHandlerOutbound := None;
    }

    /** Records the outbound of a matched error handler; a handler without
     *  one records null, which is the same as no match. */
    method SetMatchedErrorOutbound(outbound: Option<Outbound>)
      modifies this
      ensures matchedErrorHandlerOutbound == outbound
    {
      matchedErrorHandlerOutbound := outbound;
    }

    /** The outbound the later response stages use. */
    function MatchedErrorOutboundElseMethodOutbound(): (o: Option<Outbound>)
      reads this
      ensures matchedErrorHandlerOutbound.Some? ==> o == matchedErrorHandlerOutbound
      ensures matchedErrorHandlerOutbound.None? ==> o == resourceMethod.outbound
    {
      ElseMethodOutbound(matchedErrorHandlerOutbound, resourceMethod.outbound)
    }
  }

  /** Setting the matched outbound twice keeps only the second value. */
  method LaterMatchReplacesEarlier(ctx: RunExecutionContext, first: Outbound, second: Option<Outbound>)
    modifies ctx
    ensures ctx.MatchedErrorOutboundElseMethodOutbound() ==
            (if second.Some? then second else ctx.resourceMethod.outbound)
  {
    ctx.SetMatchedErrorOutbound(Some(first));
    ctx.SetMatchedErrorOutbound(second);
  }

  /** The body `asResponseEntity` returns: the transformed text when one was
   *  set, otherwise the original bytes (which may be null). */
  datatype OutputBody = Transformed(text: string) | OriginalBytes(bytes: Option<seq<byte>>)

  /** The response a run returns to its caller. */
  datatype RunOutput = RunOutput(status: int, headers: map<string, seq<string>>, body: OutputBody)

  const ContentLength: string := "content-length"
  const TransferEncoding: string := "transfer-encoding"

  /** The response headers without the framing headers of the original
   *  transfer, which no longer describe the body the caller gets. */
  function WithoutFramingHeaders(h: map<string, seq<string>>): (r: map<string, seq<string>>)
    ensures ContentLength !in r && TransferEncoding !in r
    ensures forall k :: k in r <==> k in h && k != ContentLength && k != TransferEncoding
    ensures forall k :: k in r ==> r[k] == h[k]
  {
    h - {ContentLength, TransferEncoding}
  }

  /** The headers to return: the override, else the original headers less
   *  the framing ones. */
  function HeadersElseOriginal(headers: Option<map<string, seq<string>>>, original: ResponseEntity): (h: map<string, seq<string>>)
    ensures headers.Some? ==> h == headers.value
    ensures headers.None? ==> h == WithoutFramingHeaders(original.headers)
  {
    if headers.Some? then headers.value else WithoutFramingHeaders(original.headers)
  }

  /** The body of a response as text, "" when it has none. */
  function BodyText(response: ResponseEntity, decode: TextDecoder): (s: string)
    ensures response.body.None? ==> s == ""
    ensures response.body.Some? ==> s == decode(response.body.value)
  {
    match response.body
    case Some(bytes) => decode(bytes)
    case None => ""
  }

  /** What a run returns given its overrides: each override, else the
   *  original status, headers less the framing ones, and bytes. */
  function Output(statusCode: Option<int>, headers: Option<map<string, seq<string>>>,
                  transformedBody: Option<string>, original: ResponseEntity): (out: RunOutput)
    ensures statusCode.Some? ==> out.status == statusCode.value
    ensures statusCode.None? ==> out.status == original.status
    ensures out.headers == HeadersElseOriginal(headers, original)
    ensures transformedBody.Some? ==> out.body == Transformed(transformedBody.value)
    ensures transformedBody.None? ==> out.body == OriginalBytes(original.body)
  {
    RunOutput(statusCode.GetOr(original.status), HeadersElseOriginal(headers, original),
              if transformedBody.Some? then Transformed(transformedBody.value) else OriginalBytes(original.body))
  }

  /**
   * The response of a run. The response the executor returned and the
   * request it was sent with are final; the stages may override the status,
   * the headers and the body, and every getter falls back to the original.
   */
  class HttpRunResponse {
    const originalResponse: ResponseEntity
    const request: HttpRequest
    var statusCode: Option<int>
    var httpHeaders: Option<map<string, seq<string>>>
    var transformedBody: Option<string>

    constructor(originalResponse: ResponseEntity, request: HttpRequest)
      ensures this.originalResponse == originalResponse && this.request == request
      ensures statusCode.None? && httpHeaders.None? && transformedBody.None?
    {
      this.originalResponse := originalResponse;
      this.request := request;
      statusCode, httpHeaders, transformedBody := None, None, None;
    }

    /** The status to return: the override, else the original one. */
    function StatusCode(): (c: int)
      reads this
      ensures statusCode.Some? ==> c == statusCode.value
      ensures statusCode.None? ==> c == originalResponse.status
    {
      statusCode.GetOr(originalResponse.status)
    }

    method SetStatusCode(code: int)
      modifies this
      ensures statusCode == Some(code)
      ensures httpHeaders == old(httpHeaders) && transformedBody == old(transformedBody)
    {
      statusCode := Some(code);
    }

    /** The original headers, less Content-Length and Transfer-Encoding. */
    function OriginalHttpHeaders(): (h: map<string, seq<string>>)
      ensures ContentLength !in h && TransferEncoding !in h
      ensures forall k :: k in h <==> k in originalResponse.headers && k != ContentLength && k != TransferEncoding
      ensures forall k :: k in h ==> h[k] == originalResponse.headers[k]
    {
      WithoutFramingHeaders(originalResponse.headers)
    }

    /** The headers to return: the override, else the reduced originals. */
    function HttpHeaders(): (h: map<string, seq<string>>)
      reads this
      ensures httpHeaders.Some? ==> h == httpHeaders.value
      ensures httpHeaders.None? ==> h == OriginalHttpHeaders()
    {
      HeadersElseOriginal(httpHeaders, originalResponse)
    }

    method SetHttpHeaders(headers: map<string, seq<string>>)
      modifies this
      ensures httpHeaders == Some(headers)
      ensures statusCode == old(statusCode) && transformedBody == old(transformedBody)
    {
      httpHeaders := Some(headers);
    }

    /** The original body as text, "" when the response had none. */
    function OriginalBody(decode: TextDecoder): (s: string)
      ensures originalResponse.body.None? ==> s == ""
      ensures originalResponse.body.Some? ==> s == decode(originalResponse.body.value)
    {
      BodyText(originalResponse, decode)
    }

    method SetTransformedBody(body: string)
      modifies this
      ensures transformedBody == Some(body)
      ensures statusCode == old(statusCode) && httpHeaders == old(httpHeaders)
    {
      transformedBody := Some(body);
    }

    /** `asResponseEntity`: the effective status and headers, and the
     *  transformed body if one was set, else the original bytes. */
    function AsResponseEntity(): (out: RunOutput)
      reads this
      ensures out == Output(statusCode, httpHeaders, transformedBody, originalResponse)
      ensures out.status == StatusCode() && out.headers == HttpHeaders()
    {
      Output(statusCode, httpHeaders, transformedBody, originalResponse)
    }
  }

  /** The response a run returns when no stage overrode anything. */
  function Passthrough(original: ResponseEntity): (out: RunOutput)
    ensures out.status == original.status
    ensures ContentLength !in out.headers && TransferEncoding !in out.headers
    ensures forall k :: k in out.headers <==> k in original.headers && k != ContentLength && k != TransferEncoding
    ensures forall k :: k in out.headers ==> out.headers[k] == original.headers[k]
    ensures out.body == OriginalBytes(original.body)
  {
    RunOutput(original.status, WithoutFramingHeaders(original.headers), OriginalBytes(original.body))
  }

  /** A response nobody overrode returns the original status, headers less
   *  the framing ones, and the original bytes unchanged. */
  lemma UntouchedResponsePassesThrough(r: HttpRunResponse)
    requires r.statusCode.None? && r.httpHeaders.None? && r.transformedBody.None?
    ensures r.AsResponseEntity() == Passthrough(r.originalResponse)
  {
  }

  /** The overrides are all the effective getters depend on besides the
   *  original: overriding every part hides the original entirely. */
  lemma OverridesHideOriginal(r: HttpRunResponse, code: int, headers: map<string, seq<string>>, body: string)
    requires r.statusCode == Some(code) && r.httpHeaders == Some(headers) && r.transformedBody == Some(body)
    ensures r.AsResponseEntity() == RunOutput(code, headers, Transformed(body))
  {
  }
}
