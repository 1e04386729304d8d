// The response stages: each one reads the response a run got back and the
// request it sent, and may override the status, headers or body of the
// run's response or record a matched error handler
// (service/run/response/*Consumer.java). Templates are rendered against the
// response substitution context
// (service/run/response/HttpResponseSubstitutionContext.java), which is
// built from the original response only.
//
// As on the request side, each stage is a function from the overridable
// state before it to the state after it, or to the exception it throws, and
// the stage method is proved to have exactly that effect.
module ResponseStages {
  import opened Wrappers
  import opened Strings
  import opened Errors
  import opened Values
  import opened Resources
  import opened Connectivity
  import opened Http
  import opened CiMaps
  import opened RunContext
  import opened RequestStages

  // ---------------------------------------------------------------------
  // What the stages read and write

  /** The request as sent and the response as received; neither changes. */
  datatype Exchange = Exchange(request: RequestData, original: ResponseEntity)

  /** The overridable parts of the run response, and the outbound of the
   *  error handler that matched. */
  datatype ResponseState = ResponseState(
    statusCode: Option<int>,
    httpHeaders: Option<map<string, seq<string>>>,
    transformedBody: Option<string>,
    matchedOutbound: Option<Outbound>)

  function StateOf(resp: HttpRunResponse, ctx: RunExecutionContext): ResponseState
    reads resp, ctx
  {
    ResponseState(resp.statusCode, resp.httpHeaders, resp.transformedBody, ctx.matchedErrorHandlerOutbound)
  }

  function ExchangeOf(resp: HttpRunResponse): Exchange
    reads resp.request
  {
    Exchange(resp.request.State(), resp.originalResponse)
  }

  /** The outbound the stages after the error stage use. */
  function EffectiveOutbound(st: ResponseState, ctx: RunExecutionContext): Option<Outbound>
  {
    ElseMethodOutbound(st.matchedOutbound, ctx.resourceMethod.outbound)
  }

  // ---------------------------------------------------------------------
  // The response substitution context

  /** The `request` entry: method, url, body and headers of the request as
   *  it was sent, null where unset. */
  function SentRequestProperties(d: RequestData): map<string, Value>
  {
    map["method" := TextOrNull(d.httpMethod),
        "url" := TextOrNull(d.url),
        "body" := (if d.body.Some? then BodyValue(d.body.value) else Null),
        "headers" := (if d.headers.Some? then HeadersValue(d.headers.value) else Null)]
  }

  /** The `response` entry: the original body (parsed when it is JSON text,
   *  "" when there is none), the original status and the original headers
   *  less the framing ones. */
  function OriginalResponseProperties(original: ResponseEntity, sub: Substitution): map<string, Value>
  {
    map["body" := JsonOrRaw(sub.readJson, BodyText(original, sub.decode)),
        "code" := Int(original.status),
        "headers" := HeadersValue(WithoutFramingHeaders(original.headers))]
  }

  /** `HttpResponseSubstitutionContext.get`: `inputs`, the token under the
   *  auth key of the system's OWN connection, then `request` and
   *  `response`, each replacing an earlier entry of the same name. Reading
   *  the connection throws when the system has none. */
  function ResponseSubstitutionContext(x: Exchange, ctx: RunExecutionContext, sub: Substitution): (r: Result<Value, Error>)
    ensures r.Ok? <==> GetConnection(ctx.subsystem).Ok?
    ensures r.Err? ==> r.error == Unexpected(IndexOutOfBounds)
    ensures r.Ok? ==> r.value.Object?
  {
    var c :- GetConnection(ctx.subsystem);
    var fields := PutToken(map["inputs" := ctx.runRequest.inputs], c.authKey, ctx.authToken);
    Ok(Object(fields["request" := Object(SentRequestProperties(x.request))]
                    ["response" := Object(OriginalResponseProperties(x.original, sub))]))
  }

  /** What a template sees: the sent request and the original response
   *  always, the inputs unless the auth key is "inputs", and the token
   *  under the auth key unless that names one of the other two. The
   *  overrides of earlier stages are not visible. */
  lemma ResponseContextEntries(x: Exchange, ctx: RunExecutionContext, sub: Substitution)
    requires GetConnection(ctx.subsystem).Ok?
    ensures var v := ResponseSubstitutionContext(x, ctx, sub).value;
            var key := GetConnection(ctx.subsystem).value.authKey;
            && Field(v, "request") == Some(Object(SentRequestProperties(x.request)))
            && Field(v, "response") == Some(Object(OriginalResponseProperties(x.original, sub)))
            && (key != Some("inputs") ==> Field(v, "inputs") == Some(ctx.runRequest.inputs))
            && (key.Some? && key.value != "request" && key.value != "response" ==>
                  Field(v, key.value) == Some(TextOrNull(ctx.authToken)))
            && (forall k :: k in v.fields ==> k in {"inputs", "request", "response"} || Some(k) == key)
  {
  }

  /** Unlike the request side, the token is filed under the system's own
   *  auth key even when an auth subsystem is attached; the auth
   *  subsystem's key names nothing. */
  lemma TokenUnderOwnKey(x: Exchange, ctx: RunExecutionContext, sub: Substitution, a: Subsystem, own: string, theirs: string)
    requires ctx.subsystem.authSubsystem == Some(a)
    requires |ctx.subsystem.connectionProperties| > 0 && ctx.subsystem.connectionProperties[0].authKey == Some(own)
    requires |a.connectionProperties| > 0 && a.connectionProperties[0].authKey == Some(theirs)
    requires own != theirs && own != "request" && own != "response"
    requires theirs != "inputs" && theirs != "request" && theirs != "response"
    ensures Field(ResponseSubstitutionContext(x, ctx, sub).value, own) == Some(TextOrNull(ctx.authToken))
    ensures Field(ResponseSubstitutionContext(x, ctx, sub).value, theirs) == None
    ensures Field(RequestSubstitutionContext(x.request.body, ctx).value, theirs) == Some(TextOrNull(ctx.authToken))
  {
    ResponseContextEntries(x, ctx, sub);
    TokenUnderAuthSubsystemKey(x.request.body, ctx, a, theirs);
  }

  // ---------------------------------------------------------------------
  // Content type (ordered first)

  /** `HttpResponseContentTypeConsumer.apply`: an XML response, whatever the
   *  case of the subtype, is refused; a Content-Type that is not a media
   *  type throws while being read; anything else passes. */
  function ContentTypeCheck(headers: map<string, seq<string>>): (r: Outcome<Error>)
    ensures ContentTypeValue(headers).None? ==> r == Pass
    ensures ContentSubtype(headers).Err? ==> r == Fail(ContentSubtype(headers).error)
    ensures ContentSubtype(headers).Ok? ==>
              (r.Fail? <==> ContentSubtype(headers).value.Some? && EqualsIgnoreCase("xml", ContentSubtype(headers).value.value))
    ensures ContentSubtype(headers).Ok? && r.Fail? ==> r.error == RestError(ContentTypeInHttpResponseNotSupported)
  {
    match ContentSubtype(headers)
    case Err(e) => Fail(e)
    case Ok(Some(sub)) =>
      if EqualsIgnoreCase("xml", sub) then Fail(RestError(ContentTypeInHttpResponseNotSupported)) else Pass
    case Ok(None) => Pass
  }

  /** The check reads the effective headers and changes nothing. */
  function ContentTypeStage(st: ResponseState, x: Exchange): (r: Result<ResponseState, Error>)
    ensures r.Ok? <==> ContentTypeCheck(HeadersElseOriginal(st.httpHeaders, x.original)).Pass?
    ensures r.Ok? ==> r.value == st
    ensures r.Err? ==> r.error == ContentTypeCheck(HeadersElseOriginal(st.httpHeaders, x.original)).error
  {
    match ContentTypeCheck(HeadersElseOriginal(st.httpHeaders, x.original))
    case Pass => Ok(st)
    case Fail(e) => Err(e)
  }

  /** A response whose first Content-Type value is the media type `t/s`,
   *  with any parameters, is refused exactly when `s` is "xml" in some
   *  letter case, and passes otherwise. */
  lemma XmlResponseRefused(headers: map<string, seq<string>>, t: string, s: string, p: string)
    requires MediaText(t, s, p) && ValidMediaParts(t, s)
    requires "content-type" in headers && |headers["content-type"]| > 0 && headers["content-type"][0] == t + "/" + s + p
    ensures ContentTypeCheck(headers) == Fail(RestError(ContentTypeInHttpResponseNotSupported)) <==> Lower(s) == "xml"
    ensures Lower(s) != "xml" ==> ContentTypeCheck(headers) == Pass
  {
    HeaderSubtype(headers, t, s, p);
    LowerIdempotent(s);
    CheckOfSubtype(headers, Lower(s));
  }

  lemma CheckOfSubtype(headers: map<string, seq<string>>, sub: string)
    requires ContentSubtype(headers) == Ok(Some(sub)) && Lower(sub) == sub
    ensures ContentTypeCheck(headers) == if sub == "xml" then Fail(RestError(ContentTypeInHttpResponseNotSupported)) else Pass
  {
    XmlIgnoringCase(sub);
  }

  lemma XmlIgnoringCase(sub: string)
    requires Lower(sub) == sub
    ensures EqualsIgnoreCase("xml", sub) <==> sub == "xml"
  {
    LowerUnchanged("xml");
  }

  /** A Content-Type without a '/' (other than the bare wildcard) is not a
   *  media type, and reading it throws. */
  lemma MalformedContentTypeThrows(headers: map<string, seq<string>>)
    requires "content-type" in headers && |headers["content-type"]| > 0
    requires var v := headers["content-type"][0]; v != "" && '/' !in v && FullType(v) != "*/*"
    ensures ContentTypeCheck(headers) == Fail(Unexpected(InvalidMediaType))
  {
    var v := headers["content-type"][0];
    assert ContentTypeValue(headers) == Some(v);
    SubtypeRequired(v);
  }

  method ApplyContentType(resp: HttpRunResponse, ctx: RunExecutionContext) returns (r: Outcome<Error>)
    ensures Applied(StateOf(resp, ctx), ContentTypeStage(StateOf(resp, ctx), ExchangeOf(resp)), r, StateOf(resp, ctx))
  {
    var headers := resp.HttpHeaders();
    var sub := ContentSubtype(headers);
    if sub.Err? {
      return Fail(sub.error);
    }
    if sub.value.Some? && EqualsIgnoreCase("xml", sub.value.value) {
      return Fail(RestError(ContentTypeInHttpResponseNotSupported));
    }
    r := Pass;
  }

  // ---------------------------------------------------------------------
  // Error handlers (ordered second)

  /** The condition of a handler: its rendering parses as true
   *  (`Boolean.parseBoolean`). A failing rendering throws. */
  function ConditionMet(render: Renderer, h: ErrorHandler, sc: Value): (r: Result<bool, Error>)
    ensures r.Ok? <==> render(h.errorCondition, sc).Some?
    ensures r.Ok? ==> (r.value <==> EqualsIgnoreCase(render(h.errorCondition, sc).value, "true"))
    ensures r.Err? ==> r.error == RestError(SubstitutionFailed)
  {
    var text :- Render(render, h.errorCondition, sc);
    Ok(ParseBoolean(text))
  }

  /** `getMatchedErrorHandler`: the position of the first handler whose
   *  condition holds. The stream stops there, so the conditions after it
   *  are never rendered; a condition before it that fails to render ends
   *  the stage with that failure. */
  function MatchedIndex(hs: seq<ErrorHandler>, render: Renderer, sc: Value): (r: Result<Option<nat>, Error>)
    ensures r.Ok? && r.value.Some? ==> r.value.value < |hs|
    ensures r.Err? ==> r.error == RestError(SubstitutionFailed)
    decreases |hs|
  {
    if |hs| == 0 then Ok(None)
    else
      var met :- ConditionMet(render, hs[0], sc);
      if met then Ok(Some(0))
      else
        var rest :- MatchedIndex(hs[1..], render, sc);
        Ok(if rest.Some? then Some(rest.value + 1) else None)
  }

  /** A scan that finds something stops at a handler whose condition holds
   *  after only false ones; a scan that finds nothing saw only false ones. */
  lemma {:induction false} MatchedIndexOk(hs: seq<ErrorHandler>, render: Renderer, sc: Value)
    ensures var r := MatchedIndex(hs, render, sc);
            r.Ok? ==>
              && (r.value.Some? ==> ConditionMet(render, hs[r.value.value], sc) == Ok(true))
              && forall j :: 0 <= j < (if r.value.Some? then r.value.value else |hs|) ==>
                   ConditionMet(render, hs[j], sc) == Ok(false)
    decreases |hs|
  {
    if |hs| > 0 {
      var tail := hs[1..];
      var first := ConditionMet(render, hs[0], sc);
      if first.Ok? && !first.value {
        MatchedIndexOk(tail, render, sc);
        assert forall j :: 1 <= j < |hs| ==> hs[j] == tail[j - 1];
        match MatchedIndex(tail, render, sc)
        case Err(_) =>
        case Ok(None) =>
          assert MatchedIndex(hs, render, sc) == Ok(None);
        case Ok(Some(k)) =>
          assert MatchedIndex(hs, render, sc) == Ok(Some(k + 1));
      }
    }
  }

  /** A scan that fails stopped at a condition that does not render, after
   *  only false ones. */
  lemma {:induction false} MatchedIndexErr(hs: seq<ErrorHandler>, render: Renderer, sc: Value)
    ensures MatchedIndex(hs, render, sc).Err? ==>
              exists i :: 0 <= i < |hs| && ConditionMet(render, hs[i], sc).Err? &&
                forall j :: 0 <= j < i ==> ConditionMet(render, hs[j], sc) == Ok(false)
    decreases |hs|
  {
    if |hs| > 0 {
      var tail := hs[1..];
      var first := ConditionMet(render, hs[0], sc);
      if first.Err? {
        assert ConditionMet(render, hs[0], sc).Err?;
      } else if !first.value && MatchedIndex(tail, render, sc).Err? {
        MatchedIndexErr(tail, render, sc);
        var i :| 0 <= i < |tail| && ConditionMet(render, tail[i], sc).Err? &&
                 forall j :: 0 <= j < i ==> ConditionMet(render, tail[j], sc) == Ok(false);
        assert forall j :: 1 <= j <= i + 1 ==> hs[j] == tail[j - 1];
        assert ConditionMet(render, hs[i + 1], sc).Err?;
      }
    }
  }

  /** What the scan finds: a match is a handler whose condition holds
   *  after only false ones; no match means every condition is false; a
   *  failure comes from a condition that does not render after only false
   *  ones. */
  lemma MatchedIndexMeaning(hs: seq<ErrorHandler>, render: Renderer, sc: Value)
    ensures var r := MatchedIndex(hs, render, sc);
            && (r.Ok? && r.value.Some? ==> ConditionMet(render, hs[r.value.value], sc) == Ok(true))
            && (r.Ok? ==> forall j :: 0 <= j < (if r.value.Some? then r.value.value else |hs|) ==>
                            ConditionMet(render, hs[j], sc) == Ok(false))
            && (r.Err? ==> exists i :: 0 <= i < |hs| && ConditionMet(render, hs[i], sc).Err? &&
                             forall j :: 0 <= j < i ==> ConditionMet(render, hs[j], sc) == Ok(false))
  {
    MatchedIndexOk(hs, render, sc);
    MatchedIndexErr(hs, render, sc);
  }

  /** With the method's handlers before the global ones, a method handler
   *  that matches (or fails to render) decides the outcome before any
   *  global handler is looked at; only when none of them matches are the
   *  global handlers tried. */
  lemma {:induction false} LocalErrorHandlersFirst(local: seq<ErrorHandler>, global: seq<ErrorHandler>, render: Renderer, sc: Value)
    ensures MatchedIndex(local + global, render, sc) ==
            match MatchedIndex(local, render, sc)
            case Err(e) => Err(e)
            case Ok(Some(i)) => Ok(Some(i))
            case Ok(None) =>
              match MatchedIndex(global, render, sc)
              case Ok(Some(j)) => Ok(Some(|local| + j))
              case other => other
  {
    var hs := local + global;
    if |local| == 0 {
      assert hs == global;
    } else {
      assert hs[0] == local[0];
      assert hs[1..] == local[1..] + global;
      LocalErrorHandlersFirst(local[1..], global, render, sc);
      var first := ConditionMet(render, local[0], sc);
      if first.Err? {
        assert MatchedIndex(hs, render, sc) == Err(first.error);
        assert MatchedIndex(local, render, sc) == Err(first.error);
      } else if first.value {
        assert MatchedIndex(hs, render, sc) == Ok(Some(0));
        assert MatchedIndex(local, render, sc) == Ok(Some(0));
      } else {
        assert MatchedIndex(hs, render, sc) ==
               match MatchedIndex(hs[1..], render, sc)
               case Err(e) => Err(e)
               case Ok(i) => Ok(if i.Some? then Some(i.value + 1) else None);
        assert MatchedIndex(local, render, sc) ==
               match MatchedIndex(local[1..], render, sc)
               case Err(e) => Err(e)
               case Ok(i) => Ok(if i.Some? then Some(i.value + 1) else None);
      }
    }
  }

  /** `HttpResponseErrorConsumer.apply` on the handler list `hs`: the
   *  context is built first; the first matching handler's outbound is
   *  recorded. Only the matched outbound changes. */
  function ErrorStage(st: ResponseState, x: Exchange, ctx: RunExecutionContext, hs: seq<ErrorHandler>, sub: Substitution): (r: Result<ResponseState, Error>)
    ensures r.Ok? ==> r.value == st.(matchedOutbound := r.value.matchedOutbound)
  {
    var sc :- ResponseSubstitutionContext(x, ctx, sub);
    var i :- MatchedIndex(hs, sub.render, sc);
    if i.Some? then Ok(st.(matchedOutbound := hs[i.value].outbound)) else Ok(st)
  }

  /** The handler recorded is the first whose condition holds: when handler
   *  `i` matches and every earlier condition renders false, its outbound
   *  (possibly null) is what the stage records. */
  lemma FirstMatchRecorded(st: ResponseState, x: Exchange, ctx: RunExecutionContext, hs: seq<ErrorHandler>, sub: Substitution, i: nat)
    requires ResponseSubstitutionContext(x, ctx, sub).Ok?
    requires i < |hs|
    requires ConditionMet(sub.render, hs[i], ResponseSubstitutionContext(x, ctx, sub).value) == Ok(true)
    requires forall j :: 0 <= j < i ==> ConditionMet(sub.render, hs[j], ResponseSubstitutionContext(x, ctx, sub).value) == Ok(false)
    ensures ErrorStage(st, x, ctx, hs, sub) == Ok(st.(matchedOutbound := hs[i].outbound))
  {
    var sc := ResponseSubstitutionContext(x, ctx, sub).value;
    MatchedIndexMeaning(hs, sub.render, sc);
    var m := MatchedIndex(hs, sub.render, sc);
    if m.Err? {
      assert false;
    } else if m.value.None? {
      assert false;
    } else {
      var k := m.value.value;
      assert ConditionMet(sub.render, hs[k], sc) == Ok(true);
      assert k == i;
    }
  }

  /** When no condition holds, the stage records nothing. */
  lemma NoMatchLeavesStateUnchanged(st: ResponseState, x: Exchange, ctx: RunExecutionContext, hs: seq<ErrorHandler>, sub: Substitution)
    requires ResponseSubstitutionContext(x, ctx, sub).Ok?
    requires forall i :: 0 <= i < |hs| ==>
               sub.render(hs[i].errorCondition, ResponseSubstitutionContext(x, ctx, sub).value) == Some("false")
    ensures ErrorStage(st, x, ctx, hs, sub) == Ok(st)
  {
    var sc := ResponseSubstitutionContext(x, ctx, sub).value;
    MatchedIndexMeaning(hs, sub.render, sc);
    assert forall i :: 0 <= i < |hs| ==> ConditionMet(sub.render, hs[i], sc) == Ok(false) by {
      assert Lower("false") != Lower("true") by { assert Lower("false")[0] == 'f'; }
    }
  }

  /** A handler that matches but has no outbound records null: the later
   *  stages then use the method's own outbound, exactly as if nothing had
   *  matched. */
  lemma HandlerWithoutOutboundIsNoMatch(st: ResponseState, x: Exchange, ctx: RunExecutionContext, hs: seq<ErrorHandler>, sub: Substitution)
    requires st.matchedOutbound.None?
    requires ResponseSubstitutionContext(x, ctx, sub).Ok?
    requires var i := MatchedIndex(hs, sub.render, ResponseSubstitutionContext(x, ctx, sub).value);
             i.Ok? && i.value.Some? && hs[i.value.value].outbound.None?
    ensures ErrorStage(st, x, ctx, hs, sub) == Ok(st)
    ensures EffectiveOutbound(ErrorStage(st, x, ctx, hs, sub).value, ctx) == ctx.resourceMethod.outbound
  {
  }

  /** A condition that does not render is not taken as false: it fails the
   *  stage, even when a later handler would match. */
  lemma FailingConditionFailsStage(st: ResponseState, x: Exchange, ctx: RunExecutionContext, hs: seq<ErrorHandler>, sub: Substitution)
    requires |hs| > 0 && ResponseSubstitutionContext(x, ctx, sub).Ok?
    requires sub.render(hs[0].errorCondition, ResponseSubstitutionContext(x, ctx, sub).value).None?
    ensures ErrorStage(st, x, ctx, hs, sub) == Err(RestError(SubstitutionFailed))
  {
  }

  /** The stage reads the handlers through `getErrorHandlers`, which appends
   *  the global handlers to the method's stored list when there is one. */
  method ApplyError(resp: HttpRunResponse, ctx: RunExecutionContext, sub: Substitution) returns (r: Outcome<Error>)
    modifies ctx, ctx.resourceMethod
    ensures Applied(old(StateOf(resp, ctx)),
                    ErrorStage(old(StateOf(resp, ctx)), ExchangeOf(resp), ctx,
                               LocalThenGlobal(old(ctx.resourceMethod.methodErrorHandlers), ctx.resourceMethod.globalErrorHandlers),
                               sub),
                    r, StateOf(resp, ctx))
    ensures ctx.resourceMethod.methodErrorHandlers ==
            (if GetConnection(ctx.subsystem).Ok? && old(ctx.resourceMethod.methodErrorHandlers).Some?
             then Some(LocalThenGlobal(old(ctx.resourceMethod.methodErrorHandlers), ctx.resourceMethod.globalErrorHandlers))
             else old(ctx.resourceMethod.methodErrorHandlers))
    ensures ctx.resourceMethod.methodRetryHandlers == old(ctx.resourceMethod.methodRetryHandlers)
    ensures ctx.resourceMethod.globalRequestHeaders == old(ctx.resourceMethod.globalRequestHeaders)
  {
    var sc := ResponseSubstitutionContext(ExchangeOf(resp), ctx, sub);
    if sc.Err? {
      return Fail(sc.error);
    }
    var hs := ctx.resourceMethod.GetErrorHandlers();
    var i := MatchedIndex(hs, sub.render, sc.value);
    if i.Err? {
      return Fail(i.error);
    }
    if i.value.Some? {
      ctx.SetMatchedErrorOutbound(hs[i.value.value].outbound);
    }
    r := Pass;
  }

  // ---------------------------------------------------------------------
  // Body

  /** The out template of an outbound, if any. */
  function OutTemplate(o: Option<Outbound>): Option<string>
  {
    if o.Some? then o.value.transformationOutTemplate else None
  }

  /** `HttpJsonResponseBodyConsumer.apply`: with an out template in the
   *  effective outbound, the body becomes its rendering; otherwise nothing
   *  happens (and no context is built). Only the body changes. */
  function JsonBodyStage(st: ResponseState, x: Exchange, ctx: RunExecutionContext, sub: Substitution): (r: Result<ResponseState, Error>)
    ensures r.Ok? ==> r.value == st.(transformedBody := r.value.transformedBody)
    ensures OutTemplate(EffectiveOutbound(st, ctx)).None? ==> r == Ok(st)
    ensures OutTemplate(EffectiveOutbound(st, ctx)).Some? ==>
              (r.Ok? <==> ResponseSubstitutionContext(x, ctx, sub).Ok? &&
                          sub.render(OutTemplate(EffectiveOutbound(st, ctx)).value, ResponseSubstitutionContext(x, ctx, sub).value).Some?)
    ensures OutTemplate(EffectiveOutbound(st, ctx)).Some? && r.Ok? ==>
              r.value.transformedBody == sub.render(OutTemplate(EffectiveOutbound(st, ctx)).value, ResponseSubstitutionContext(x, ctx, sub).value)
  {
    match OutTemplate(EffectiveOutbound(st, ctx))
    case None => Ok(st)
    case Some(t) =>
      var sc :- ResponseSubstitutionContext(x, ctx, sub);
      var body :- Render(sub.render, t, sc);
      Ok(st.(transformedBody := Some(body)))
  }

  /** The template of a matched error handler's outbound is used instead of
   *  the method's, whatever the method's says. */
  lemma ErrorOutboundTemplateWins(st: ResponseState, x: Exchange, ctx: RunExecutionContext, sub: Substitution, o: Outbound, t: string, body: string)
    requires st.matchedOutbound == Some(o) && o.transformationOutTemplate == Some(t)
    requires ResponseSubstitutionContext(x, ctx, sub).Ok?
    requires sub.render(t, ResponseSubstitutionContext(x, ctx, sub).value) == Some(body)
    ensures JsonBodyStage(st, x, ctx, sub) == Ok(st.(transformedBody := Some(body)))
  {
  }

  method ApplyJsonBody(resp: HttpRunResponse, ctx: RunExecutionContext, sub: Substitution) returns (r: Outcome<Error>)
    modifies resp
    ensures Applied(old(StateOf(resp, ctx)), JsonBodyStage(old(StateOf(resp, ctx)), ExchangeOf(resp), ctx, sub),
                    r, StateOf(resp, ctx))
  {
    var template := OutTemplate(ctx.MatchedErrorOutboundElseMethodOutbound());
    if template.Some? {
      var sc := ResponseSubstitutionContext(ExchangeOf(resp), ctx, sub);
      if sc.Err? {
        return Fail(sc.error);
      }
      var body := Render(sub.render, template.value, sc.value);
      if body.Err? {
        return Fail(body.error);
      }
      resp.SetTransformedBody(body.value);
    }
    r := Pass;
  }

  // ---------------------------------------------------------------------
  // Headers

  /** The entries of a configured header map whose value list is not null,
   *  in order. */
  function Present(es: HeaderEntries): (r: seq<(string, seq<string>)>)
    ensures |r| <= |es|
    ensures forall e :: e in r <==> (e.0, Some(e.1)) in es
  {
    if |es| == 0 then []
    else (if es[0].1.Some? then [(es[0].0, es[0].1.value)] else []) + Present(es[1..])
  }

  /** The names `Present` keeps are those with a value list, folded. */
  lemma PresentNames(es: HeaderEntries)
    ensures (set e | e in Present(es) :: Lower(e.0)) == (set e | e in es && e.1.Some? :: Lower(e.0))
  {
    forall e | e in es && e.1.Some?
      ensures Lower(e.0) in set e | e in Present(es) :: Lower(e.0)
    {
      assert (e.0, e.1.value) in Present(es);
    }
  }

  /** The header entries of an outbound, none when either is absent. */
  function OutboundHeaders(o: Option<Outbound>): HeaderEntries
  {
    if o.Some? && o.value.headers.Some? then o.value.headers.value else []
  }

  /** The case-insensitive map of configured response headers: the global
   *  entries, then the outbound's, each without its null-valued entries. */
  function ConfigHeaders(global: Option<HeaderEntries>, o: Option<Outbound>): map<string, seq<string>>
  {
    CiPutAll(CiPutAll(map[], Present(ListOrEmpty(global))), Present(OutboundHeaders(o)))
  }

  /** A header configured in the outbound wins over a global one of the
   *  same name in any case; a global one is used only when the outbound
   *  has none; null-valued entries are never found. */
  lemma ConfigHeadersLookup(global: Option<HeaderEntries>, o: Option<Outbound>, k: string)
    ensures CiGet(ConfigHeaders(global, o), k) ==
            match LastMatchIndex(Present(OutboundHeaders(o)), k)
            case Some(i) => Some(Present(OutboundHeaders(o))[i].1)
            case None =>
              match LastMatchIndex(Present(ListOrEmpty(global)), k)
              case Some(i) => Some(Present(ListOrEmpty(global))[i].1)
              case None => None
  {
    var inner := CiPutAll(map[], Present(ListOrEmpty(global)));
    CiPutAllGet(inner, Present(OutboundHeaders(o)), k);
    CiPutAllGet(map[], Present(ListOrEmpty(global)), k);
  }

  /** The configured names are exactly the folded names of the entries that
   *  have a value list. */
  lemma ConfigHeadersKeys(global: Option<HeaderEntries>, o: Option<Outbound>)
    ensures ConfigHeaders(global, o).Keys ==
            (set e | e in ListOrEmpty(global) && e.1.Some? :: Lower(e.0)) +
            (set e | e in OutboundHeaders(o) && e.1.Some? :: Lower(e.0))
  {
    var inner := CiPutAll(map[], Present(ListOrEmpty(global)));
    CiPutAllKeys(map[], Present(ListOrEmpty(global)));
    CiPutAllKeys(inner, Present(OutboundHeaders(o)));
    PresentNames(ListOrEmpty(global));
    PresentNames(OutboundHeaders(o));
  }

  /** `HttpResponseHeadersConsumer.apply`: the context is built first (and
   *  its failure fails the stage even with no headers configured); when
   *  any header is configured, the run's headers become the rendered
   *  configured ones, replacing all the original headers. Only the headers
   *  change. */
  function HeadersStage(st: ResponseState, x: Exchange, ctx: RunExecutionContext, sub: Substitution): (r: Result<ResponseState, Error>)
    ensures r.Ok? ==> r.value == st.(httpHeaders := r.value.httpHeaders)
    ensures r.Ok? && ConfigHeaders(ctx.resourceMethod.globalResponseHeaders, EffectiveOutbound(st, ctx)) == map[] ==>
              r.value == st
    ensures r.Ok? && ConfigHeaders(ctx.resourceMethod.globalResponseHeaders, EffectiveOutbound(st, ctx)) != map[] ==>
              r.value.httpHeaders.Some? &&
              r.value.httpHeaders.value.Keys == ConfigHeaders(ctx.resourceMethod.globalResponseHeaders, EffectiveOutbound(st, ctx)).Keys
    ensures ResponseSubstitutionContext(x, ctx, sub).Err? ==> r.Err?
  {
    var sc :- ResponseSubstitutionContext(x, ctx, sub);
    var config := ConfigHeaders(ctx.resourceMethod.globalResponseHeaders, EffectiveOutbound(st, ctx));
    if config == map[] then Ok(st)
    else
      var m :- RenderValues(config, sub.render, sc);
      Ok(st.(httpHeaders := Some(m)))
  }

  /** Once headers are configured, an original header that is not among
   *  them is no longer returned. */
  lemma ConfiguredHeadersReplaceOriginal(st: ResponseState, x: Exchange, ctx: RunExecutionContext, sub: Substitution, k: string)
    requires HeadersStage(st, x, ctx, sub).Ok?
    requires ConfigHeaders(ctx.resourceMethod.globalResponseHeaders, EffectiveOutbound(st, ctx)) != map[]
    requires k !in ConfigHeaders(ctx.resourceMethod.globalResponseHeaders, EffectiveOutbound(st, ctx))
    ensures k !in HeadersElseOriginal(HeadersStage(st, x, ctx, sub).value.httpHeaders, x.original)
  {
  }

  /** Each configured header is sent with its values rendered one by one,
   *  in order; one value that does not render fails the whole stage. */
  lemma RenderedResponseHeaders(st: ResponseState, x: Exchange, ctx: RunExecutionContext, sub: Substitution, k: string)
    requires ResponseSubstitutionContext(x, ctx, sub).Ok?
    requires k in ConfigHeaders(ctx.resourceMethod.globalResponseHeaders, EffectiveOutbound(st, ctx))
    ensures var config := ConfigHeaders(ctx.resourceMethod.globalResponseHeaders, EffectiveOutbound(st, ctx));
            var sc := ResponseSubstitutionContext(x, ctx, sub).value;
            var r := HeadersStage(st, x, ctx, sub);
            && (r.Ok? ==> && r.value.httpHeaders.Some? && k in r.value.httpHeaders.value
                          && |r.value.httpHeaders.value[k]| == |config[k]|
                          && forall i :: 0 <= i < |config[k]| ==>
                               r.value.httpHeaders.value[k][i] == sub.render(config[k][i], sc).value)
            && ((exists i :: 0 <= i < |config[k]| && sub.render(config[k][i], sc).None?) ==>
                  r == Err(RestError(SubstitutionFailed)))
  {
    var config := ConfigHeaders(ctx.resourceMethod.globalResponseHeaders, EffectiveOutbound(st, ctx));
    var sc := ResponseSubstitutionContext(x, ctx, sub).value;
    if exists i :: 0 <= i < |config[k]| && sub.render(config[k][i], sc).None? {
      OneFailingListFailsAll(config, sub.render, sc, k);
    }
  }

  method ApplyResponseHeaders(resp: HttpRunResponse, ctx: RunExecutionContext, sub: Substitution) returns (r: Outcome<Error>)
    modifies resp
    ensures Applied(old(StateOf(resp, ctx)), HeadersStage(old(StateOf(resp, ctx)), ExchangeOf(resp), ctx, sub),
                    r, StateOf(resp, ctx))
  {
    var sc := ResponseSubstitutionContext(ExchangeOf(resp), ctx, sub);
    if sc.Err? {
      return Fail(sc.error);
    }
    var config := ConfigHeaders(ctx.resourceMethod.globalResponseHeaders, ctx.MatchedErrorOutboundElseMethodOutbound());
    if config != map[] {
      var rendered := RenderMap(config, sub.render, sc.value);
      if rendered.Err? {
        return Fail(rendered.error);
      }
      resp.SetHttpHeaders(rendered.value);
    }
    r := Pass;
  }

  // ---------------------------------------------------------------------
  // Status

  /** The code template of an outbound, if any. */
  function CodeTemplate(o: Option<Outbound>): Option<string>
  {
    if o.Some? then o.value.code else None
  }

  /** `HttpStatus.valueOf(Integer.parseInt(text)).value()`: a 32-bit decimal
   *  that names a known status. */
  function ParseStatus(text: string): (r: Result<int, Error>)
    ensures r.Ok? ==> IsKnownStatus(r.value) && ParseInt(text) == Some(r.value)
    ensures ParseInt(text).None? ==> r == Err(Unexpected(NumberFormat))
    ensures ParseInt(text).Some? && !IsKnownStatus(ParseInt(text).value) ==> r == Err(Unexpected(IllegalArgument))
    ensures ParseInt(text).Some? && IsKnownStatus(ParseInt(text).value) ==> r == Ok(ParseInt(text).value)
  {
    match ParseInt(text)
    case None => Err(Unexpected(NumberFormat))
    case Some(n) => if IsKnownStatus(n) then Ok(n) else Err(Unexpected(IllegalArgument))
  }

  /** Every known status, printed, is read back; an unknown one in range
   *  is refused by `HttpStatus.valueOf`. */
  lemma StatusReadBack(code: int)
    requires IntMin <= code <= IntMax
    ensures IsKnownStatus(code) ==> ParseStatus(ShowInt(code)) == Ok(code)
    ensures !IsKnownStatus(code) ==> ParseStatus(ShowInt(code)) == Err(Unexpected(IllegalArgument))
  {
    ParseShow(code, IntMin, IntMax);
  }

  /** `HttpResponseStatusConsumer.apply`: with a code template in the
   *  effective outbound, a non-empty rendering becomes the status; an empty
   *  one leaves it. Only the status changes, and only to a known one. */
  function StatusStage(st: ResponseState, x: Exchange, ctx: RunExecutionContext, sub: Substitution): (r: Result<ResponseState, Error>)
    ensures r.Ok? ==> r.value == st.(statusCode := r.value.statusCode)
    ensures r.Ok? ==> r.value.statusCode == st.statusCode ||
                      (r.value.statusCode.Some? && IsKnownStatus(r.value.statusCode.value))
    ensures CodeTemplate(EffectiveOutbound(st, ctx)).None? ==> r == Ok(st)
  {
    match CodeTemplate(EffectiveOutbound(st, ctx))
    case None => Ok(st)
    case Some(t) =>
      var sc :- ResponseSubstitutionContext(x, ctx, sub);
      var text :- Render(sub.render, t, sc);
      if text == "" then Ok(st)
      else
        var code :- ParseStatus(text);
        Ok(st.(statusCode := Some(code)))
  }

  /** A code template rendering to a printed known status sets exactly that
   *  status; one rendering to the empty string keeps the current one. */
  lemma StatusStageSets(st: ResponseState, x: Exchange, ctx: RunExecutionContext, sub: Substitution, code: int)
    requires CodeTemplate(EffectiveOutbound(st, ctx)).Some? && ResponseSubstitutionContext(x, ctx, sub).Ok?
    requires IsKnownStatus(code)
    requires var t := CodeTemplate(EffectiveOutbound(st, ctx)).value;
             sub.render(t, ResponseSubstitutionContext(x, ctx, sub).value) == Some(ShowInt(code))
    ensures StatusStage(st, x, ctx, sub) == Ok(st.(statusCode := Some(code)))
  {
    StatusReadBack(code);
    assert ShowInt(code) == NatDigits(code);
  }

  /** A code template rendering to the empty string keeps the status,
  *  whatever it was. */
  lemma EmptyCodeKeepsStatus(st: ResponseState, x: Exchange, ctx: RunExecutionContext, sub: Substitution)
    requires CodeTemplate(EffectiveOutbound(st, ctx)).Some? && ResponseSubstitutionContext(x, ctx, sub).Ok?
    requires var t := CodeTemplate(EffectiveOutbound(st, ctx)).value;
             sub.render(t, ResponseSubstitutionContext(x, ctx, sub).value) == Some("")
    ensures StatusStage(st, x, ctx, sub) == Ok(st)
  {
  }

  method ApplyStatus(resp: HttpRunResponse, ctx: RunExecutionContext, sub: Substitution) returns (r: Outcome<Error>)
    modifies resp
    ensures Applied(old(StateOf(resp, ctx)), StatusStage(old(StateOf(resp, ctx)), ExchangeOf(resp), ctx, sub),
                    r, StateOf(resp, ctx))
  {
    var template := CodeTemplate(ctx.MatchedErrorOutboundElseMethodOutbound());
    if template.Some? {
      var sc := ResponseSubstitutionContext(ExchangeOf(resp), ctx, sub);
      if sc.Err? {
        return Fail(sc.error);
      }
      var text := Render(sub.render, template.value, sc.value);
      if text.Err? {
        return Fail(text.error);
      }
      if text.value != "" {
        var code := ParseStatus(text.value);
        if code.Err? {
          return Fail(code.error);
        }
        resp.SetStatusCode(code.value);
      }
    }
    r := Pass;
  }

  // ---------------------------------------------------------------------
  // The chain

  /** The stages in the order Spring applies them: content type (order 1),
   *  error handlers (order 2), then body, headers and status. A failing
   *  stage ends the chain. */
  function ResponsePipeline(st: ResponseState, x: Exchange, ctx: RunExecutionContext, hs: seq<ErrorHandler>, sub: Substitution): (p: Progress<ResponseState>)
    ensures p.state.statusCode == st.statusCode ||
            (p.state.statusCode.Some? && IsKnownStatus(p.state.statusCode.value))
  {
    var p1 := Then(Progress(st, Pass), ContentTypeStage(st, x));
    var p2 := Then(p1, ErrorStage(p1.state, x, ctx, hs, sub));
    var p3 := Then(p2, JsonBodyStage(p2.state, x, ctx, sub));
    var p4 := Then(p3, HeadersStage(p3.state, x, ctx, sub));
    Then(p4, StatusStage(p4.state, x, ctx, sub))
  }

  /** A refused content type stops the chain before any handler or template
   *  is looked at, and the response is left as it was. */
  lemma RefusedContentTypeStopsStages(st: ResponseState, x: Exchange, ctx: RunExecutionContext, hs: seq<ErrorHandler>, sub: Substitution)
    requires ContentTypeCheck(HeadersElseOriginal(st.httpHeaders, x.original)).Fail?
    ensures ResponsePipeline(st, x, ctx, hs, sub) ==
            Progress(st, ContentTypeCheck(HeadersElseOriginal(st.httpHeaders, x.original)))
  {
    var e := ContentTypeCheck(HeadersElseOriginal(st.httpHeaders, x.original)).error;
    var p1 := Then(Progress(st, Pass), ContentTypeStage(st, x));
    assert p1 == Progress(st, Fail(e));
    FailureStopsTheChain(p1, ErrorStage(p1.state, x, ctx, hs, sub), JsonBodyStage(p1.state, x, ctx, sub));
  }

  /** `HttpResponseConsumer`s applied in order to the run's response and
   *  context, stopping at the first exception. */
  method ApplyResponseStages(resp: HttpRunResponse, ctx: RunExecutionContext, sub: Substitution) returns (r: Outcome<Error>)
    modifies resp, ctx, ctx.resourceMethod
    ensures Progress(StateOf(resp, ctx), r) ==
            ResponsePipeline(old(StateOf(resp, ctx)), ExchangeOf(resp), ctx,
                             LocalThenGlobal(old(ctx.resourceMethod.methodErrorHandlers), ctx.resourceMethod.globalErrorHandlers),
                             sub)
    ensures ctx.resourceMethod.methodRetryHandlers == old(ctx.resourceMethod.methodRetryHandlers)
  {
    ghost var st0 := StateOf(resp, ctx);
    ghost var x := ExchangeOf(resp);
    ghost var hs := LocalThenGlobal(ctx.resourceMethod.methodErrorHandlers, ctx.resourceMethod.globalErrorHandlers);
    ghost var p := Then(Progress(st0, Pass), ContentTypeStage(st0, x));
    r := ApplyContentType(resp, ctx);
    assert Progress(StateOf(resp, ctx), r) == p;
    if r.Fail? {
      FailureStopsTheChain(p, ErrorStage(p.state, x, ctx, hs, sub), JsonBodyStage(p.state, x, ctx, sub));
      return;
    }
    p := Then(p, ErrorStage(p.state, x, ctx, hs, sub));
    r := ApplyError(resp, ctx, sub);
    assert Progress(StateOf(resp, ctx), r) == p;
    if r.Fail? {
      FailureStopsTheChain(p, JsonBodyStage(p.state, x, ctx, sub), HeadersStage(p.state, x, ctx, sub));
      return;
    }
    p := Then(p, JsonBodyStage(p.state, x, ctx, sub));
    r := ApplyJsonBody(resp, ctx, sub);
    assert Progress(StateOf(resp, ctx), r) == p;
    if r.Fail? {
      FailureStopsTheChain(p, HeadersStage(p.state, x, ctx, sub), StatusStage(p.state, x, ctx, sub));
      return;
    }
    p := Then(p, HeadersStage(p.state, x, ctx, sub));
    r := ApplyResponseHeaders(resp, ctx, sub);
    assert Progress(StateOf(resp, ctx), r) == p;
    if r.Fail? {
      return;
    }
    p := Then(p, StatusStage(p.state, x, ctx, sub));
    r := ApplyStatus(resp, ctx, sub);
    assert Progress(StateOf(resp, ctx), r) == p;
  }
}
