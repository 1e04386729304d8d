// The request stages: each one fills in part of the one HttpRequest a run
// sends (service/run/request/*Consumer.java), most of them rendering a
// template against the request substitution context
// (service/run/request/HttpRequestSubstitutionContext.java).
//
// Each stage is specified by a function from the request's fields before
// the stage to its fields after it, or to the exception the stage throws;
// the stage method is proved to have exactly that effect on the object.
module RequestStages {
  import opened Wrappers
  import opened Strings
  import opened Errors
  import opened Values
  import opened Resources
  import opened Connectivity
  import opened Http
  import opened RunContext

  // ---------------------------------------------------------------------
  // The request substitution context

  /** Puts the token under the auth key. A null auth key makes a HashMap
   *  entry no template can name, so it is left out. */
  function PutToken(fields: map<string, Value>, authKey: Option<string>, token: Option<string>): (r: map<string, Value>)
    ensures authKey.Some? ==> r == fields[authKey.value := TextOrNull(token)]
    ensures authKey.None? ==> r == fields
  {
    if authKey.Some? then fields[authKey.value := TextOrNull(token)] else fields
  }

  /** The `request` entry: the method name, and the body once there is one. */
  function RequestProperties(methodName: string, body: Option<Body>): (p: map<string, Value>)
    ensures p.Keys == if body.Some? then {"method", "body"} else {"method"}
    ensures p["method"] == Str(methodName)
    ensures body.Some? ==> p["body"] == BodyValue(body.value)
  {
    var withMethod := map["method" := Str(methodName)];
    if body.Some? then withMethod["body" := BodyValue(body.value)] else withMethod
  }

  /** `HttpRequestSubstitutionContext.get`: `request` and `inputs`, then the
   *  token under the auth key of the system (or of its auth subsystem). The
   *  token is put last, so it replaces an entry of the same name. Reading
   *  the key throws when that system has no connection properties. */
  function RequestSubstitutionContext(body: Option<Body>, ctx: RunExecutionContext): (r: Result<Value, Error>)
    ensures r.Ok? <==> AuthKey(ctx.subsystem).Ok?
    ensures r.Err? ==> r.error == AuthKey(ctx.subsystem).error
    ensures r.Ok? ==> r.value.Object?
  {
    var authKey :- AuthKey(ctx.subsystem);
    var fields := map["request" := Object(RequestProperties(ctx.resourceMethod.methodName, body)),
                      "inputs" := ctx.runRequest.inputs];
    Ok(Object(PutToken(fields, authKey, ctx.authToken)))
  }

  /** What a template sees: the token under the auth key, and the request
   *  and the inputs unless the auth key has the same name. */
  lemma RequestContextEntries(body: Option<Body>, ctx: RunExecutionContext, key: Option<string>)
    requires AuthKey(ctx.subsystem) == Ok(key)
    ensures RequestSubstitutionContext(body, ctx).Ok?
    ensures key.Some? ==>
              Field(RequestSubstitutionContext(body, ctx).value, key.value) == Some(TextOrNull(ctx.authToken))
    ensures key != Some("inputs") ==>
              Field(RequestSubstitutionContext(body, ctx).value, "inputs") == Some(ctx.runRequest.inputs)
    ensures key != Some("request") ==>
              Field(RequestSubstitutionContext(body, ctx).value, "request") ==
              Some(Object(RequestProperties(ctx.resourceMethod.methodName, body)))
    ensures forall k :: k in RequestSubstitutionContext(body, ctx).value.fields ==>
              k == "request" || k == "inputs" || Some(k) == key
  {
  }

  /** With an auth subsystem attached, the token is filed under that
   *  subsystem's auth key. */
  lemma TokenUnderAuthSubsystemKey(body: Option<Body>, ctx: RunExecutionContext, a: Subsystem, key: string)
    requires ctx.subsystem.authSubsystem == Some(a)
    requires |a.connectionProperties| > 0 && a.connectionProperties[0].authKey == Some(key)
    ensures Field(RequestSubstitutionContext(body, ctx).value, key) == Some(TextOrNull(ctx.authToken))
  {
    AuthKeyFromAuthSubsystem(ctx.subsystem, a, a.connectionProperties[0]);
    RequestContextEntries(body, ctx, Some(key));
  }

  // ---------------------------------------------------------------------
  // Stage results

  /** The object after a stage is the specified state, and an exception
   *  leaves it as it was before the stage. */
  predicate Applied<S(==)>(before: S, spec: Result<S, Error>, r: Outcome<Error>, after: S)
  {
    match spec
    case Ok(d) => r == Pass && after == d
    case Err(e) => r == Fail(e) && after == before
  }

  // ---------------------------------------------------------------------
  // Body (ordered first, so that later stages can use the body)

  /** The inbound body template, if any. */
  function InTemplate(def: ResourceMethodDefinition): Option<string>
  {
    if def.inbound.Some? then def.inbound.value.transformationInTemplate else None
  }

  /** `HttpRequestBodyConsumer.apply`: a run request body is used as given;
   *  otherwise the inbound template, if any, is rendered. Only the body
   *  changes. */
  function BodyStage(d: RequestData, ctx: RunExecutionContext, render: Renderer): (r: Result<RequestData, Error>)
    ensures r.Ok? ==> r.value == d.(body := r.value.body)
  {
    if ctx.runRequest.body.Some? then
      Ok(d.(body := Some(JsonBody(ctx.runRequest.body.value))))
    else if InTemplate(ctx.resourceMethod).Some? then
      var sc :- RequestSubstitutionContext(d.body, ctx);
      var text :- Render(render, InTemplate(ctx.resourceMethod).value, sc);
      Ok(d.(body := Some(TextBody(text))))
    else
      Ok(d)
  }

  /** A run request body wins over the template, which is then ignored
   *  (not even rendered); with neither, the request is unchanged. */
  lemma BodyStageChoices(d: RequestData, ctx: RunExecutionContext, render: Renderer)
    ensures ctx.runRequest.body.Some? ==>
              BodyStage(d, ctx, render) == Ok(d.(body := Some(JsonBody(ctx.runRequest.body.value))))
    ensures ctx.runRequest.body.None? && InTemplate(ctx.resourceMethod).None? ==>
              BodyStage(d, ctx, render) == Ok(d)
    ensures ctx.runRequest.body.None? && InTemplate(ctx.resourceMethod).Some? ==>
              match RequestSubstitutionContext(d.body, ctx)
              case Err(e) => BodyStage(d, ctx, render) == Err(e)
              case Ok(sc) =>
                BodyStage(d, ctx, render) ==
                (match render(InTemplate(ctx.resourceMethod).value, sc)
                 case Some(text) => Ok(d.(body := Some(TextBody(text))))
                 case None => Err(RestError(SubstitutionFailed)))
  {
  }

  /** The body the first stage sets is the `request.body` every later stage
   *  renders against. */
  lemma BodyVisibleToLaterStages(d: RequestData, ctx: RunExecutionContext, render: Renderer, key: Option<string>)
    requires BodyStage(d, ctx, render).Ok? && BodyStage(d, ctx, render).value.body.Some?
    requires AuthKey(ctx.subsystem) == Ok(key) && key != Some("request")
    ensures Field(RequestSubstitutionContext(BodyStage(d, ctx, render).value.body, ctx).value, "request") ==
            Some(Object(map["method" := Str(ctx.resourceMethod.methodName),
                             "body" := BodyValue(BodyStage(d, ctx, render).value.body.value)]))
  {
    var b := BodyStage(d, ctx, render).value.body;
    RequestContextEntries(b, ctx, key);
    assert RequestProperties(ctx.resourceMethod.methodName, b) ==
           map["method" := Str(ctx.resourceMethod.methodName), "body" := BodyValue(b.value)];
  }

  method ApplyBody(req: HttpRequest, ctx: RunExecutionContext, render: Renderer) returns (r: Outcome<Error>)
    modifies req
    ensures Applied(old(req.State()), BodyStage(old(req.State()), ctx, render), r, req.State())
  {
    var template := InTemplate(ctx.resourceMethod);
    if ctx.runRequest.body.Some? {
      req.body := Some(JsonBody(ctx.runRequest.body.value));
    } else if template.Some? {
      var sc := RequestSubstitutionContext(req.body, ctx);
      if sc.Err? {
        return Fail(sc.error);
      }
      var text := Render(render, template.value, sc.value);
      if text.Err? {
        return Fail(text.error);
      }
      req.body := Some(TextBody(text.value));
    }
    r := Pass;
  }

  // ---------------------------------------------------------------------
  // Auth (TLS settings of the connection)

  /** `HttpRequestAuthConsumer.apply`: when the connection verifies
   *  certificates, the flag and the four secret settings are copied. */
  function AuthStage(d: RequestData, s: Subsystem): (r: Result<RequestData, Error>)
    ensures r.Ok? <==> GetConnection(s).Ok?
    ensures r.Err? ==> r.error == Unexpected(IndexOutOfBounds)
    ensures r.Ok? ==> r.value.sslVerify == d.sslVerify || r.value.sslVerify == Some(true)
    ensures r.Ok? ==> r.value.url == d.url && r.value.httpMethod == d.httpMethod &&
                      r.value.body == d.body && r.value.headers == d.headers &&
                      r.value.encodeUrl == d.encodeUrl &&
                      r.value.connectTimeoutSeconds == d.connectTimeoutSeconds &&
                      r.value.readTimeoutSeconds == d.readTimeoutSeconds &&
                      r.value.writeTimeoutSeconds == d.writeTimeoutSeconds
  {
    var c :- GetConnection(s);
    if c.sslVerify == Some(true) then
      Ok(d.(sslVerify := Some(true),
            trustStoreSecretName := c.sslTrustStoreSecretName,
            trustStoreSecretPassword := c.sslTrustStoreSecretPassword,
            keyStoreSecretName := c.sslKeyStoreSecretName,
            keyStoreSecretPassword := c.sslKeyStoreSecretPassword))
    else
      Ok(d)
  }

  /** Verification on copies all four secret settings; verification off or
   *  unset leaves the request as it was. */
  lemma AuthStageFollowsSslVerify(d: RequestData, s: Subsystem)
    requires GetConnection(s).Ok?
    ensures IsSslVerify(s) == Ok(true) ==>
              var c := GetConnection(s).value;
              AuthStage(d, s) ==
              Ok(d.(sslVerify := Some(true),
                    trustStoreSecretName := c.sslTrustStoreSecretName,
                    trustStoreSecretPassword := c.sslTrustStoreSecretPassword,
                    keyStoreSecretName := c.sslKeyStoreSecretName,
                    keyStoreSecretPassword := c.sslKeyStoreSecretPassword))
    ensures IsSslVerify(s) == Ok(false) ==> AuthStage(d, s) == Ok(d)
  {
  }

  method ApplyAuth(req: HttpRequest, ctx: RunExecutionContext) returns (r: Outcome<Error>)
    modifies req
    ensures Applied(old(req.State()), AuthStage(old(req.State()), ctx.subsystem), r, req.State())
  {
    var conn := GetConnection(ctx.subsystem);
    if conn.Err? {
      return Fail(conn.error);
    }
    var c := conn.value;
    if c.sslVerify == Some(true) {
      req.sslVerify := Some(true);
      req.trustStoreSecretName := c.sslTrustStoreSecretName;
      req.trustStoreSecretPassword := c.sslTrustStoreSecretPassword;
      req.keyStoreSecretName := c.sslKeyStoreSecretName;
      req.keyStoreSecretPassword := c.sslKeyStoreSecretPassword;
    }
    r := Pass;
  }

  // ---------------------------------------------------------------------
  // Headers

  /** The values of a header list that are not null, in order. */
  function NonNull(vs: seq<Option<string>>): (r: seq<string>)
    ensures |r| <= |vs|
    ensures forall x :: x in r <==> Some(x) in vs
  {
    if |vs| == 0 then []
    else (if vs[0].Some? then [vs[0].value] else []) + NonNull(vs[1..])
  }

  /** A list without nulls, as the header map's value type holds it. */
  function Lift(xs: seq<string>): (r: seq<Option<string>>)
    ensures |r| == |xs| && forall i :: 0 <= i < |xs| ==> r[i] == Some(xs[i])
  {
    seq(|xs|, i requires 0 <= i < |xs| => Some(xs[i]))
  }

  /** Dropping nulls from a list that has none gives the list back. */
  lemma {:induction false} NonNullLift(xs: seq<string>)
    ensures NonNull(Lift(xs)) == xs
  {
    if |xs| > 0 {
      assert Lift(xs)[1..] == Lift(xs[1..]);
      NonNullLift(xs[1..]);
    }
  }

  function LiftMap(m: map<string, seq<string>>): (r: map<string, seq<Option<string>>>)
    ensures r.Keys == m.Keys && forall k :: k in m ==> r[k] == Lift(m[k])
  {
    map k | k in m :: Lift(m[k])
  }

  /** The header map with the nulls of every list dropped. */
  function NonNullValues(h: map<string, seq<Option<string>>>): (m: map<string, seq<string>>)
    ensures m.Keys == h.Keys && forall k :: k in h ==> m[k] == NonNull(h[k])
  {
    map k | k in h :: NonNull(h[k])
  }

  /** The rendered list of one header: one output per non-null value, in
   *  order. */
  lemma RenderedHeaderValues(h: map<string, seq<Option<string>>>, render: Renderer, sc: Value, k: string)
    requires RenderValues(NonNullValues(h), render, sc).Ok? && k in h
    ensures |RenderValues(NonNullValues(h), render, sc).value[k]| == |NonNull(h[k])|
    ensures forall i :: 0 <= i < |NonNull(h[k])| ==>
              RenderValues(NonNullValues(h), render, sc).value[k][i] == render(NonNull(h[k])[i], sc).value
  {
    assert RenderEach(render, NonNullValues(h)[k], sc).Ok?;
  }

  /** The merged request headers of the definition: global overlaid by the
   *  inbound ones. */
  function EffectiveRequestHeaders(global: Option<map<string, seq<Option<string>>>>, def: ResourceMethodDefinition): map<string, seq<Option<string>>>
  {
    GlobalOverlaidByLocal(global, def.InboundHeaders())
  }

  /** `HttpRequestHeadersConsumer.apply` on the merged headers `h`: the
   *  request headers become the rendered map, even an empty one. Only the
   *  headers change. */
  function HeadersStage(d: RequestData, ctx: RunExecutionContext, h: map<string, seq<Option<string>>>, render: Renderer): (r: Result<RequestData, Error>)
    ensures r.Ok? ==> r.value == d.(headers := r.value.headers)
    ensures r.Ok? ==> r.value.headers.Some? && r.value.headers.value.Keys == h.Keys
    ensures r.Ok? <==> RequestSubstitutionContext(d.body, ctx).Ok? &&
                       RenderValues(NonNullValues(h), render, RequestSubstitutionContext(d.body, ctx).value).Ok?
  {
    var sc :- RequestSubstitutionContext(d.body, ctx);
    var m :- RenderValues(NonNullValues(h), render, sc);
    Ok(d.(headers := Some(m)))
  }

  /** With no header configured anywhere the request still gets an empty
   *  header map. */
  lemma NoHeadersStillSet(d: RequestData, ctx: RunExecutionContext, render: Renderer)
    requires RequestSubstitutionContext(d.body, ctx).Ok?
    ensures HeadersStage(d, ctx, map[], render) == Ok(d.(headers := Some(map[])))
  {
    var sc := RequestSubstitutionContext(d.body, ctx).value;
    assert NonNullValues(map[]) == map[];
    assert RenderValues(map[], render, sc) == Ok(map[]);
  }

  /** The stage reads the header map through `getRequestHeaders`, which puts
   *  the inbound headers into the global map; the rendered lists are then
   *  written back into that same map. */
  method ApplyHeaders(req: HttpRequest, ctx: RunExecutionContext, render: Renderer) returns (r: Outcome<Error>)
    modifies req, ctx.resourceMethod
    ensures Applied(old(req.State()),
                    HeadersStage(old(req.State()), ctx,
                                 EffectiveRequestHeaders(old(ctx.resourceMethod.globalRequestHeaders), ctx.resourceMethod),
                                 render),
                    r, req.State())
    ensures ctx.resourceMethod.globalRequestHeaders ==
            (if old(ctx.resourceMethod.globalRequestHeaders).None? then None
             else if r.Pass? then Some(LiftMap(req.headers.value))
             else Some(EffectiveRequestHeaders(old(ctx.resourceMethod.globalRequestHeaders), ctx.resourceMethod)))
    ensures ctx.resourceMethod.methodRetryHandlers == old(ctx.resourceMethod.methodRetryHandlers)
    ensures ctx.resourceMethod.methodErrorHandlers == old(ctx.resourceMethod.methodErrorHandlers)
  {
    var h := ctx.resourceMethod.GetRequestHeaders();
    var sc := RequestSubstitutionContext(req.body, ctx);
    if sc.Err? {
      return Fail(sc.error);
    }
    var rendered := RenderMap(NonNullValues(h), render, sc.value);
    if rendered.Err? {
      return Fail(rendered.error);
    }
    if ctx.resourceMethod.globalRequestHeaders.Some? {
      ctx.resourceMethod.globalRequestHeaders := Some(LiftMap(rendered.value));
    }
    req.headers := Some(rendered.value);
    r := Pass;
  }

  // ---------------------------------------------------------------------
  // Method

  /** `HttpRequestMethodConsumer.apply`: the resolved method name, which
   *  cannot fail. Nothing else changes. */
  function MethodStage(d: RequestData, def: ResourceMethodDefinition): (r: Result<RequestData, Error>)
    ensures r.Ok? && r.value.httpMethod == Some(def.methodName)
    ensures r.Ok? ==> r.value == d.(httpMethod := r.value.httpMethod)
  {
    Ok(d.(httpMethod := Some(def.methodName)))
  }

  method ApplyMethod(req: HttpRequest, ctx: RunExecutionContext) returns (r: Outcome<Error>)
    modifies req
    ensures Applied(old(req.State()), MethodStage(old(req.State()), ctx.resourceMethod), r, req.State())
  {
    req.httpMethod := Some(ctx.resourceMethod.methodName);
    r := Pass;
  }

  // ---------------------------------------------------------------------
  // Timeouts

  /** `HttpRequestTimeoutsConsumer.apply`: the connection's timeouts, with
   *  their defaults of 10, 60 and 60 seconds. Nothing else changes. */
  function TimeoutsStage(d: RequestData, s: Subsystem): (r: Result<RequestData, Error>)
    ensures r.Ok? <==> GetConnection(s).Ok?
    ensures r.Err? ==> r.error == Unexpected(IndexOutOfBounds)
    ensures r.Ok? ==> r.value == d.(connectTimeoutSeconds := r.value.connectTimeoutSeconds,
                                    readTimeoutSeconds := r.value.readTimeoutSeconds,
                                    writeTimeoutSeconds := r.value.writeTimeoutSeconds)
    ensures r.Ok? ==>
              var c := GetConnection(s).value;
              r.value.connectTimeoutSeconds == Some(c.clientConnectionTimeoutSeconds.GetOr(10)) &&
              r.value.readTimeoutSeconds == Some(c.readTimeoutSeconds.GetOr(60)) &&
              r.value.writeTimeoutSeconds == Some(c.writeTimeoutSeconds.GetOr(60))
  {
    var c :- GetConnection(s);
    Ok(d.(connectTimeoutSeconds := Some(ConnectTimeout(c)),
          readTimeoutSeconds := Some(ReadTimeout(c)),
          writeTimeoutSeconds := Some(WriteTimeout(c))))
  }

  method ApplyTimeouts(req: HttpRequest, ctx: RunExecutionContext) returns (r: Outcome<Error>)
    modifies req
    ensures Applied(old(req.State()), TimeoutsStage(old(req.State()), ctx.subsystem), r, req.State())
  {
    var conn := GetConnection(ctx.subsystem);
    if conn.Err? {
      return Fail(conn.error);
    }
    req.connectTimeoutSeconds := Some(ConnectTimeout(conn.value));
    req.readTimeoutSeconds := Some(ReadTimeout(conn.value));
    req.writeTimeoutSeconds := Some(WriteTimeout(conn.value));
    r := Pass;
  }

  // ---------------------------------------------------------------------
  // Url

  /** The inbound query string, "" when there is no inbound spec or it has
   *  no query string. */
  function QueryParams(def: ResourceMethodDefinition): string
  {
    if def.inbound.Some? then OrEmpty(def.inbound.value.queryParams) else ""
  }

  /** `StringUtils.join` of base URL, path and query string; a null part
   *  contributes nothing. */
  function UrlTemplate(ctx: RunExecutionContext): string
  {
    OrEmpty(ctx.subsystem.url) + OrEmpty(ctx.resourceMethod.path) + QueryParams(ctx.resourceMethod)
  }

  /** `HttpRequestUrlConsumer.apply`: the joined URL rendered, and the
   *  inbound spec's URL-encoding flag when there is an inbound spec. */
  function UrlStage(d: RequestData, ctx: RunExecutionContext, render: Renderer): (r: Result<RequestData, Error>)
    ensures r.Ok? ==> r.value == d.(url := r.value.url, encodeUrl := r.value.encodeUrl)
    ensures r.Ok? ==> ctx.resourceMethod.inbound.None? ==> r.value.encodeUrl == d.encodeUrl
    ensures r.Ok? ==> ctx.resourceMethod.inbound.Some? ==>
              r.value.encodeUrl == ctx.resourceMethod.inbound.value.encodeUrl
    ensures r.Ok? <==> RequestSubstitutionContext(d.body, ctx).Ok? &&
                       render(UrlTemplate(ctx), RequestSubstitutionContext(d.body, ctx).value).Some?
    ensures r.Ok? ==> r.value.url == render(UrlTemplate(ctx), RequestSubstitutionContext(d.body, ctx).value)
  {
    var sc :- RequestSubstitutionContext(d.body, ctx);
    var url :- Render(render, UrlTemplate(ctx), sc);
    Ok(d.(url := Some(url),
          encodeUrl := if ctx.resourceMethod.inbound.Some? then ctx.resourceMethod.inbound.value.encodeUrl
                       else d.encodeUrl))
  }

  /** With no inbound spec, a fresh request keeps URL encoding on. */
  lemma UrlEncodingDefaultsOn(ctx: RunExecutionContext, render: Renderer)
    requires ctx.resourceMethod.inbound.None?
    requires UrlStage(FreshRequest, ctx, render).Ok?
    ensures UrlStage(FreshRequest, ctx, render).value.encodeUrl == Some(true)
  {
  }

  method ApplyUrl(req: HttpRequest, ctx: RunExecutionContext, render: Renderer) returns (r: Outcome<Error>)
    modifies req
    ensures Applied(old(req.State()), UrlStage(old(req.State()), ctx, render), r, req.State())
  {
    var url := UrlTemplate(ctx);
    var sc := RequestSubstitutionContext(req.body, ctx);
    if sc.Err? {
      return Fail(sc.error);
    }
    var rendered := Render(render, url, sc.value);
    if rendered.Err? {
      return Fail(rendered.error);
    }
    req.url := Some(rendered.value);
    if ctx.resourceMethod.inbound.Some? {
      req.encodeUrl := ctx.resourceMethod.inbound.value.encodeUrl;
    }
    r := Pass;
  }

  // ---------------------------------------------------------------------
  // The stages in order

  /** Where a chain of stages got to: the request's fields, and whether a
   *  stage threw (after which no further stage ran). */
  datatype Progress<S> = Progress(state: S, outcome: Outcome<Error>)

  /** Runs one more stage unless an earlier one threw. */
  function Then<S>(p: Progress<S>, next: Result<S, Error>): Progress<S>
  {
    if p.outcome.Fail? then p
    else match next
      case Ok(d) => Progress(d, Pass)
      case Err(e) => Progress(p.state, Fail(e))
  }

  /** The request stages in the order they run: the body first (it is
   *  ordered), then auth, headers, method, timeouts and url. `h` is the
   *  merged header map. */
  function RequestPipeline(d: RequestData, ctx: RunExecutionContext, h: map<string, seq<Option<string>>>, render: Renderer): (p: Progress<RequestData>)
    ensures p.outcome.Pass? ==> p.state.httpMethod == Some(ctx.resourceMethod.methodName)
    ensures p.outcome.Pass? ==> p.state.headers.Some? && p.state.headers.value.Keys == h.Keys
  {
    var p1 := Then(Progress(d, Pass), BodyStage(d, ctx, render));
    var p2 := Then(p1, AuthStage(p1.state, ctx.subsystem));
    var p3 := Then(p2, HeadersStage(p2.state, ctx, h, render));
    var p4 := Then(p3, MethodStage(p3.state, ctx.resourceMethod));
    var p5 := Then(p4, TimeoutsStage(p4.state, ctx.subsystem));
    Then(p5, UrlStage(p5.state, ctx, render))
  }

  /** A stage that throws stops the chain: the reported failure is the
   *  first one, and what ran before it is kept. */
  lemma FailureStopsTheChain<S>(p: Progress<S>, a: Result<S, Error>, b: Result<S, Error>)
    requires Then(p, a).outcome.Fail?
    ensures Then(Then(p, a), b) == Then(p, a)
  {
  }

  /** The url stage neither reads nor writes the headers. */
  lemma UrlStageIgnoresHeaders(d: RequestData, ctx: RunExecutionContext, headers: Option<map<string, seq<string>>>, render: Renderer)
    ensures UrlStage(d.(headers := headers), ctx, render) ==
            match UrlStage(d, ctx, render)
            case Ok(v) => Ok(v.(headers := headers))
            case Err(e) => Err(e)
  {
  }

  /** The header stage neither reads nor writes the url fields. */
  lemma HeadersStageIgnoresUrl(d: RequestData, ctx: RunExecutionContext, h: map<string, seq<Option<string>>>,
                               url: Option<string>, encodeUrl: Option<bool>, render: Renderer)
    ensures HeadersStage(d.(url := url, encodeUrl := encodeUrl), ctx, h, render) ==
            match HeadersStage(d, ctx, h, render)
            case Ok(v) => Ok(v.(url := url, encodeUrl := encodeUrl))
            case Err(e) => Err(e)
  {
  }

  /** The url and header stages read only the body and the context, and
   *  write different fields: in either order they fail alike, and when they
   *  pass they give the same request. */
  lemma UrlAndHeadersCommute(d: RequestData, ctx: RunExecutionContext, h: map<string, seq<Option<string>>>, render: Renderer)
    ensures var start := Progress(d, Pass);
            var urlFirst := Then(Then(start, UrlStage(d, ctx, render)),
                                 HeadersStage(Then(start, UrlStage(d, ctx, render)).state, ctx, h, render));
            var headersFirst := Then(Then(start, HeadersStage(d, ctx, h, render)),
                                     UrlStage(Then(start, HeadersStage(d, ctx, h, render)).state, ctx, render));
            urlFirst.outcome == headersFirst.outcome &&
            (urlFirst.outcome.Pass? ==> urlFirst.state == headersFirst.state)
  {
    var u := UrlStage(d, ctx, render);
    var hs := HeadersStage(d, ctx, h, render);
    if u.Ok? {
      assert u.value == d.(url := u.value.url, encodeUrl := u.value.encodeUrl);
      HeadersStageIgnoresUrl(d, ctx, h, u.value.url, u.value.encodeUrl, render);
    }
    if hs.Ok? {
      assert hs.value == d.(headers := hs.value.headers);
      UrlStageIgnoresHeaders(d, ctx, hs.value.headers, render);
    }
  }

  /** `forEach` of the request consumers over one request. A stage that
   *  throws ends the run, so the request is not used afterwards. */
  method ApplyRequestStages(req: HttpRequest, ctx: RunExecutionContext, render: Renderer) returns (r: Outcome<Error>)
    modifies req, ctx.resourceMethod
    ensures Progress(req.State(), r) ==
            RequestPipeline(old(req.State()), ctx,
                            EffectiveRequestHeaders(old(ctx.resourceMethod.globalRequestHeaders), ctx.resourceMethod),
                            render)
    ensures ctx.resourceMethod.methodRetryHandlers == old(ctx.resourceMethod.methodRetryHandlers)
    ensures ctx.resourceMethod.methodErrorHandlers == old(ctx.resourceMethod.methodErrorHandlers)
  {
    ghost var d0 := req.State();
    ghost var h := EffectiveRequestHeaders(ctx.resourceMethod.globalRequestHeaders, ctx.resourceMethod);
    ghost var p := Then(Progress(d0, Pass), BodyStage(d0, ctx, render));
    r := ApplyBody(req, ctx, render);
    assert Progress(req.State(), r) == p;
    if r.Fail? {
      return;
    }
    p := Then(p, AuthStage(p.state, ctx.subsystem));
    r := ApplyAuth(req, ctx);
    assert Progress(req.State(), r) == p;
    if r.Fail? {
      return;
    }
    p := Then(p, HeadersStage(p.state, ctx, h, render));
    r := ApplyHeaders(req, ctx, render);
    assert Progress(req.State(), r) == p;
    if r.Fail? {
      return;
    }
    p := Then(p, MethodStage(p.state, ctx.resourceMethod));
    r := ApplyMethod(req, ctx);
    assert Progress(req.State(), r) == p;
    p := Then(p, TimeoutsStage(p.state, ctx.subsystem));
    r := ApplyTimeouts(req, ctx);
    assert Progress(req.State(), r) == p;
    if r.Fail? {
      return;
    }
    p := Then(p, UrlStage(p.state, ctx, render));
    r := ApplyUrl(req, ctx, render);
    assert Progress(req.State(), r) == p;
  }
}
