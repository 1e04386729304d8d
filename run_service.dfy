// One run (service/RunService.java): resolve the resource method, look the
// connected system up, authenticate, build the request through the request
// stages, send it with the method's retry handlers
// (service/http/HttpExecutor.java), and unless the caller asked for the
// original response, rewrite the response through the response stages.
module RunService {
  import opened Wrappers
  import opened Strings
  import opened Errors
  import opened Values
  import opened Resources
  import opened ResourceConfig
  import opened Connectivity
  import opened Http
  import opened Retry
  import opened Auth
  import opened RunContext
  import opened RequestStages
  import opened ResponseStages

  /** What a run depends on besides its arguments: the stored resource
   *  configurations, the connected-system lookup, the registered auth
   *  handlers and their collaborators, the transport for a request, and
   *  the template engine with its JSON reader and text decoder. */
  datatype Services = Services(
    repo: Repository,
    subsystems: string -> Result<Subsystem, Error>,
    authHandlers: seq<HandlerKind>,
    auth: AuthBackend,
    connect: RequestData -> Transport,
    sub: Substitution)

  /** The response state of a new run response: nothing overridden yet. */
  const Untouched: ResponseState := ResponseState(None, None, None, None)

  /** `HttpExecutor.execute`: the retried exchange, with an error response
   *  taken as the response. */
  function Received(sent: RequestData, retryHandlers: seq<RetryHandler>, svc: Services): Result<ResponseEntity, Error>
  {
    ResumeOnError(Retried(svc.connect(sent), retryHandlers, svc.sub).0)
  }

  /** `"ORIGINAL".equalsIgnoreCase(responseFormat)`. */
  predicate WantsOriginal(rq: RunRequest)
  {
    OptEqualsIgnoreCase(rq.responseFormat, "ORIGINAL")
  }

  /** The run once its context exists: the request stages on a new request
   *  with header map `h`, the exchange with `retryHandlers`, then either the
   *  original response or the response stages with `errorHandlers`. */
  function RunFrom(ctx: RunExecutionContext, h: map<string, seq<Option<string>>>,
                   retryHandlers: seq<RetryHandler>, errorHandlers: seq<ErrorHandler>, svc: Services): (r: Result<RunOutput, Error>)
    ensures RequestPipeline(FreshRequest, ctx, h, svc.sub.render).outcome.Fail? ==>
              r == Err(RequestPipeline(FreshRequest, ctx, h, svc.sub.render).outcome.error)
    ensures RequestPipeline(FreshRequest, ctx, h, svc.sub.render).outcome.Pass? ==>
              var sent := RequestPipeline(FreshRequest, ctx, h, svc.sub.render).state;
              && (Received(sent, retryHandlers, svc).Err? ==> r == Err(Received(sent, retryHandlers, svc).error))
              && (Received(sent, retryHandlers, svc).Ok? && WantsOriginal(ctx.runRequest) ==>
                    r == Ok(Passthrough(Received(sent, retryHandlers, svc).value)))
              && (Received(sent, retryHandlers, svc).Ok? ==>
                    r == Respond(sent, Received(sent, retryHandlers, svc).value, ctx, errorHandlers, svc))
  {
    var request := RequestPipeline(FreshRequest, ctx, h, svc.sub.render);
    if request.outcome.Fail? then Err(request.outcome.error)
    else
      var response :- Received(request.state, retryHandlers, svc);
      Respond(request.state, response, ctx, errorHandlers, svc)
  }

  /** The run once the response arrived: the original response, or the
   *  response stages' overrides over it. */
  function Respond(sent: RequestData, response: ResponseEntity, ctx: RunExecutionContext,
                   errorHandlers: seq<ErrorHandler>, svc: Services): (r: Result<RunOutput, Error>)
    ensures WantsOriginal(ctx.runRequest) ==> r == Ok(Passthrough(response))
    ensures !WantsOriginal(ctx.runRequest) ==>
              var p := ResponsePipeline(Untouched, Exchange(sent, response), ctx, errorHandlers, svc.sub);
              && (p.outcome.Fail? ==> r == Err(p.outcome.error))
              && (p.outcome.Pass? ==> r == Ok(Output(p.state.statusCode, p.state.httpHeaders, p.state.transformedBody, response)))
  {
    if WantsOriginal(ctx.runRequest) then Ok(Passthrough(response))
    else
      var p := ResponsePipeline(Untouched, Exchange(sent, response), ctx, errorHandlers, svc.sub);
      if p.outcome.Fail? then Err(p.outcome.error)
      else Ok(Output(p.state.statusCode, p.state.httpHeaders, p.state.transformedBody, response))
  }

  /** A request whose stages fail is never sent: the transport plays no
   *  part in the result. */
  lemma FailedRequestNeverSent(ctx: RunExecutionContext, h: map<string, seq<Option<string>>>,
                               retryHandlers: seq<RetryHandler>, errorHandlers: seq<ErrorHandler>,
                               svc: Services, other: RequestData -> Transport)
    requires RequestPipeline(FreshRequest, ctx, h, svc.sub.render).outcome.Fail?
    ensures RunFrom(ctx, h, retryHandlers, errorHandlers, svc) ==
            RunFrom(ctx, h, retryHandlers, errorHandlers, svc.(connect := other))
  {
  }

  /** The status a run returns is the status received, or one a code
   *  template set, which is always a known status. */
  lemma StatusReceivedOrKnown(ctx: RunExecutionContext, h: map<string, seq<Option<string>>>,
                              retryHandlers: seq<RetryHandler>, errorHandlers: seq<ErrorHandler>,
                              svc: Services, out: RunOutput)
    requires RunFrom(ctx, h, retryHandlers, errorHandlers, svc) == Ok(out)
    ensures var sent := RequestPipeline(FreshRequest, ctx, h, svc.sub.render).state;
            && Received(sent, retryHandlers, svc).Ok?
            && (out.status == Received(sent, retryHandlers, svc).value.status || IsKnownStatus(out.status))
  {
    var sent := RequestPipeline(FreshRequest, ctx, h, svc.sub.render).state;
    var response := Received(sent, retryHandlers, svc).value;
    if !WantsOriginal(ctx.runRequest) {
      var p := ResponsePipeline(Untouched, Exchange(sent, response), ctx, errorHandlers, svc.sub);
      assert p.state.statusCode == None || IsKnownStatus(p.state.statusCode.value);
    }
  }

  /** A response that arrives at the first attempt is the one the run
   *  works on: no retry handler is consulted. */
  lemma FirstAttemptDelivered(sent: RequestData, retryHandlers: seq<RetryHandler>, svc: Services, response: ResponseEntity)
    requires svc.connect(sent)(0) == Delivered(response)
    ensures Received(sent, retryHandlers, svc) == Ok(response)
    ensures Received(sent, [], svc) == Ok(response)
  {
  }

  /** `RunService.run`. The resource method is resolved first, then the
   *  system is looked up and authenticated; any failure there ends the run
   *  before a request exists. The request stages see the method's header
   *  map, the executor its local-then-global retry handlers, and the error
   *  stage its local-then-global error handlers. */
  method Run(svc: Services, connectivityName: string, configName: string, resource: string, rq: RunRequest)
    returns (r: Result<RunOutput, Error>, ghost ctx: RunExecutionContext?)
    ensures match GetResourceMethodDefinition(svc.repo, configName, resource, rq.httpMethod)
            case Err(e) => r == Err(e)
            case Ok(res) =>
              match svc.subsystems(connectivityName)
              case Err(e) => r == Err(e)
              case Ok(s) =>
                match Authenticate(s, svc.authHandlers, svc.auth)
                case Err(e) => r == Err(e)
                case Ok(token) =>
                  && ctx != null
                  && ctx.runRequest == rq && ctx.subsystem == s && ctx.authToken == token
                  && ctx.resourceMethod.methodName == res.methodName
                  && ctx.resourceMethod.path == res.resource.path
                  && ctx.resourceMethod.inbound == res.property.inbound
                  && ctx.resourceMethod.outbound == res.property.outbound
                  && ctx.resourceMethod.globalResponseHeaders == res.config.globalResponseHeaders
                  && r == RunFrom(ctx, EffectiveRequestHeaders(res.config.globalRequestHeaders, ctx.resourceMethod),
                                  LocalThenGlobal(res.property.retryHandlers, res.config.globalRetryHandlers),
                                  LocalThenGlobal(res.property.errorHandlers, res.config.globalErrorHandlers),
                                  svc)
  {
    ctx := null;
    var resolved := GetResourceMethodDefinition(svc.repo, configName, resource, rq.httpMethod);
    if resolved.Err? {
      return Err(resolved.error), ctx;
    }
    var res := resolved.value;
    var def := new ResourceMethodDefinition(res.methodName, res.property, res.resource, res.config);
    var subsystem := svc.subsystems(connectivityName);
    if subsystem.Err? {
      return Err(subsystem.error), ctx;
    }
    var token := Authenticate(subsystem.value, svc.authHandlers, svc.auth);
    if token.Err? {
      return Err(token.error), ctx;
    }
    var context := new RunExecutionContext(rq, def, subsystem.value, token.value);
    ctx := context;
    r := Execute(context, svc);
  }

  /** The run from a new context on: the request stages on a new request,
   *  the exchange with the handlers `getRetryHandlers` returns, and the
   *  response stages unless the original response was asked for. */
  method Execute(ctx: RunExecutionContext, svc: Services) returns (r: Result<RunOutput, Error>)
    requires ctx.matchedErrorHandlerOutbound.None?
    modifies ctx, ctx.resourceMethod
    ensures r == RunFrom(ctx, EffectiveRequestHeaders(old(ctx.resourceMethod.globalRequestHeaders), ctx.resourceMethod),
                         LocalThenGlobal(old(ctx.resourceMethod.methodRetryHandlers), ctx.resourceMethod.globalRetryHandlers),
                         LocalThenGlobal(old(ctx.resourceMethod.methodErrorHandlers), ctx.resourceMethod.globalErrorHandlers),
                         svc)
  {
    var def := ctx.resourceMethod;
    ghost var h := EffectiveRequestHeaders(def.globalRequestHeaders, def);
    ghost var retrySpec := LocalThenGlobal(def.methodRetryHandlers, def.globalRetryHandlers);
    ghost var errorSpec := LocalThenGlobal(def.methodErrorHandlers, def.globalErrorHandlers);
    ghost var request := RequestPipeline(FreshRequest, ctx, h, svc.sub.render);
    var req := new HttpRequest();
    var built := ApplyRequestStages(req, ctx, svc.sub.render);
    assert Progress(req.State(), built) == request;
    if built.Fail? {
      return Err(built.error);
    }
    var retryHandlers := def.GetRetryHandlers();
    assert retryHandlers == retrySpec;
    var outcome, delays := ExecuteWithRetry(svc.connect(req.State()), retryHandlers, svc.sub);
    var received := ResumeOnError(outcome);
    assert received == Received(request.state, retrySpec, svc);
    if received.Err? {
      return Err(received.error);
    }
    assert def.methodErrorHandlers == old(def.methodErrorHandlers);
    r := RespondTo(req, received.value, ctx, svc);
  }

  /** The response half of `run` on a new run response for `received`. */
  method RespondTo(req: HttpRequest, received: ResponseEntity, ctx: RunExecutionContext, svc: Services)
    returns (r: Result<RunOutput, Error>)
    requires ctx.matchedErrorHandlerOutbound.None?
    modifies ctx, ctx.resourceMethod
    ensures r == Respond(req.State(), received, ctx,
                         LocalThenGlobal(old(ctx.resourceMethod.methodErrorHandlers), ctx.resourceMethod.globalErrorHandlers),
                         svc)
  {
    var resp := new HttpRunResponse(received, req);
    if !WantsOriginal(ctx.runRequest) {
      assert StateOf(resp, ctx) == Untouched;
      var rewritten := ApplyResponseStages(resp, ctx, svc.sub);
      if rewritten.Fail? {
        return Err(rewritten.error);
      }
    }
    r := Ok(resp.AsResponseEntity());
  }
}
