// Retrying a failed exchange under the first matching retry handler
// (service/http/retry/ResourceRetrySpec.java, service/http/retry/RetrySubstitutionCtx.java),
// and how the executor turns the final failure into a response or an error
// (service/http/HttpExecutor.java).
module Retry {
  import opened Wrappers
  import opened Strings
  import opened Errors
  import opened Failures
  import opened Values
  import opened Seqs
  import opened Http
  import opened Resources

  /** `HttpHeaders.toSingleValueMap`: the first value of every header that
   *  has one. */
  function SingleValueMap(h: map<string, seq<string>>): (r: map<string, Value>)
    ensures forall k :: k in r <==> k in h && |h[k]| > 0
    ensures forall k :: k in r ==> r[k] == Str(h[k][0])
  {
    map k | k in h && |h[k]| > 0 :: Str(h[k][0])
  }

  /** The context retry conditions are rendered against. */
  function RetrySubstitutionCtx(f: Failure, sub: Substitution): (v: Value)
    ensures v.Object? && v.fields.Keys == {"connectionTimeout", "response"}
    ensures v.fields["connectionTimeout"] == Bool(RootCause(f) == Some(Connect))
    ensures v.fields["response"].Object? && v.fields["response"].fields.Keys == {"headers", "code", "body"}
    ensures f.ResponseException? ==>
              v.fields["response"].fields["code"] == Int(f.status) &&
              v.fields["response"].fields["headers"] == Object(SingleValueMap(f.headers)) &&
              v.fields["response"].fields["body"] == JsonOrRaw(sub.readJson, sub.decode(f.body))
    ensures !f.ResponseException? ==>
              v.fields["response"].fields == map["headers" := Object(map[]), "code" := Null, "body" := Null]
  {
    var response :=
      if f.ResponseException? then
        map["headers" := Object(SingleValueMap(f.headers)),
            "code" := Int(f.status),
            "body" := JsonOrRaw(sub.readJson, sub.decode(f.body))]
      else
        map["headers" := Object(map[]), "code" := Null, "body" := Null];
    Object(map["connectionTimeout" := Bool(RootCause(f) == Some(Connect)), "response" := Object(response)])
  }

  /** `isRetryable`: a response error, or a request error whose root cause is
   *  a ConnectException. */
  predicate IsRetryable(f: Failure)
  {
    f.ResponseException? || (f.RequestException? && IsConnectionTimeoutOrRefused(f))
  }

  /** `testCondition`: the condition renders to "true" ignoring case; a
   *  rendering that throws counts as false. */
  predicate TestCondition(h: RetryHandler, f: Failure, sub: Substitution)
  {
    match Render(sub.render, h.retryCondition, RetrySubstitutionCtx(f, sub))
    case Ok(s) => ParseBoolean(s)
    case Err(_) => false
  }

  /** What the companion emits for one failure. */
  datatype Signal = RetryAfter(delaySeconds: int) | Propagate(failure: Failure)

  /** `processRetrySignal` for the `n`-th failure (counting from 0), given
   *  the handler matched so far: the signal and the handler matched after. */
  function Decide(matched: Option<RetryHandler>, handlers: seq<RetryHandler>, f: Failure, n: nat,
                  sub: Substitution): (Signal, Option<RetryHandler>)
  {
    if n == 0 && IsRetryable(f) then
      match FindFirst(handlers, h => TestCondition(h, f, sub))
      case None => (Propagate(f), matched)
      case Some(h) => Continue(h, f, n)
    else if matched.Some? then Continue(matched.value, f, n)
    else (Propagate(f), matched)
  }

  /** Under a matched handler: retry while fewer than `maxRetries` retries
   *  were made, always after `backOffSeconds`. */
  function Continue(h: RetryHandler, f: Failure, n: nat): (r: (Signal, Option<RetryHandler>))
    ensures r.1 == Some(h)
    ensures r.0.RetryAfter? <==> n < h.retryPolicy.maxRetries
    ensures r.0.RetryAfter? ==> r.0.delaySeconds == h.retryPolicy.backOffSeconds
    ensures r.0.Propagate? ==> r.0.failure == f
  {
    if n < h.retryPolicy.maxRetries then (RetryAfter(h.retryPolicy.backOffSeconds), Some(h))
    else (Propagate(f), Some(h))
  }

  /** On a first retryable failure the handler used is the first in list
   *  order whose condition holds, and with none the failure propagates with
   *  no delay and nothing matched. */
  lemma FirstFailureMatchesFirstHandler(handlers: seq<RetryHandler>, f: Failure, sub: Substitution)
    requires IsRetryable(f)
    ensures var (sig, m) := Decide(None, handlers, f, 0, sub);
            && (m.None? <==> forall i :: 0 <= i < |handlers| ==> !TestCondition(handlers[i], f, sub))
            && (m.None? ==> sig == Propagate(f))
            && (m.Some? ==> exists i :: 0 <= i < |handlers| && handlers[i] == m.value &&
                                        TestCondition(handlers[i], f, sub) &&
                                        forall j :: 0 <= j < i ==> !TestCondition(handlers[j], f, sub))
  {
    var p := (h: RetryHandler) => TestCondition(h, f, sub);
    var found := FindFirst(handlers, p);
    if found.None? {
      forall i | 0 <= i < |handlers| ensures !TestCondition(handlers[i], f, sub) {
        assert !p(handlers[i]);
      }
    } else {
      var i :| 0 <= i < |handlers| && handlers[i] == found.value && p(handlers[i]) &&
               forall j :: 0 <= j < i ==> !p(handlers[j]);
      assert TestCondition(handlers[0], f, sub) || 0 < i;
    }
  }

  /** A retry is emitted iff a handler is matched and fewer than
   *  `maxRetries` retries were made; once matched, any later failure, even
   *  one that is not retryable, is retried under the same handler. */
  lemma LaterFailuresUseMatchedHandler(h: RetryHandler, handlers: seq<RetryHandler>, f: Failure, n: nat, sub: Substitution)
    requires n > 0
    ensures Decide(Some(h), handlers, f, n, sub).1 == Some(h)
    ensures Decide(Some(h), handlers, f, n, sub).0 ==
            (if n < h.retryPolicy.maxRetries then RetryAfter(h.retryPolicy.backOffSeconds) else Propagate(f))
  {
  }

  /** A failure that is not retryable on the first attempt propagates at once. */
  lemma NotRetryableFirstFailurePropagates(handlers: seq<RetryHandler>, f: Failure, sub: Substitution)
    requires !IsRetryable(f)
    ensures Decide(None, handlers, f, 0, sub) == (Propagate(f), None)
  {
  }

  /** A condition whose rendering throws never matches. */
  lemma ThrowingConditionNeverMatches(h: RetryHandler, f: Failure, sub: Substitution)
    requires sub.render(h.retryCondition, RetrySubstitutionCtx(f, sub)).None?
    ensures !TestCondition(h, f, sub)
  {
  }

  /** The retry spec of one execution: it remembers the matched handler. */
  class ResourceRetrySpec {
    const retryHandlers: seq<RetryHandler>
    var matchedRetryHandler: Option<RetryHandler>

    constructor(handlers: seq<RetryHandler>)
      ensures retryHandlers == handlers && matchedRetryHandler.None?
    {
      retryHandlers := handlers;
      matchedRetryHandler := None;
    }

    method ProcessRetrySignal(f: Failure, retriesAttempted: nat, sub: Substitution) returns (sig: Signal)
      modifies this
      ensures (sig, matchedRetryHandler) == Decide(old(matchedRetryHandler), retryHandlers, f, retriesAttempted, sub)
    {
      if retriesAttempted == 0 && IsRetryable(f) {
        var found := FindFirst(retryHandlers, h => TestCondition(h, f, sub));
        if found.None? {
          return Propagate(f);
        }
        matchedRetryHandler := found;
      }
      if matchedRetryHandler.Some? {
        var policy := matchedRetryHandler.value.retryPolicy;
        if retriesAttempted < policy.maxRetries {
          return RetryAfter(policy.backOffSeconds);
        }
      }
      sig := Propagate(f);
    }
  }

  // ---- the retried exchange ----

  /** One attempt of the exchange. */
  datatype AttemptOutcome = Delivered(response: ResponseEntity) | Failed(failure: Failure)

  /** The transport: the outcome of the attempt with the given index. */
  type Transport = nat -> AttemptOutcome

  /** The exchange with retries: the final outcome and the delays waited. */
  function Retried(send: Transport, handlers: seq<RetryHandler>, sub: Substitution): (Result<ResponseEntity, Failure>, seq<int>)
  {
    match send(0)
    case Delivered(resp) => (Ok(resp), [])
    case Failed(f) =>
      if !IsRetryable(f) then (Err(f), [])
      else
        match FindFirst(handlers, h => TestCondition(h, f, sub))
        case None => (Err(f), [])
        case Some(h) => RetriedUnder(send, h, 0, f)
  }

  /** The exchange after the `n`-th failure `f`, under handler `h`. */
  function RetriedUnder(send: Transport, h: RetryHandler, n: nat, f: Failure): (Result<ResponseEntity, Failure>, seq<int>)
    decreases h.retryPolicy.maxRetries - n
  {
    if n < h.retryPolicy.maxRetries then
      var rest :=
        match send(n + 1)
        case Delivered(resp) => (Ok(resp), [])
        case Failed(g) => RetriedUnder(send, h, n + 1, g);
      (rest.0, [h.retryPolicy.backOffSeconds] + rest.1)
    else (Err(f), [])
  }

  /** Under a handler, at most `maxRetries - n` more retries happen, each
   *  after the handler's `backOffSeconds`. */
  lemma {:induction false} RetriedUnderBounds(send: Transport, h: RetryHandler, n: nat, f: Failure)
    ensures var ds := RetriedUnder(send, h, n, f).1;
            && |ds| <= (if h.retryPolicy.maxRetries - n > 0 then h.retryPolicy.maxRetries - n else 0)
            && forall i :: 0 <= i < |ds| ==> ds[i] == h.retryPolicy.backOffSeconds
    decreases h.retryPolicy.maxRetries - n
  {
    if n < h.retryPolicy.maxRetries {
      match send(n + 1)
      case Delivered(_) =>
      case Failed(g) => RetriedUnderBounds(send, h, n + 1, g);
    }
  }

  /** At most 1 + `maxRetries` attempts are made in all (one per delay plus
   *  the first), and every delay is the matched handler's back-off. */
  lemma AttemptsBounded(send: Transport, handlers: seq<RetryHandler>, sub: Substitution)
    ensures var ds := Retried(send, handlers, sub).1;
            |ds| == 0 ||
            exists h :: h in handlers &&
              |ds| <= h.retryPolicy.maxRetries &&
              forall i :: 0 <= i < |ds| ==> ds[i] == h.retryPolicy.backOffSeconds
  {
    match send(0)
    case Delivered(_) =>
    case Failed(f) =>
      if IsRetryable(f) {
        var found := FindFirst(handlers, h => TestCondition(h, f, sub));
        if found.Some? {
          RetriedUnderBounds(send, found.value, 0, f);
        }
      }
  }

  /** A handler with no retries allowed propagates the first failure. */
  lemma ZeroRetriesPropagate(send: Transport, handlers: seq<RetryHandler>, sub: Substitution, f: Failure)
    requires send(0) == Failed(f)
    requires forall h :: h in handlers ==> h.retryPolicy.maxRetries <= 0
    ensures Retried(send, handlers, sub) == (Err(f), [])
  {
  }

  /** The retry loop the reactive pipeline runs, driven by the spec object. */
  method ExecuteWithRetry(send: Transport, handlers: seq<RetryHandler>, sub: Substitution)
    returns (r: Result<ResponseEntity, Failure>, delays: seq<int>)
    ensures (r, delays) == Retried(send, handlers, sub)
  {
    var spec := new ResourceRetrySpec(handlers);
    var outcome := send(0);
    if outcome.Delivered? {
      return Ok(outcome.response), [];
    }
    var sig := spec.ProcessRetrySignal(outcome.failure, 0, sub);
    if sig.Propagate? {
      return Err(sig.failure), [];
    }
    r, delays := RetryMatched(send, spec, outcome.failure, sub);
  }

  /** The loop after the first failure `f` matched a handler that allows a
   *  retry: retry after its back-off until an attempt delivers or the spec
   *  propagates. */
  method RetryMatched(send: Transport, spec: ResourceRetrySpec, f: Failure, sub: Substitution)
    returns (r: Result<ResponseEntity, Failure>, delays: seq<int>)
    requires spec.matchedRetryHandler.Some? && 0 < spec.matchedRetryHandler.value.retryPolicy.maxRetries
    modifies spec
    ensures (r, delays) == RetriedUnder(send, old(spec.matchedRetryHandler.value), 0, f)
  {
    var h := spec.matchedRetryHandler.value;
    ghost var total := RetriedUnder(send, h, 0, f);
    var n: nat := 0;
    var failure := f;
    delays := [];
    assert delays + total.1 == total.1;
    while true
      invariant spec.matchedRetryHandler == Some(h)
      invariant n < h.retryPolicy.maxRetries
      invariant total == (RetriedUnder(send, h, n, failure).0, delays + RetriedUnder(send, h, n, failure).1)
      decreases h.retryPolicy.maxRetries - n
    {
      ghost var before := delays;
      delays := delays + [h.retryPolicy.backOffSeconds];
      var outcome := send(n + 1);
      if outcome.Delivered? {
        assert [h.retryPolicy.backOffSeconds] + [] == [h.retryPolicy.backOffSeconds];
        assert RetriedUnder(send, h, n, failure) == (Ok(outcome.response), [h.retryPolicy.backOffSeconds]);
        return Ok(outcome.response), delays;
      }
      ghost var next := RetriedUnder(send, h, n + 1, outcome.failure);
      assert RetriedUnder(send, h, n, failure) == (next.0, [h.retryPolicy.backOffSeconds] + next.1);
      assert before + ([h.retryPolicy.backOffSeconds] + next.1) == delays + next.1;
      n, failure := n + 1, outcome.failure;
      LaterFailuresUseMatchedHandler(h, spec.retryHandlers, failure, n, sub);
      var sig := spec.ProcessRetrySignal(failure, n, sub);
      if sig.Propagate? {
        assert next == (Err(failure), []);
        assert delays + [] == delays;
        return Err(failure), delays;
      }
    }
  }

  /** `onErrorResume`: a response error becomes the response it carried; any
   *  other failure is rethrown. */
  function ResumeOnError(r: Result<ResponseEntity, Failure>): (out: Result<ResponseEntity, Error>)
    ensures r.Ok? ==> out == Ok(r.value)
    ensures r.Err? && r.error.ResponseException? ==>
              out == Ok(ResponseEntity(r.error.status, r.error.headers, Some(r.error.body)))
    ensures r.Err? && !r.error.ResponseException? ==> out == Err(Client(r.error))
  {
    match r
    case Ok(resp) => Ok(resp)
    case Err(f) =>
      if f.ResponseException? then Ok(ResponseEntity(f.status, f.headers, Some(f.body)))
      else Err(Client(f))
  }
}
