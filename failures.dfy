// The failures a WebClient exchange can end in, and the failure-kind
// predicates of service/utils/ExceptionChecks.java.
module Failures {
  import opened Wrappers
  import opened Strings

  /**
   * The class of one exception in a cause chain:
   *   Connect     - an instance of java.net.ConnectException (or a subclass),
   *   NettyTimeout - an instance of io.netty.handler.timeout.TimeoutException
   *                  (read and write timeouts),
   *   UnknownHost - an instance of java.net.UnknownHostException,
   *   OtherCause  - anything else.
   */
  datatype Cause = Connect | NettyTimeout | UnknownHost | OtherCause

  /**
   * A failed exchange. `causes` is the cause chain below the exception itself,
   * outermost first: `causes[0]` is `getCause()` and the last element is the
   * root cause (`getRootCause()` is null when the chain is empty).
   * Response headers are keyed by lower-cased name (HttpHeaders ignores case).
   * A response exception's body is never null: a missing body is stored as
   * an empty array.
   */
  datatype Failure =
    | ResponseException(status: int, headers: map<string, seq<string>>,
                        body: seq<byte>, causes: seq<Cause>)
    | RequestException(causes: seq<Cause>)
    | OtherClientException(causes: seq<Cause>)
    | NotClientException(causes: seq<Cause>)

  /** `getCause()`: the direct cause, if any. */
  function DirectCause(f: Failure): (c: Option<Cause>)
    ensures c.Some? <==> |f.causes| > 0
    ensures c.Some? ==> c.value == f.causes[0]
  {
    if |f.causes| == 0 then None else Some(f.causes[0])
  }

  /** `getRootCause()`: the innermost cause, if any. */
  function RootCause(f: Failure): (c: Option<Cause>)
    ensures c.Some? <==> |f.causes| > 0
    ensures c.Some? ==> c.value == f.causes[|f.causes| - 1]
  {
    if |f.causes| == 0 then None else Some(f.causes[|f.causes| - 1])
  }

  /** The direct cause is a netty read or write timeout. */
  predicate IsReadOrWriteTimeout(f: Failure)
  {
    DirectCause(f) == Some(NettyTimeout)
  }

  /** The direct cause is an UnknownHostException. */
  predicate IsUnknownHost(f: Failure)
  {
    DirectCause(f) == Some(UnknownHost)
  }

  /** The root cause is a ConnectException (refused or timed out). */
  predicate IsConnectionTimeoutOrRefused(f: Failure)
  {
    RootCause(f) == Some(Connect)
  }

  /** A request exception caused by one of the three connection problems. */
  predicate IsConnectionIssue(f: Failure)
  {
    f.RequestException? &&
    (IsReadOrWriteTimeout(f) || IsUnknownHost(f) || IsConnectionTimeoutOrRefused(f))
  }

  /** Only a request exception can be a connection issue. */
  lemma ConnectionIssueOnlyForRequests(f: Failure)
    ensures !f.RequestException? ==> !IsConnectionIssue(f)
  {
  }

  /**
   * The three checks look at different links of the chain: a netty timeout
   * hidden below the direct cause is not a timeout, while a ConnectException
   * must be the innermost cause, however deep.
   */
  lemma CheckedLinks(inner: seq<Cause>)
    ensures !IsReadOrWriteTimeout(RequestException([OtherCause, NettyTimeout]))
    ensures !IsUnknownHost(RequestException([OtherCause, UnknownHost]))
    ensures IsConnectionIssue(RequestException(inner + [Connect]))
    ensures !IsConnectionIssue(RequestException([Connect, OtherCause]))
    ensures !IsConnectionIssue(OtherClientException([NettyTimeout]))
  {
  }
}
