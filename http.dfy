// The outgoing request object the stages fill in
// (service/http/HttpRequest.java), the response the executor hands back,
// and the HTTP status codes Spring's HttpStatus knows.
module Http {
  import opened Wrappers
  import opened Strings
  import opened Values
  import opened Errors

  /** What a request body can hold: a JSON value from the run request, a
   *  rendered template or raw auth body, or a form (name to values). */
  datatype Body =
    | JsonBody(json: Value)
    | TextBody(text: string)
    | FormBody(fields: map<string, seq<Value>>)

  /** The body as templates see it. */
  function BodyValue(b: Body): Value
  {
    match b
    case JsonBody(v) => v
    case TextBody(s) => Str(s)
    case FormBody(f) => Object(map k | k in f :: List(f[k]))
  }

  /** A header map as a template value: name to list of values. */
  function HeadersValue(h: map<string, seq<string>>): Value
  {
    Object(map k | k in h :: List(seq(|h[k]|, i requires 0 <= i < |h[k]| => Str(h[k][i]))))
  }

  /** The request fields, as one value. Header keys are exact. */
  datatype RequestData = RequestData(
    url: Option<string>,
    httpMethod: Option<string>,
    body: Option<Body>,
    headers: Option<map<string, seq<string>>>,
    readTimeoutSeconds: Option<int>,
    writeTimeoutSeconds: Option<int>,
    connectTimeoutSeconds: Option<int>,
    sslVerify: Option<bool>,
    trustStoreSecretName: Option<string>,
    trustStoreSecretPassword: Option<string>,
    keyStoreSecretName: Option<string>,
    keyStoreSecretPassword: Option<string>,
    encodeUrl: Option<bool>)

  /** A newly constructed request: timeouts 60/60/10 seconds, no certificate
   *  verification, URL encoding on, everything else null. */
  const FreshRequest: RequestData :=
    RequestData(None, None, None, None, Some(60), Some(60), Some(10), Some(false),
                None, None, None, None, Some(true))

  /** The mutable request object shared by the request stages. */
  class HttpRequest {
    var url: Option<string>
    var httpMethod: Option<string>
    var body: Option<Body>
    var headers: Option<map<string, seq<string>>>
    var readTimeoutSeconds: Option<int>
    var writeTimeoutSeconds: Option<int>
    var connectTimeoutSeconds: Option<int>
    var sslVerify: Option<bool>
    var trustStoreSecretName: Option<string>
    var trustStoreSecretPassword: Option<string>
    var keyStoreSecretName: Option<string>
    var keyStoreSecretPassword: Option<string>
    var encodeUrl: Option<bool>

    /** All fields at once. */
    function State(): RequestData
      reads this
    {
      RequestData(url, httpMethod, body, headers, readTimeoutSeconds, writeTimeoutSeconds,
                  connectTimeoutSeconds, sslVerify, trustStoreSecretName,
                  trustStoreSecretPassword, keyStoreSecretName, keyStoreSecretPassword,
                  encodeUrl)
    }

    constructor()
      ensures State() == FreshRequest
    {
      url, httpMethod, body, headers := None, None, None, None;
      readTimeoutSeconds, writeTimeoutSeconds, connectTimeoutSeconds := Some(60), Some(60), Some(10);
      sslVerify := Some(false);
      trustStoreSecretName, trustStoreSecretPassword := None, None;
      keyStoreSecretName, keyStoreSecretPassword := None, None;
      encodeUrl := Some(true);
    }
  }

  /** A response as the executor returns it. Header names are lower-cased
   *  (HttpHeaders compares names ignoring case); the body may be null. */
  datatype ResponseEntity = ResponseEntity(
    status: int,
    headers: map<string, seq<string>>,
    body: Option<seq<byte>>)

  /** `HttpStatusCode.is2xxSuccessful`. */
  predicate Is2xx(code: int) { code / 100 == 2 }

  /** `HttpStatusCode.is3xxRedirection`. */
  predicate Is3xx(code: int) { code / 100 == 3 }

  /** The codes of Spring Framework 6's HttpStatus enumeration, the only ones
   *  `HttpStatus.valueOf(int)` accepts. */
  predicate IsKnownStatus(code: int)
  {
    (100 <= code <= 103) || (200 <= code <= 208) || code == 226 ||
    (300 <= code <= 305) || code == 307 || code == 308 ||
    (400 <= code <= 426) || code == 428 || code == 429 || code == 431 || code == 451 ||
    (500 <= code <= 511)
  }

  /** The first Content-Type value, if there is a non-empty one. */
  function ContentTypeValue(headers: map<string, seq<string>>): Option<string>
  {
    if "content-type" in headers && |headers["content-type"]| > 0 && headers["content-type"][0] != ""
    then Some(headers["content-type"][0]) else None
  }

  /** The `type/subtype` part of a media type: the text before any ';',
   *  trimmed, with a bare "*" standing for the full wildcard. */
  function FullType(v: string): string
  {
    var trimmed := Trim(match IndexOf(v, ';') case Some(i) => v[..i] case None => v);
    if trimmed == "*" then "*/*" else trimmed
  }

  /** What `MimeTypeUtils.parseMimeType` accepts around the first '/': a
   *  non-empty type, a non-empty subtype without a further '/', and a
   *  wildcard type only with a wildcard subtype. */
  predicate ValidMediaParts(t: string, s: string)
  {
    t != "" && s != "" && '/' !in s && (t == "*" ==> s == "*")
  }

  /** `MimeTypeUtils.parseMimeType` reduced to the subtype, which is
   *  lower-cased; anything that is not a media type throws
   *  InvalidMediaTypeException. */
  function ParseSubtype(full: string): (r: Result<string, Error>)
    ensures r.Ok? ==> r.value == Lower(r.value) && '/' !in r.value && r.value != ""
    ensures r.Ok? ==> IndexOf(full, '/').Some? && r.value == Lower(full[IndexOf(full, '/').value + 1..])
    ensures r.Err? ==> r.error == Unexpected(InvalidMediaType)
    ensures '/' !in full ==> r.Err?
  {
    match IndexOf(full, '/')
    case None => Err(Unexpected(InvalidMediaType))
    case Some(i) =>
      var mainType := full[..i];
      var sub := full[i + 1..];
      if !ValidMediaParts(mainType, sub)
      then Err(Unexpected(InvalidMediaType))
      else
        LowerIdempotent(sub);
        LowerKeeps(sub, '/');
        Ok(Lower(sub))
  }

  /** `HttpHeaders.getContentType().getSubtype()`: None without a
   *  Content-Type; otherwise the lower-cased subtype of its first value,
   *  or the error reading it as a media type. */
  function ContentSubtype(headers: map<string, seq<string>>): (r: Result<Option<string>, Error>)
    ensures ContentTypeValue(headers).None? <==> r == Ok(None)
    ensures r.Ok? && r.value.Some? ==> r.value.value == Lower(r.value.value) && '/' !in r.value.value
    ensures r.Err? ==> r.error == Unexpected(InvalidMediaType)
  {
    match ContentTypeValue(headers)
    case None => Ok(None)
    case Some(v) =>
      var sub :- ParseSubtype(FullType(v));
      Ok(Some(sub))
  }

  /** The first Content-Type value `t/s` followed by parameters yields the
   *  lower-cased `s` exactly when `t` and `s` form a media type. */
  lemma HeaderSubtype(headers: map<string, seq<string>>, t: string, s: string, p: string)
    requires MediaText(t, s, p)
    requires "content-type" in headers && |headers["content-type"]| > 0 && headers["content-type"][0] == t + "/" + s + p
    ensures ContentSubtype(headers) ==
            if ValidMediaParts(t, s) then Ok(Some(Lower(s))) else Err(Unexpected(InvalidMediaType))
  {
    assert ContentTypeValue(headers) == Some(t + "/" + s + p);
    MediaTypeSubtype(t, s, p);
  }

  lemma LowerIdempotent(s: string)
    ensures Lower(Lower(s)) == Lower(s)
  {
  }

  lemma LowerKeeps(s: string, c: char)
    requires !('A' <= c <= 'Z') && !('a' <= c <= 'z')
    ensures c in Lower(s) <==> c in s
  {
    if c in Lower(s) {
      var i :| 0 <= i < |s| && Lower(s)[i] == c;
      assert s[i] == c;
    }
    if c in s {
      var i :| 0 <= i < |s| && s[i] == c;
      assert Lower(s)[i] == c;
    }
  }

  /** A header value `t/s` with parameters `p`: no ';' before the
   *  parameters, no '/' in the type, and no blanks at either end of the
   *  `type/subtype` part. */
  predicate MediaText(t: string, s: string, p: string)
  {
    && '/' !in t && ';' !in t && ';' !in s
    && (|t| > 0 ==> t[0] > ' ') && (|s| > 0 ==> s[|s| - 1] > ' ')
    && (p == "" || p[0] == ';')
  }

  /** The characters of a slice are characters of the whole. */
  lemma SliceKeepsAbsence(s: string, c: char, lo: nat, hi: nat)
    requires c !in s && lo <= hi <= |s|
    ensures c !in s[lo..hi]
  {
    forall k | 0 <= k < hi - lo
      ensures s[lo..hi][k] != c
    {
      assert s[lo..hi][k] == s[lo + k];
    }
  }

  /** Parameters after the first ';' are not part of the type, and a type
   *  without blanks at its ends is kept as it is. */
  lemma ParametersDropped(m: string, p: string)
    requires ';' !in m && |m| > 0 && m[0] > ' ' && m[|m| - 1] > ' ' && m != "*"
    requires p == "" || p[0] == ';'
    ensures FullType(m + p) == m
  {
    if p == "" {
      assert m + p == m;
    } else {
      IndexOfFirst(m + p, ';', |m|);
      assert (m + p)[..|m|] == m;
    }
    assert TrimStart(m) == m;
    assert TrimEnd(m) == m;
  }

  /** A text split at its first '/' parses iff the two parts form a media
   *  type; the subtype is then compared lower-cased. */
  lemma SubtypeLowerCased(t: string, s: string)
    requires '/' !in t
    ensures ParseSubtype(t + "/" + s) ==
            if ValidMediaParts(t, s) then Ok(Lower(s)) else Err(Unexpected(InvalidMediaType))
  {
    var full := t + "/" + s;
    assert full[..|t|] == t;
    IndexOfFirst(full, '/', |t|);
    assert full[|t| + 1..] == s;
  }

  /** A Content-Type value of the form `t/s` with parameters yields the
   *  lower-cased `s` exactly when `t` and `s` form a media type. */
  lemma MediaTypeSubtype(t: string, s: string, p: string)
    requires MediaText(t, s, p)
    ensures ParseSubtype(FullType(t + "/" + s + p)) ==
            if ValidMediaParts(t, s) then Ok(Lower(s)) else Err(Unexpected(InvalidMediaType))
  {
    var m := t + "/" + s;
    assert m + p == t + "/" + s + p;
    assert m[|t|] == '/';
    assert ';' !in m by {
      assert forall k :: 0 <= k < |m| ==> m[k] == (if k < |t| then t[k] else if k == |t| then '/' else s[k - |t| - 1]);
    }
    assert m[0] > ' ' && m[|m| - 1] > ' ';
    ParametersDropped(m, p);
    SubtypeLowerCased(t, s);
  }

  /** A value without a '/' is not a media type, unless it is the bare
   *  wildcard "*". */
  lemma SubtypeRequired(v: string)
    requires '/' !in v && FullType(v) != "*/*"
    ensures ParseSubtype(FullType(v)) == Err(Unexpected(InvalidMediaType))
  {
    var w := match IndexOf(v, ';') case Some(i) => v[..i] case None => v;
    assert '/' !in w by {
      if IndexOf(v, ';').Some? {
        SliceKeepsAbsence(v, '/', 0, IndexOf(v, ';').value);
      }
    }
    var ts := TrimStart(w);
    SliceKeepsAbsence(w, '/', |w| - |ts|, |w|);
    SliceKeepsAbsence(ts, '/', 0, |TrimEnd(ts)|);
    assert FullType(v) == TrimEnd(ts);
  }
}
