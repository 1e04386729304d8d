// Authentication towards a connected system (service/auth): the handler
// kinds and the factory that picks one by `auth.type`, the validation of
// the auth properties, the Basic credential, the token request, the token
// lookup through the cache, the service that chooses the authenticating
// system and the cache key, and the Set-Cookie extractor.
module Auth {
  import opened Wrappers
  import opened Strings
  import opened Errors
  import opened Values
  import Base64
  import opened CiMaps
  import opened Connectivity
  import opened Http
  import opened Cache
  import Seqs

  // ---------------------------------------------------------------------
  // Handler kinds and the factory

  /** The registered AuthHandler implementations. */
  datatype HandlerKind = NoAuthHandler | BasicAuthHandler | BasicAuthTokenHandler | BearerHandler

  /** `authType()` of each handler. */
  function AuthType(k: HandlerKind): string
  {
    match k
    case NoAuthHandler => "NoAuth"
    case BasicAuthHandler => "BasicAuth"
    case BasicAuthTokenHandler => "BasicAuthToken"
    case BearerHandler => "Bearer"
  }

  predicate HasType(t: string, k: HandlerKind)
  {
    EqualsIgnoreCase(t, AuthType(k))
  }

  /** `AuthHandlerFactory.get`: the first registered handler whose type
   *  equals `authType` ignoring case. A null type throws as soon as it is
   *  compared with a handler, so only with an empty registry does it get
   *  as far as AUTH_HANDLER_NOT_SUPPORTED. */
  function GetHandler(handlers: seq<HandlerKind>, authType: Option<string>): (r: Result<HandlerKind, Error>)
    ensures authType.None? && |handlers| > 0 ==> r == Err(Unexpected(NullPointer))
    ensures authType.None? && |handlers| == 0 ==> r == Err(RestError(AuthHandlerNotSupported))
    ensures authType.Some? ==> (r.Ok? <==> exists k :: k in handlers && HasType(authType.value, k))
    ensures authType.Some? && r.Err? ==> r.error == RestError(AuthHandlerNotSupported)
    ensures r.Ok? ==> authType.Some? && HasType(authType.value, r.value) &&
                      exists i :: 0 <= i < |handlers| && handlers[i] == r.value &&
                        forall j :: 0 <= j < i ==> !HasType(authType.value, handlers[j])
  {
    if authType.None? then
      if |handlers| == 0 then Err(RestError(AuthHandlerNotSupported)) else Err(Unexpected(NullPointer))
    else
      match Seqs.FirstWhere(handlers, k => HasType(authType.value, k))
      case Some(i) => Ok(handlers[i])
      case None => Err(RestError(AuthHandlerNotSupported))
  }

  lemma LowerConcrete()
    ensures Lower("NoAuth") == "noauth" && Lower("BasicAuth") == "basicauth"
    ensures Lower("BasicAuthToken") == "basicauthtoken" && Lower("Bearer") == "bearer"
  {
  }

  /** No two handler types are equal ignoring case. */
  lemma AuthTypesDistinct(k1: HandlerKind, k2: HandlerKind)
    requires k1 != k2
    ensures !EqualsIgnoreCase(AuthType(k1), AuthType(k2))
  {
    LowerConcrete();
    assert "noauth"[0] != "bearer"[0];
  }

  /** Every registered type resolves to its own handler, in any spelling
   *  of its letters' case. */
  lemma RegisteredTypeResolves(handlers: seq<HandlerKind>, k: HandlerKind, t: string)
    requires k in handlers && EqualsIgnoreCase(t, AuthType(k))
    ensures GetHandler(handlers, Some(t)) == Ok(k)
  {
    assert HasType(t, k);
    var r := GetHandler(handlers, Some(t));
    if r.value != k {
      AuthTypesDistinct(r.value, k);
    }
  }

  /** The factory always answers with a handler of the requested type, and
   *  handlers registered later are consulted only when no earlier one
   *  matches. */
  lemma EarlierRegistrationWins(first: seq<HandlerKind>, later: seq<HandlerKind>, t: string)
    requires GetHandler(first, Some(t)).Ok?
    ensures GetHandler(first + later, Some(t)) == GetHandler(first, Some(t))
  {
    Seqs.FirstWhereAppend(first, later, k => HasType(t, k));
  }

  // ---------------------------------------------------------------------
  // Validation of the auth properties

  /** The connection properties a handler may require. */
  datatype AuthProperty = Username | Password | TokenRef | Method | Url
  {
    /** The property name reported in AUTH_PROPERTIES_MISSING. */
    function Name(): string
    {
      match this
      case Username => "auth.username"
      case Password => "auth.password"
      case TokenRef => "auth.tokenRef"
      case Method => "auth.method"
      case Url => "auth.url"
    }
  }

  function Field(c: ConnectionProperties, p: AuthProperty): Option<string>
  {
    match p
    case Username => c.authUsername
    case Password => c.authPassword
    case TokenRef => c.authTokenRef
    case Method => c.authMethod
    case Url => c.authUrl
  }

  /** The properties each handler's `validate` checks. */
  function Required(k: HandlerKind): set<AuthProperty>
  {
    match k
    case NoAuthHandler => {}
    case BasicAuthHandler => {Username, Password}
    case BasicAuthTokenHandler => {Username, Password, TokenRef, Method, Url}
    case BearerHandler => {Url, Method, TokenRef}
  }

  /** The required properties that are blank in `c`. */
  function Missing(k: HandlerKind, c: ConnectionProperties): set<AuthProperty>
  {
    set p | p in Required(k) && IsBlank(Field(c, p))
  }

  function Names(ps: set<AuthProperty>): set<string>
  {
    set p | p in ps :: p.Name()
  }

  /** Throwing AUTH_PROPERTIES_MISSING iff something is missing. */
  function Reject(missing: set<AuthProperty>): Outcome<Error>
  {
    if missing == {} then Pass else Fail(Rest(AuthPropertiesMissing, Names(missing)))
  }

  /** What `validate` does for a handler: nothing for NoAuth; otherwise it
   *  reads the first connection and rejects the blank required properties. */
  function Validation(k: HandlerKind, s: Subsystem): Outcome<Error>
  {
    if k == NoAuthHandler then Pass
    else match GetConnection(s)
      case Err(e) => Fail(e)
      case Ok(c) => Reject(Missing(k, c))
  }

  /** Validation fails with exactly the names of the blank required
   *  properties, and passes iff none of them is blank. */
  lemma ValidationReportsEveryBlankProperty(k: HandlerKind, s: Subsystem, c: ConnectionProperties)
    requires k != NoAuthHandler && GetConnection(s) == Ok(c)
    ensures Validation(k, s).Pass? <==> forall p :: p in Required(k) ==> !IsBlank(Field(c, p))
    ensures Validation(k, s).Fail? ==>
              Validation(k, s).error.Rest? &&
              Validation(k, s).error.code == AuthPropertiesMissing &&
              forall p: AuthProperty :: p.Name() in Validation(k, s).error.missing <==> p in Required(k) && IsBlank(Field(c, p))
  {
    var m := Missing(k, c);
    if m != {} {
      forall p: AuthProperty
        ensures p.Name() in Names(m) <==> p in m
      {
        if p.Name() in Names(m) {
          var q :| q in m && q.Name() == p.Name();
          NameInjective(p, q);
        }
      }
    } else {
      forall p | p in Required(k)
        ensures !IsBlank(Field(c, p))
      {
        assert p !in m;
      }
    }
  }

  /** The property a reported name stands for. */
  function PropertyNamed(n: string): Option<AuthProperty>
  {
    if n == "auth.username" then Some(Username)
    else if n == "auth.password" then Some(Password)
    else if n == "auth.tokenRef" then Some(TokenRef)
    else if n == "auth.method" then Some(Method)
    else if n == "auth.url" then Some(Url)
    else None
  }

  lemma NameInjective(p: AuthProperty, q: AuthProperty)
    requires p.Name() == q.Name()
    ensures p == q
  {
    assert PropertyNamed(p.Name()) == Some(p);
    assert PropertyNamed(q.Name()) == Some(q);
  }

  /** `BasicAuthHandler.validate`. */
  method ValidateBasicAuth(s: Subsystem) returns (r: Outcome<Error>)
    ensures r == Validation(BasicAuthHandler, s)
  {
    if |s.connectionProperties| == 0 {
      return Fail(Unexpected(IndexOutOfBounds));
    }
    var c := s.connectionProperties[0];
    var missing: set<AuthProperty> := {};
    if IsBlank(c.authUsername) {
      missing := missing + {Username};
    }
    if IsBlank(c.authPassword) {
      missing := missing + {Password};
    }
    assert missing == Missing(BasicAuthHandler, c);
    r := Reject(missing);
  }

  /** The five checks of `BasicAuthTokenHandler.validate` collect exactly
   *  the blank required properties. */
  lemma MissingForBasicAuthToken(c: ConnectionProperties, first: set<AuthProperty>, all: set<AuthProperty>)
    requires first == (if IsBlank(c.authUsername) then {Username} else {}) +
                      (if IsBlank(c.authPassword) then {Password} else {})
    requires all == first + (if IsBlank(c.authTokenRef) then {TokenRef} else {}) +
                    (if IsBlank(c.authMethod) then {Method} else {}) +
                    (if IsBlank(c.authUrl) then {Url} else {})
    ensures all == Missing(BasicAuthTokenHandler, c)
  {
    forall p | p in all ensures p in Missing(BasicAuthTokenHandler, c) {
    }
    forall p | p in Missing(BasicAuthTokenHandler, c) ensures p in all {
    }
  }

  /** `BasicAuthTokenHandler.validate`. */
  method ValidateBasicAuthToken(s: Subsystem) returns (r: Outcome<Error>)
    ensures r == Validation(BasicAuthTokenHandler, s)
  {
    if |s.connectionProperties| == 0 {
      return Fail(Unexpected(IndexOutOfBounds));
    }
    var c := s.connectionProperties[0];
    var missing: set<AuthProperty> := {};
    if IsBlank(c.authUsername) {
      missing := missing + {Username};
    }
    if IsBlank(c.authPassword) {
      missing := missing + {Password};
    }
    ghost var userAndPassword := missing;
    if IsBlank(c.authTokenRef) {
      missing := missing + {TokenRef};
    }
    if IsBlank(c.authMethod) {
      missing := missing + {Method};
    }
    if IsBlank(c.authUrl) {
      missing := missing + {Url};
    }
    MissingForBasicAuthToken(c, userAndPassword, missing);
    r := Reject(missing);
  }

  /** `BearerHandler.validate`. */
  method ValidateBearer(s: Subsystem) returns (r: Outcome<Error>)
    ensures r == Validation(BearerHandler, s)
  {
    if |s.connectionProperties| == 0 {
      return Fail(Unexpected(IndexOutOfBounds));
    }
    var c := s.connectionProperties[0];
    var missing: set<AuthProperty> := {};
    if IsBlank(c.authUrl) {
      missing := missing + {Url};
    }
    if IsBlank(c.authMethod) {
      missing := missing + {Method};
    }
    if IsBlank(c.authTokenRef) {
      missing := missing + {TokenRef};
    }
    assert missing == Missing(BearerHandler, c);
    r := Reject(missing);
  }

  // ---------------------------------------------------------------------
  // The Basic credential (RFC 7617 section 2, Base64 of RFC 4648 section 4)

  /** Base64 of the UTF-8 bytes of "user:password", a null part printed
   *  as empty. */
  function BasicCredential(user: Option<string>, password: Option<string>): (t: string)
    ensures Base64.Decode(t) == Some(Base64.Utf8(OrEmpty(user) + ":" + OrEmpty(password)))
  {
    Base64.DecodeEncode(Base64.Utf8(OrEmpty(user) + ":" + OrEmpty(password)));
    Base64.Encode(Base64.Utf8(OrEmpty(user) + ":" + OrEmpty(password)))
  }

  lemma AsciiUtf8Injective(a: string, b: string)
    requires Base64.IsAscii(a) && Base64.IsAscii(b) && Base64.Utf8(a) == Base64.Utf8(b)
    ensures a == b
  {
    Base64.Utf8Ascii(a);
    Base64.Utf8Ascii(b);
    assert forall i :: 0 <= i < |a| ==> a[i] as int == b[i] as int;
  }

  lemma ColonSplitUnique(u1: string, p1: string, u2: string, p2: string)
    requires ':' !in u1 && ':' !in u2 && u1 + ":" + p1 == u2 + ":" + p2
    ensures u1 == u2 && p1 == p2
  {
    var s := u1 + ":" + p1;
    assert s[|u1|] == ':' && s[..|u1|] == u1;
    assert s[|u2|] == ':' && s[..|u2|] == u2;
    IndexOfFirst(s, ':', |u1|);
    assert s == u2 + ":" + p2;
    IndexOfFirst(s, ':', |u2|);
    assert s[|u1| + 1..] == p1;
  }

  /** The credential identifies user and password: for ASCII values and a
   *  user id without ':' (as RFC 7617 demands), equal credentials come
   *  from equal pairs. */
  lemma BasicCredentialIdentifies(u1: string, p1: string, u2: string, p2: string)
    requires ':' !in u1 && ':' !in u2
    requires Base64.IsAscii(u1 + ":" + p1) && Base64.IsAscii(u2 + ":" + p2)
    requires BasicCredential(Some(u1), Some(p1)) == BasicCredential(Some(u2), Some(p2))
    ensures u1 == u2 && p1 == p2
  {
    AsciiUtf8Injective(u1 + ":" + p1, u2 + ":" + p2);
    ColonSplitUnique(u1, p1, u2, p2);
  }

  /** The Authorization value the token request carries. */
  function BasicAuthorization(c: ConnectionProperties): string
  {
    "Basic " + BasicCredential(c.authUsername, c.authPassword)
  }

  // ---------------------------------------------------------------------
  // The form body of an auth request

  /** `\w` of java.util.regex. */
  predicate IsWordChar(ch: char)
  {
    ('a' <= ch <= 'z') || ('A' <= ch <= 'Z') || ('0' <= ch <= '9') || ch == '_'
  }

  /** One `\w+=[^&]++` element of the form-body pattern: a non-empty run
   *  of word characters, '=' and a non-empty rest (separators are split
   *  off already, so the rest has no '&'). */
  predicate IsFormPair(p: string)
  {
    match IndexOf(p, '=')
    case None => false
    case Some(i) => 0 < i && i + 1 < |p| && forall k :: 0 <= k < i ==> IsWordChar(p[k])
  }

  /** The whole text matches `^(?>\w+=[^&]++)(?>&\w+=[^&]++)*$`. */
  predicate IsFormText(s: string)
  {
    forall p :: p in SplitOn(s, '&') ==> IsFormPair(p)
  }

  /** `pair.split("=", 2)`: the name before the first '=', the rest after. */
  function SplitPair(p: string): (r: (string, string))
    requires IsFormPair(p)
    ensures r.0 != "" && r.1 != "" && '=' !in r.0 && p == r.0 + "=" + r.1
  {
    var i := IndexOf(p, '=').value;
    assert p == p[..i] + "=" + p[i + 1..];
    (p[..i], p[i + 1..])
  }

  /** Without empty pieces, `String.split` keeps every piece. */
  lemma SplitKeepsNonEmptyPieces(s: string, sep: char)
    requires forall p :: p in SplitOn(s, sep) ==> p != ""
    ensures JavaSplit(s, sep) == SplitOn(s, sep)
  {
    var parts := SplitOn(s, sep);
    assert parts[|parts| - 1] in parts;
    if sep !in s {
      assert IndexOf(s, sep).None?;
    }
  }

  /** The name/value pairs of a form text, in order. */
  function FormPairs(s: string): (pairs: seq<(string, string)>)
    requires IsFormText(s)
    ensures |pairs| == |JavaSplit(s, '&')|
  {
    SplitKeepsNonEmptyPieces(s, '&');
    var parts := JavaSplit(s, '&');
    seq(|parts|, i requires 0 <= i < |parts| => assert parts[i] in SplitOn(s, '&'); SplitPair(parts[i]))
  }

  /** `LinkedMultiValueMap.add` of each pair, in order. */
  function AddAll(m: map<string, seq<Value>>, pairs: seq<(string, string)>): map<string, seq<Value>>
  {
    if |pairs| == 0 then m
    else
      var acc := AddAll(m, pairs[..|pairs| - 1]);
      var (name, value) := pairs[|pairs| - 1];
      acc[name := (if name in acc then acc[name] else []) + [Str(value)]]
  }

  /** The values given for `name`, in order: the reference for AddAll. */
  function ValuesFor(pairs: seq<(string, string)>, name: string): seq<Value>
  {
    if |pairs| == 0 then []
    else (if pairs[0].0 == name then [Str(pairs[0].1)] else []) + ValuesFor(pairs[1..], name)
  }

  lemma {:induction false} ValuesForSnoc(pairs: seq<(string, string)>, x: (string, string), name: string)
    ensures ValuesFor(pairs + [x], name) == ValuesFor(pairs, name) + (if x.0 == name then [Str(x.1)] else [])
  {
    if |pairs| > 0 {
      assert (pairs + [x])[1..] == pairs[1..] + [x];
      ValuesForSnoc(pairs[1..], x, name);
    } else {
      assert pairs + [x] == [x];
    }
  }

  /** A form built by AddAll lists, for every name given, all its values
   *  in the order they appear, and holds no other name. */
  lemma {:induction false} AddAllCollectsValues(pairs: seq<(string, string)>, name: string)
    ensures name in AddAll(map[], pairs) <==> exists i :: 0 <= i < |pairs| && pairs[i].0 == name
    ensures name in AddAll(map[], pairs) ==> AddAll(map[], pairs)[name] == ValuesFor(pairs, name)
    ensures name !in AddAll(map[], pairs) ==> ValuesFor(pairs, name) == []
  {
    if |pairs| > 0 {
      var init := pairs[..|pairs| - 1];
      var x := pairs[|pairs| - 1];
      AddAllCollectsValues(init, name);
      assert init + [x] == pairs;
      ValuesForSnoc(init, x, name);
      if x.0 != name {
        if exists i :: 0 <= i < |pairs| && pairs[i].0 == name {
          var i :| 0 <= i < |pairs| && pairs[i].0 == name;
          assert init[i] == pairs[i];
        }
      }
    }
  }

  /** `toMultiValueMap`: a JSON object becomes one single-valued entry per
   *  field; other JSON throws (null dereferenced, or a value that is not a
   *  map); a non-JSON text must match the form pattern and is split into
   *  pairs, else INVALID_AUTH_BODY. */
  function FormFields(authBody: string, readJson: JsonReader): (r: Result<map<string, seq<Value>>, Error>)
  {
    match readJson(authBody)
    case Some(Object(fields)) => Ok(map k | k in fields :: [fields[k]])
    case Some(Null) => Err(Unexpected(NullPointer))
    case Some(_) => Err(Unexpected(IllegalState))
    case None =>
      if IsFormText(authBody) then Ok(AddAll(map[], FormPairs(authBody)))
      else Err(RestError(InvalidAuthBody))
  }

  /** A non-JSON body is accepted exactly when it matches the pattern, and
   *  then every name maps to all its values in order. */
  lemma FormTextSplit(authBody: string, readJson: JsonReader, name: string)
    requires readJson(authBody).None?
    ensures FormFields(authBody, readJson).Ok? <==> IsFormText(authBody)
    ensures FormFields(authBody, readJson).Err? ==> FormFields(authBody, readJson).error == RestError(InvalidAuthBody)
    ensures IsFormText(authBody) ==>
              var pairs := FormPairs(authBody);
              var f := FormFields(authBody, readJson).value;
              (name in f <==> exists i :: 0 <= i < |pairs| && pairs[i].0 == name) &&
              (name in f ==> f[name] == ValuesFor(pairs, name))
  {
    if IsFormText(authBody) {
      AddAllCollectsValues(FormPairs(authBody), name);
    }
  }

  /** The `i`th pair of a form text is its `i`th piece split at '='. */
  lemma FormPairAt(s: string, i: nat)
    requires IsFormText(s) && i < |JavaSplit(s, '&')|
    ensures IsFormPair(JavaSplit(s, '&')[i])
    ensures FormPairs(s)[i] == SplitPair(JavaSplit(s, '&')[i])
  {
    SplitKeepsNonEmptyPieces(s, '&');
    assert JavaSplit(s, '&')[i] in SplitOn(s, '&');
  }

  /** Adding one more pair to the pairs added so far. */
  lemma AddAllSnoc(pairs: seq<(string, string)>, i: nat)
    requires i < |pairs|
    ensures AddAll(map[], pairs[..i + 1]) ==
            var acc := AddAll(map[], pairs[..i]);
            acc[pairs[i].0 := (if pairs[i].0 in acc then acc[pairs[i].0] else []) + [Str(pairs[i].1)]]
  {
    assert pairs[..i + 1][..i] == pairs[..i];
  }

  /** The form half of `toMultiValueMap`: the text split at '&', each
   *  piece split at its first '=', the pairs added one at a time. */
  method AddFormPairs(authBody: string) returns (m: map<string, seq<Value>>)
    requires IsFormText(authBody)
    ensures m == AddAll(map[], FormPairs(authBody))
  {
    var parts := JavaSplit(authBody, '&');
    ghost var pairs := FormPairs(authBody);
    m := map[];
    var i := 0;
    while i < |parts|
      invariant 0 <= i <= |parts| == |pairs|
      invariant m == AddAll(map[], pairs[..i])
    {
      FormPairAt(authBody, i);
      var pair := SplitPair(parts[i]);
      AddAllSnoc(pairs, i);
      m := m[pair.0 := (if pair.0 in m then m[pair.0] else []) + [Str(pair.1)]];
      i := i + 1;
    }
    assert pairs[..|parts|] == pairs;
  }

  /** `toMultiValueMap`: a JSON object field by field, else the form. */
  method ToMultiValueMap(authBody: string, readJson: JsonReader) returns (r: Result<map<string, seq<Value>>, Error>)
    ensures r == FormFields(authBody, readJson)
  {
    var json := readJson(authBody);
    if json.Some? {
      match json.value
      case Object(fields) => return Ok(map k | k in fields :: [fields[k]]);
      case Null => return Err(Unexpected(NullPointer));
      case _ => return Err(Unexpected(IllegalState));
    }
    if !IsFormText(authBody) {
      return Err(RestError(InvalidAuthBody));
    }
    var m := AddFormPairs(authBody);
    return Ok(m);
  }

  /** `urlEncodeBody`: the first Content-Type value is exactly
   *  "application/x-www-form-urlencoded". */
  predicate UrlEncodeBody(headers: map<string, seq<string>>)
  {
    match CiGet(headers, "content-type")
    case None => false
    case Some(vs) => |vs| > 0 && vs[0] == "application/x-www-form-urlencoded"
  }

  // ---------------------------------------------------------------------
  // The token request

  /** The auth request headers: the configured ones put into a
   *  case-insensitive map (a null map throws), then, for Basic, the
   *  Authorization header put over whatever was configured. */
  function AuthHeaders(c: ConnectionProperties, basicAuth: bool): Result<map<string, seq<string>>, Error>
  {
    if c.authHeaders.None? then Err(Unexpected(NullPointer))
    else
      var configured := CiPutAll(map[], c.authHeaders.value);
      Ok(if basicAuth then CiPut(configured, "Authorization", [BasicAuthorization(c)]) else configured)
  }

  /** The auth request body: a form for a non-blank body sent url-encoded,
   *  otherwise the text as configured (possibly null). */
  function AuthBody(authBody: Option<string>, headers: map<string, seq<string>>, readJson: JsonReader): Result<Option<Body>, Error>
  {
    if !IsBlank(authBody) && UrlEncodeBody(headers) then
      var form :- FormFields(authBody.value, readJson);
      Ok(Some(FormBody(form)))
    else Ok(if authBody.Some? then Some(TextBody(authBody.value)) else None)
  }

  /** What `createSubsystemAuthRequest` produces: a fresh request to the
   *  joined auth URL with the configured auth method, URL encoding on, the
   *  headers and body above, the connection's `sslVerify`, and the secret
   *  names and passwords only when `sslVerify` is true. */
  function AuthRequest(s: Subsystem, basicAuth: bool, readJson: JsonReader): Result<RequestData, Error>
  {
    var c :- GetConnection(s);
    var url :- JoinedAuthUrl(s);
    var headers :- AuthHeaders(c, basicAuth);
    var body :- AuthBody(c.authBody, headers, readJson);
    Ok(Assemble(c, url, headers, body))
  }

  /** The fields `createSubsystemAuthRequest` sets on a fresh request. */
  function Assemble(c: ConnectionProperties, url: string, headers: map<string, seq<string>>, body: Option<Body>): RequestData
  {
    var verify := c.sslVerify == Some(true);
    FreshRequest.(
      url := Some(url),
      httpMethod := c.authMethod,
      encodeUrl := Some(true),
      headers := Some(headers),
      body := body,
      sslVerify := c.sslVerify,
      keyStoreSecretName := if verify then c.sslKeyStoreSecretName else None,
      keyStoreSecretPassword := if verify then c.sslKeyStoreSecretPassword else None,
      trustStoreSecretName := if verify then c.sslTrustStoreSecretName else None,
      trustStoreSecretPassword := if verify then c.sslTrustStoreSecretPassword else None)
  }

  /** With `basicAuth` the request carries "Basic " + the credential as its
   *  only Authorization value, whatever was configured; without it every
   *  header is the last configured entry of that name ignoring case. */
  lemma AuthorizationHeader(s: Subsystem, basicAuth: bool, readJson: JsonReader, name: string)
    requires AuthRequest(s, basicAuth, readJson).Ok?
    ensures var c := s.connectionProperties[0];
            var h := AuthRequest(s, basicAuth, readJson).value.headers.value;
            c.authHeaders.Some? &&
            (basicAuth ==> CiGet(h, "authorization") == Some(["Basic " + BasicCredential(c.authUsername, c.authPassword)])) &&
            (!basicAuth ==> CiGet(h, name) == match LastMatchIndex(c.authHeaders.value, name)
                                              case Some(i) => Some(c.authHeaders.value[i].1)
                                              case None => None)
  {
    var c := s.connectionProperties[0];
    assert Lower("Authorization") == Lower("authorization");
    CiPutAllGet(map[], c.authHeaders.value, name);
  }

  /** The auth request fails only for an empty connection list, null auth
   *  headers, or a url-encoded body that is not a valid form. */
  lemma AuthRequestFailures(s: Subsystem, basicAuth: bool, readJson: JsonReader)
    requires |s.connectionProperties| > 0 && s.connectionProperties[0].authHeaders.Some?
    ensures var c := s.connectionProperties[0];
            var h := AuthHeaders(c, basicAuth).value;
            AuthRequest(s, basicAuth, readJson).Err? <==>
              !IsBlank(c.authBody) && UrlEncodeBody(h) && FormFields(c.authBody.value, readJson).Err?
  {
  }

  /** Certificate secrets are copied onto the auth request only when the
   *  connection verifies certificates; the body is a form only when the
   *  headers ask for url encoding. */
  lemma AuthRequestSslAndBody(s: Subsystem, basicAuth: bool, readJson: JsonReader)
    requires AuthRequest(s, basicAuth, readJson).Ok?
    ensures var c := s.connectionProperties[0];
            var r := AuthRequest(s, basicAuth, readJson).value;
            r.sslVerify == c.sslVerify &&
            (c.sslVerify == Some(true) ==>
               r.keyStoreSecretName == c.sslKeyStoreSecretName &&
               r.keyStoreSecretPassword == c.sslKeyStoreSecretPassword &&
               r.trustStoreSecretName == c.sslTrustStoreSecretName &&
               r.trustStoreSecretPassword == c.sslTrustStoreSecretPassword) &&
            (c.sslVerify != Some(true) ==>
               r.keyStoreSecretName.None? && r.keyStoreSecretPassword.None? &&
               r.trustStoreSecretName.None? && r.trustStoreSecretPassword.None?) &&
            ((r.body.Some? && r.body.value.FormBody?) <==> !IsBlank(c.authBody) && UrlEncodeBody(r.headers.value))
  {
  }

  /** AuthRequest step by step, in the order the setters run. */
  lemma AuthRequestSteps(s: Subsystem, basicAuth: bool, readJson: JsonReader)
    ensures |s.connectionProperties| == 0 ==> AuthRequest(s, basicAuth, readJson) == Err(Unexpected(IndexOutOfBounds))
    ensures |s.connectionProperties| > 0 && s.connectionProperties[0].authHeaders.None? ==>
              AuthRequest(s, basicAuth, readJson) == Err(Unexpected(NullPointer))
    ensures |s.connectionProperties| > 0 && s.connectionProperties[0].authHeaders.Some? ==>
              var c := s.connectionProperties[0];
              var headers := AuthHeaders(c, basicAuth).value;
              AuthRequest(s, basicAuth, readJson) ==
                match AuthBody(c.authBody, headers, readJson)
                case Ok(body) => Ok(Assemble(c, JoinedAuthUrl(s).value, headers, body))
                case Err(e) => Err(e)
  {
  }

  /** The body half of `createSubsystemAuthRequest`: a form built by
   *  `toMultiValueMap`, or the configured text. */
  method BuildAuthBody(authBody: Option<string>, headers: map<string, seq<string>>, readJson: JsonReader)
    returns (r: Result<Option<Body>, Error>)
    ensures r == AuthBody(authBody, headers, readJson)
  {
    if !IsBlank(authBody) && UrlEncodeBody(headers) {
      var form := ToMultiValueMap(authBody.value, readJson);
      if form.Err? {
        return Err(form.error);
      }
      return Ok(Some(FormBody(form.value)));
    }
    return Ok(if authBody.Some? then Some(TextBody(authBody.value)) else None);
  }

  /** The target half of `createSubsystemAuthRequest`: the joined auth
   *  URL, the auth method, and URL encoding on. */
  method SetTarget(request: HttpRequest, url: string, authMethod: Option<string>)
    modifies request
    ensures request.State() == old(request.State()).(url := Some(url), httpMethod := authMethod, encodeUrl := Some(true))
  {
    request.url := Some(url);
    request.httpMethod := authMethod;
    request.encodeUrl := Some(true);
  }

  /** The certificate half of `createSubsystemAuthRequest`: the verify
   *  flag always, the secret names and passwords only when verifying. */
  method SetSslProperties(request: HttpRequest, c: ConnectionProperties)
    modifies request
    ensures var verify := c.sslVerify == Some(true);
            request.State() == old(request.State()).(
              sslVerify := c.sslVerify,
              keyStoreSecretName := if verify then c.sslKeyStoreSecretName else old(request.keyStoreSecretName),
              keyStoreSecretPassword := if verify then c.sslKeyStoreSecretPassword else old(request.keyStoreSecretPassword),
              trustStoreSecretName := if verify then c.sslTrustStoreSecretName else old(request.trustStoreSecretName),
              trustStoreSecretPassword := if verify then c.sslTrustStoreSecretPassword else old(request.trustStoreSecretPassword))
  {
    request.sslVerify := c.sslVerify;
    if c.sslVerify == Some(true) {
      request.keyStoreSecretName := c.sslKeyStoreSecretName;
      request.keyStoreSecretPassword := c.sslKeyStoreSecretPassword;
      request.trustStoreSecretName := c.sslTrustStoreSecretName;
      request.trustStoreSecretPassword := c.sslTrustStoreSecretPassword;
    }
  }

  /** `createSubsystemAuthRequest`: a new HttpRequest filled in by setters. */
  method CreateSubsystemAuthRequest(s: Subsystem, basicAuth: bool, readJson: JsonReader)
    returns (r: Result<HttpRequest, Error>)
    ensures r.Ok? <==> AuthRequest(s, basicAuth, readJson).Ok?
    ensures r.Ok? ==> fresh(r.value) && r.value.State() == AuthRequest(s, basicAuth, readJson).value
    ensures r.Err? ==> r.error == AuthRequest(s, basicAuth, readJson).error
  {
    AuthRequestSteps(s, basicAuth, readJson);
    var request := new HttpRequest();
    if |s.connectionProperties| == 0 {
      return Err(Unexpected(IndexOutOfBounds));
    }
    var c := s.connectionProperties[0];
    var url := JoinedAuthUrl(s);
    SetTarget(request, url.value, c.authMethod);
    if c.authHeaders.None? {
      return Err(Unexpected(NullPointer));
    }
    var headers := AuthHeaders(c, basicAuth).value;
    request.headers := Some(headers);
    var body := BuildAuthBody(c.authBody, headers, readJson);
    if body.Err? {
      return Err(body.error);
    }
    request.body := body.value;
    SetSslProperties(request, c);
    assert request.State() == Assemble(c, url.value, headers, body.value);
    return Ok(request);
  }

  /** The collaborators of the handlers, as black boxes: the connected-
   *  system executor (a response, a null response, or a failure), the
   *  token extractor (a jq query over the response body), the JSON reader,
   *  and the token cache's lookup of a live entry. */
  datatype AuthBackend = AuthBackend(
    execute: RequestData -> Result<Option<ResponseEntity>, Error>,
    extractToken: (ResponseEntity, Option<string>) -> Result<string, Error>,
    readJson: JsonReader,
    cached: string -> Option<TokenData>)

  /** `executeAuthRequest`: the auth request is sent once, without retry
   *  handlers; a null response or a status that is neither 2xx nor 3xx
   *  is GET_AUTH_TOKEN_ERROR. */
  function ExecuteAuthRequest(s: Subsystem, basicAuth: bool, b: AuthBackend): (r: Result<ResponseEntity, Error>)
    ensures r.Ok? ==> Is2xx(r.value.status) || Is3xx(r.value.status)
    ensures r.Ok? ==> AuthRequest(s, basicAuth, b.readJson).Ok? &&
                      b.execute(AuthRequest(s, basicAuth, b.readJson).value) == Ok(Some(r.value))
    ensures AuthRequest(s, basicAuth, b.readJson).Ok? ==>
              var sent := b.execute(AuthRequest(s, basicAuth, b.readJson).value);
              (sent == Ok(None) ==> r == Err(RestError(GetAuthTokenError))) &&
              (sent.Ok? && sent.value.Some? && !Is2xx(sent.value.value.status) && !Is3xx(sent.value.value.status) ==>
                 r == Err(RestError(GetAuthTokenError)))
  {
    var request :- AuthRequest(s, basicAuth, b.readJson);
    var response :- b.execute(request);
    if response.None? then Err(RestError(GetAuthTokenError))
    else if !Is2xx(response.value.status) && !Is3xx(response.value.status) then Err(RestError(GetAuthTokenError))
    else Ok(response.value)
  }

  /** `generateTokenData` of the token-issuing handlers: the Basic handler
   *  computes the credential itself; the other two send the auth request
   *  (BasicAuthToken with the Basic header, Bearer without) and extract
   *  the token from the answer using `auth.tokenRef`. The lifetime is the
   *  numeric `auth.expireSeconds`, 0 when it is missing or not a number.
   *  NoAuth never generates, as its `getAuthToken` returns null at once. */
  function GenerateTokenData(k: HandlerKind, s: Subsystem, b: AuthBackend): (r: Result<TokenData, Error>)
    requires k != NoAuthHandler
    ensures r.Ok? ==> GetConnection(s).Ok? &&
                      r.value.expireSeconds == Some(ToLong(GetConnection(s).value.authExpireSeconds))
    ensures k == BasicAuthHandler ==>
              (r.Ok? <==> GetConnection(s).Ok?) &&
              (r.Ok? ==> r.value.token == Some(BasicCredential(GetConnection(s).value.authUsername,
                                                               GetConnection(s).value.authPassword)))
    ensures k != BasicAuthHandler && r.Ok? ==>
              var sent := ExecuteAuthRequest(s, k == BasicAuthTokenHandler, b);
              sent.Ok? && b.extractToken(sent.value, GetConnection(s).value.authTokenRef).Ok? &&
              r.value.token == Some(b.extractToken(sent.value, GetConnection(s).value.authTokenRef).value)
  {
    if k == BasicAuthHandler then
      var c :- GetConnection(s);
      Ok(TokenData(Some(BasicCredential(c.authUsername, c.authPassword)), Some(ToLong(c.authExpireSeconds))))
    else
      // The connection is read before the request is sent; sending it
      // fails the same way when there is none.
      var c :- GetConnection(s);
      var response :- ExecuteAuthRequest(s, k == BasicAuthTokenHandler, b);
      var token :- b.extractToken(response, c.authTokenRef);
      Ok(TokenData(Some(token), Some(ToLong(c.authExpireSeconds))))
  }

  /** `getAuthToken`: validate, then the cached token for `cacheKey`, or a
   *  newly generated one on a miss. NoAuth answers null without either. */
  function GetAuthToken(k: HandlerKind, s: Subsystem, cacheKey: string, b: AuthBackend): (r: Result<Option<string>, Error>)
    ensures k == NoAuthHandler ==> r == Ok(None)
    ensures k != NoAuthHandler && Validation(k, s).Fail? ==> r == Err(Validation(k, s).error)
    ensures k != NoAuthHandler && Validation(k, s).Pass? && b.cached(cacheKey).Some? ==>
              r == Ok(b.cached(cacheKey).value.token)
    ensures k != NoAuthHandler && Validation(k, s).Pass? && b.cached(cacheKey).None? ==>
              r == (match GenerateTokenData(k, s, b)
                    case Ok(t) => Ok(t.token)
                    case Err(e) => Err(e))
  {
    if k == NoAuthHandler then Ok(None)
    else match Validation(k, s)
      case Fail(e) => Err(e)
      case Pass =>
        match b.cached(cacheKey)
        case Some(t) => Ok(t.token)
        case None =>
          var t :- GenerateTokenData(k, s, b);
          Ok(t.token)
  }

  /** Validation comes before the cache: even a cached token is not handed
   *  out while a required property is blank. */
  lemma ValidationPrecedesCache(k: HandlerKind, s: Subsystem, cacheKey: string, b: AuthBackend, p: AuthProperty)
    requires k != NoAuthHandler && |s.connectionProperties| > 0
    requires p in Required(k) && IsBlank(Field(s.connectionProperties[0], p))
    ensures GetAuthToken(k, s, cacheKey, b) ==
            Err(Rest(AuthPropertiesMissing, Names(Missing(k, s.connectionProperties[0]))))
  {
    assert p in Missing(k, s.connectionProperties[0]);
  }

  /** `getAuthKey`: NoAuth has none; the others read the first connection. */
  function HandlerAuthKey(k: HandlerKind, s: Subsystem): (r: Result<Option<string>, Error>)
    ensures k == NoAuthHandler ==> r == Ok(None)
    ensures k != NoAuthHandler ==> (r.Ok? <==> GetConnection(s).Ok?)
    ensures k != NoAuthHandler && r.Ok? ==> r.value == GetConnection(s).value.authKey
  {
    if k == NoAuthHandler then Ok(None)
    else
      var c :- GetConnection(s);
      Ok(c.authKey)
  }

  /** The token cache key: the authenticating system's name, "_", the key. */
  function CacheKey(name: string, authKey: string): (key: string)
    ensures |key| == |name| + 1 + |authKey|
    ensures key[..|name|] == name && key[|name|] == '_' && key[|name| + 1..] == authKey
  {
    name + "_" + authKey
  }

  /** Names without '_' give distinct cache keys to distinct (name, key)
   *  pairs. */
  lemma CacheKeysSeparateSystems(n1: string, k1: string, n2: string, k2: string)
    requires '_' !in n1 && '_' !in n2 && CacheKey(n1, k1) == CacheKey(n2, k2)
    ensures n1 == n2 && k1 == k2
  {
    var key := CacheKey(n1, k1);
    assert key[..|n1|] == n1 && key[|n1|] == '_';
    IndexOfFirst(key, '_', |n1|);
    assert key == n2 + "_" + k2 && key[..|n2|] == n2 && key[|n2|] == '_';
    IndexOfFirst(key, '_', |n2|);
    assert key[|n1| + 1..] == k1;
  }

  /** `AuthenticationService.authenticate`: authenticate as the attached
   *  auth subsystem, or as the system itself; pick the handler by that
   *  system's `auth.type`; a blank auth key means no token; otherwise the
   *  token for the key "name_authKey" (a null name throws). */
  function Authenticate(s: Subsystem, handlers: seq<HandlerKind>, b: AuthBackend): (r: Result<Option<string>, Error>)
  {
    var a := AuthenticatingSystem(s);
    var c :- GetConnection(a);
    var k :- GetHandler(handlers, c.authType);
    var key :- HandlerAuthKey(k, a);
    if IsBlank(key) then Ok(None)
    else if a.name.None? then Err(Unexpected(NullPointer))
    else GetAuthToken(k, a, CacheKey(a.name.value, key.value), b)
  }

  /** A blank auth key, or the NoAuth handler, yields no token and asks
   *  neither the cache nor the connected system. */
  lemma NoKeyNoToken(s: Subsystem, handlers: seq<HandlerKind>, b: AuthBackend)
    requires |AuthenticatingSystem(s).connectionProperties| > 0
    requires var c := AuthenticatingSystem(s).connectionProperties[0];
             GetHandler(handlers, c.authType).Ok? &&
             (GetHandler(handlers, c.authType).value == NoAuthHandler || IsBlank(c.authKey))
    ensures Authenticate(s, handlers, b) == Ok(None)
  {
  }

  /** With an auth subsystem attached, the system's own connection plays
   *  no part: two systems sharing the auth subsystem authenticate alike. */
  lemma AuthSubsystemDecides(s1: Subsystem, s2: Subsystem, handlers: seq<HandlerKind>, b: AuthBackend)
    requires s1.authSubsystem.Some? && s1.authSubsystem == s2.authSubsystem
    ensures Authenticate(s1, handlers, b) == Authenticate(s2, handlers, b)
  {
  }

  /** A valid system with a non-blank key gets the token cached under
   *  "name_authKey" for the handler of its `auth.type`. */
  lemma CachedTokenServed(s: Subsystem, handlers: seq<HandlerKind>, b: AuthBackend, t: TokenData)
    requires s.authSubsystem.None? && s.name.Some? && |s.connectionProperties| > 0
    requires var c := s.connectionProperties[0];
             GetHandler(handlers, c.authType).Ok? && !IsBlank(c.authKey) &&
             GetHandler(handlers, c.authType).value != NoAuthHandler &&
             Validation(GetHandler(handlers, c.authType).value, s).Pass? &&
             b.cached(s.name.value + "_" + c.authKey.value) == Some(t)
    ensures Authenticate(s, handlers, b) == Ok(t.token)
  {
  }

  // ---------------------------------------------------------------------
  // The Set-Cookie extractor

  /** The `;`-separated parts of a cookie that contain '=', trimmed. */
  function CookieParts(parts: seq<string>): (r: seq<string>)
    ensures forall k :: 0 <= k < |r| ==> '=' in r[k]
  {
    if |parts| == 0 then []
    else
      var rest := CookieParts(parts[1..]);
      if '=' in parts[0] then (TrimKeeps(parts[0], '='); [Trim(parts[0])] + rest) else rest
  }

  /** `splitByWholeSeparator(part, "=")` read as name and first value; a
   *  part that yields fewer than two tokens throws on the index. */
  function CookieEntry(part: string): (r: Result<(string, string), Error>)
    ensures r.Err? ==> r.error == Unexpected(IndexOutOfBounds)
    ensures r.Ok? ==> var t := SplitByWholeSeparator(part, '=');
                      |t| >= 2 && r.value == (t[0], t[1])
  {
    var tokens := SplitByWholeSeparator(part, '=');
    if |tokens| < 2 then Err(Unexpected(IndexOutOfBounds)) else Ok((tokens[0], tokens[1]))
  }

  /** An entry `name=value` without a further '=' reads as that name and
   *  value; one with more '='s keeps only the first value. */
  lemma CookieEntryNameValue(name: string, value: string, more: string)
    requires name != "" && value != "" && '=' !in name && '=' !in value
    requires more == "" || more[0] == '='
    ensures CookieEntry(name + "=" + value + more) == Ok((name, value))
  {
    var t := SplitByWholeSeparator(name + "=" + value + more, '=');
    if more == "" {
      assert name + "=" + value + more == name + ['='] + value;
      LastEntryTokens(name, value);
    } else {
      assert name + "=" + value + more == name + ['='] + (value + more);
      InnerEntryTokens(name, value, more);
    }
    assert |t| >= 2 && t[0] == name && t[1] == value;
  }

  /** The tokens of `name=value`. */
  lemma LastEntryTokens(name: string, value: string)
    requires name != "" && value != "" && '=' !in name && '=' !in value
    ensures SplitByWholeSeparator(name + ['='] + value, '=') == [name, value]
  {
    WholeTextOneToken(value, '=');
    SplitAtInnerSeparator(name, value, '=');
  }

  /** The tokens of `name=value=...` start with the name and the value. */
  lemma InnerEntryTokens(name: string, value: string, more: string)
    requires name != "" && value != "" && '=' !in name && '=' !in value
    requires more != "" && more[0] == '='
    ensures var t := SplitByWholeSeparator(name + ['='] + (value + more), '=');
            |t| >= 2 && t[0] == name && t[1] == value
  {
    var rest := more[1..];
    assert value + more == value + ['='] + rest;
    var u := SplitByWholeSeparator(value + ['='] + rest, '=');
    if rest == "" {
      SplitAtTrailingSeparator(value, '=');
      assert value + ['='] + "" == value + ['='];
    } else {
      SplitAtInnerSeparator(value, rest, '=');
    }
    assert |u| >= 1 && u[0] == value;
    SplitAtInnerSeparator(name, value + ['='] + rest, '=');
  }

  function CookieEntries(parts: seq<string>): (r: Result<seq<(string, string)>, Error>)
    ensures r.Ok? <==> forall k :: 0 <= k < |parts| ==> CookieEntry(parts[k]).Ok?
    ensures r.Ok? ==> |r.value| == |parts| &&
                      forall k :: 0 <= k < |parts| ==> r.value[k] == CookieEntry(parts[k]).value
    ensures r.Err? ==> r.error == Unexpected(IndexOutOfBounds)
  {
    if |parts| == 0 then Ok([])
    else
      var e :- CookieEntry(parts[0]);
      var rest :- CookieEntries(parts[1..]);
      Ok([e] + rest)
  }

  /** `extractCookieFromResponse`: the first Set-Cookie value mentioning
   *  `tokenRef` ignoring case is split into entries, and the value of the
   *  last entry named `tokenRef` ignoring case is returned (null when
   *  none is). A missing header or no mentioning value is
   *  COOKIE_AUTHENTICATION_FAILED. */
  function ExtractCookieFromResponse(response: ResponseEntity, tokenRef: Option<string>): (r: Result<Option<string>, Error>)
    ensures CiGet(response.headers, "Set-Cookie").None? ==> r == Err(RestError(CookieAuthenticationFailed))
    ensures CiGet(response.headers, "Set-Cookie").Some? &&
            (forall v :: v in CiGet(response.headers, "Set-Cookie").value ==> !ContainsIgnoreCase(v, tokenRef)) ==>
              r == Err(RestError(CookieAuthenticationFailed))
    ensures r.Ok? ==>
              tokenRef.Some? &&
              var cookie := Seqs.FindFirst(CiGet(response.headers, "Set-Cookie").value, v => ContainsIgnoreCase(v, tokenRef));
              cookie.Some? && ContainsIgnoreCase(cookie.value, tokenRef) &&
              var es := CookieEntries(CookieParts(JavaSplit(cookie.value, ';')));
              es.Ok? &&
              r.value == match LastMatchIndex(es.value, tokenRef.value)
                         case Some(i) => Some(es.value[i].1)
                         case None => None
    ensures var h := CiGet(response.headers, "Set-Cookie");
            h.Some? ==>
            var cookie := Seqs.FindFirst(h.value, v => ContainsIgnoreCase(v, tokenRef));
            cookie.Some? && CookieEntries(CookieParts(JavaSplit(cookie.value, ';'))).Ok? ==> r.Ok?
    ensures r.Err? ==> r.error == RestError(CookieAuthenticationFailed) || r.error == Unexpected(IndexOutOfBounds)
  {
    match CiGet(response.headers, "Set-Cookie")
    case None => Err(RestError(CookieAuthenticationFailed))
    case Some(values) =>
      match Seqs.FindFirst(values, v => ContainsIgnoreCase(v, tokenRef))
      case None => Err(RestError(CookieAuthenticationFailed))
      case Some(cookie) =>
        var entries :- CookieEntries(CookieParts(JavaSplit(cookie, ';')));
        CiPutAllGet(map[], entries, tokenRef.value);
        Ok(CiGet(CiPutAll(map[], entries), tokenRef.value))
  }
}
