// A connected system and its connection properties, as read from the
// connectivity catalogue (service/connectivity/Subsystem.java and
// service/connectivity/ConnectionProperties.java).
module Connectivity {
  import opened Wrappers
  import opened Strings
  import opened Errors

  /** One connection-property set. Every field may be absent (null) in the
   *  catalogue entry; `authHeaders` keeps the entry's key order. */
  datatype ConnectionProperties = ConnectionProperties(
    sslVerify: Option<bool>,
    sslTrustStoreSecretName: Option<string>,
    sslTrustStoreSecretPassword: Option<string>,
    sslKeyStoreSecretName: Option<string>,
    sslKeyStoreSecretPassword: Option<string>,
    authUsername: Option<string>,
    authPassword: Option<string>,
    authType: Option<string>,
    authUrl: Option<string>,
    authMethod: Option<string>,
    authBody: Option<string>,
    authExpireSeconds: Option<string>,
    authKey: Option<string>,
    authTokenRef: Option<string>,
    authHeaders: Option<seq<(string, seq<string>)>>,
    clientConnectionTimeoutSeconds: Option<int>,
    readTimeoutSeconds: Option<int>,
    writeTimeoutSeconds: Option<int>)

  /** A property set as deserialised from an entry that names no field:
   *  `ssl.verify` starts out false, everything else null. */
  const EmptyConnection: ConnectionProperties :=
    ConnectionProperties(Some(false), None, None, None, None, None, None, None, None,
                         None, None, None, None, None, None, None, None, None)

  /** Connect timeout in seconds, 10 when unset. */
  function ConnectTimeout(c: ConnectionProperties): (t: int)
    ensures c.clientConnectionTimeoutSeconds.None? ==> t == 10
    ensures c.clientConnectionTimeoutSeconds.Some? ==> t == c.clientConnectionTimeoutSeconds.value
  {
    c.clientConnectionTimeoutSeconds.GetOr(10)
  }

  /** Read timeout in seconds, 60 when unset. */
  function ReadTimeout(c: ConnectionProperties): (t: int)
    ensures c.readTimeoutSeconds.None? ==> t == 60
    ensures c.readTimeoutSeconds.Some? ==> t == c.readTimeoutSeconds.value
  {
    c.readTimeoutSeconds.GetOr(60)
  }

  /** Write timeout in seconds, 60 when unset. */
  function WriteTimeout(c: ConnectionProperties): (t: int)
    ensures c.writeTimeoutSeconds.None? ==> t == 60
    ensures c.writeTimeoutSeconds.Some? ==> t == c.writeTimeoutSeconds.value
  {
    c.writeTimeoutSeconds.GetOr(60)
  }

  /** An empty entry verifies no certificates and uses the default timeouts. */
  lemma EmptyConnectionDefaults()
    ensures EmptyConnection.sslVerify == Some(false)
    ensures ConnectTimeout(EmptyConnection) == 10
    ensures ReadTimeout(EmptyConnection) == 60 && WriteTimeout(EmptyConnection) == 60
  {
  }

  /** A connected system, optionally authenticating through another one. */
  datatype Subsystem = Subsystem(
    name: Option<string>,
    url: Option<string>,
    connectionProperties: seq<ConnectionProperties>,
    authSubsystem: Option<Subsystem>)

  /** `getConnection`: the first property set; an empty list throws. */
  function GetConnection(s: Subsystem): (r: Result<ConnectionProperties, Error>)
    ensures r.Ok? <==> |s.connectionProperties| > 0
    ensures r.Ok? ==> r.value == s.connectionProperties[0]
    ensures r.Err? ==> r.error == Unexpected(IndexOutOfBounds)
  {
    if |s.connectionProperties| == 0 then Err(Unexpected(IndexOutOfBounds))
    else Ok(s.connectionProperties[0])
  }

  /** `isSslVerify`: the first set's flag, false when it is null. */
  function IsSslVerify(s: Subsystem): (r: Result<bool, Error>)
    ensures r.Ok? <==> GetConnection(s).Ok?
    ensures r.Ok? ==> (r.value <==> GetConnection(s).value.sslVerify == Some(true))
  {
    var c :- GetConnection(s);
    Ok(c.sslVerify.GetOr(false))
  }

  /** `getJoinedAuthUrl`: an auth URL starting with "http" (any case) is used
   *  as given; anything else is appended to the system's base URL. */
  function JoinedAuthUrl(s: Subsystem): (r: Result<string, Error>)
    ensures r.Ok? <==> GetConnection(s).Ok?
    ensures r.Ok? && StartsWithIgnoreCase(GetConnection(s).value.authUrl, "http") ==>
              r.value == GetConnection(s).value.authUrl.value
    ensures r.Ok? && !StartsWithIgnoreCase(GetConnection(s).value.authUrl, "http") ==>
              r.value == OrEmpty(s.url) + OrEmpty(GetConnection(s).value.authUrl)
  {
    var c :- GetConnection(s);
    if StartsWithIgnoreCase(c.authUrl, "http") then Ok(c.authUrl.value)
    else Ok(OrEmpty(s.url) + OrEmpty(c.authUrl))
  }

  /** The system whose connection carries the credentials. */
  function AuthenticatingSystem(s: Subsystem): (a: Subsystem)
    ensures s.authSubsystem.Some? ==> a == s.authSubsystem.value
    ensures s.authSubsystem.None? ==> a == s
  {
    s.authSubsystem.GetOr(s)
  }

  /** `Subsystem.getAuthKey`: the auth key of the auth subsystem when one is
   *  attached, otherwise of the system itself. */
  function AuthKey(s: Subsystem): (r: Result<Option<string>, Error>)
    ensures r == (match GetConnection(AuthenticatingSystem(s))
                  case Ok(c) => Ok(c.authKey)
                  case Err(e) => Err(e))
  {
    var c :- GetConnection(AuthenticatingSystem(s));
    Ok(c.authKey)
  }

  /** With an auth subsystem attached, the system's own auth key is ignored. */
  lemma AuthKeyFromAuthSubsystem(s: Subsystem, a: Subsystem, c: ConnectionProperties)
    requires s.authSubsystem == Some(a) && |a.connectionProperties| > 0
    requires a.connectionProperties[0] == c
    ensures AuthKey(s) == Ok(c.authKey)
  {
  }
}
