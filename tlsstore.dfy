// The store of PKCS#12 material for TLS towards connected systems and the
// cache of client SSL contexts built from it (service/http/ExternalSslCtx.java).
module TlsStore {
  import opened Wrappers
  import opened Strings
  import opened Errors

  /** Contexts are cached per pair of secret names; passwords are not part
   *  of the key. */
  datatype SslContextKey = SslContextKey(trustStoreSecretName: Option<string>, keystoreSecretName: Option<string>)

  /** A loaded PKCS#12 store: the certificate bytes and the password used. */
  datatype Material = Material(cert: seq<byte>, password: string)

  /** A client SSL context: the trust and key material it was built from. */
  datatype SslContext = SslContext(trust: Option<Material>, key: Option<Material>)

  /** The PKCS#12 backend: whether `KeyStore.load` (and the manager factory's
   *  `init`) accept these bytes with this password. */
  type Loader = (seq<byte>, string) -> bool

  /** `SslContextBuilder.build`: false when it throws an SSLException. */
  type Builder = SslContext -> bool

  /** The names and passwords `get` reads from the request. */
  datatype TlsRequest = TlsRequest(
    trustStoreSecretName: Option<string>,
    trustStoreSecretPassword: Option<string>,
    keyStoreSecretName: Option<string>,
    keyStoreSecretPassword: Option<string>)

  /** The three maps of the store. */
  datatype StoreState = StoreState(
    sslContexts: map<SslContextKey, SslContext>,
    truststore: map<string, seq<byte>>,
    keystore: map<string, seq<byte>>)

  // ---- specification ----

  /** A cached context agrees with the store on each side its key names. */
  predicate Side(name: Option<string>, m: Option<Material>, store: map<string, seq<byte>>)
  {
    if name.None? then m.None? else name.value in store && m.Some? && m.value.cert == store[name.value]
  }

  predicate UpToDate(k: SslContextKey, c: SslContext, s: StoreState)
  {
    Side(k.trustStoreSecretName, c.trust, s.truststore) && Side(k.keystoreSecretName, c.key, s.keystore)
  }

  /** No cached context was built from material that has since been replaced
   *  or deleted. */
  predicate NoStaleContext(s: StoreState)
  {
    forall k :: k in s.sslContexts ==> UpToDate(k, s.sslContexts[k], s)
  }

  /** The cache without the keys `p` selects. */
  function EvictWhere(m: map<SslContextKey, SslContext>, p: SslContextKey -> bool): (r: map<SslContextKey, SslContext>)
    ensures forall k :: k in r <==> k in m && !p(k)
    ensures forall k :: k in r ==> r[k] == m[k]
  {
    m - (set k | k in m && p(k))
  }

  predicate UsesKeystore(name: string, k: SslContextKey) { k.keystoreSecretName == Some(name) }
  predicate UsesTruststore(name: string, k: SslContextKey) { k.trustStoreSecretName == Some(name) }

  function AfterAddKeystore(s: StoreState, name: string, cert: seq<byte>): StoreState
  {
    var contexts := if name in s.keystore then EvictWhere(s.sslContexts, k => UsesKeystore(name, k)) else s.sslContexts;
    StoreState(contexts, s.truststore, s.keystore[name := cert])
  }

  function AfterDeleteKeystore(s: StoreState, name: string): StoreState
  {
    StoreState(EvictWhere(s.sslContexts, k => UsesKeystore(name, k)), s.truststore, s.keystore - {name})
  }

  function AfterAddTruststore(s: StoreState, name: string, cert: seq<byte>): StoreState
  {
    var contexts := if name in s.truststore then EvictWhere(s.sslContexts, k => UsesTruststore(name, k)) else s.sslContexts;
    StoreState(contexts, s.truststore[name := cert], s.keystore)
  }

  function AfterDeleteTruststore(s: StoreState, name: string): StoreState
  {
    StoreState(EvictWhere(s.sslContexts, k => UsesTruststore(name, k)), s.truststore - {name}, s.keystore)
  }

  /** `loadTrustManagerFactory` / `loadKeyManagerFactory`: the bytes must be
   *  stored; a null password or bytes the backend rejects fail inside the
   *  try block and are reported the same way. */
  function LoadMaterial(store: map<string, seq<byte>>, name: string, password: Option<string>,
                        loads: Loader): (r: Result<Material, Error>)
    ensures r.Ok? <==> name in store && password.Some? && loads(store[name], password.value)
    ensures r.Ok? ==> r.value == Material(store[name], password.value)
    ensures r.Err? ==> r.error == RestError(CertificateHandlingFailed)
  {
    if name !in store || password.None? || !loads(store[name], password.value) then
      Err(RestError(CertificateHandlingFailed))
    else
      Ok(Material(store[name], password.value))
  }

  /** A side is only loaded when the request names a secret for it. */
  function LoadSide(store: map<string, seq<byte>>, name: Option<string>, password: Option<string>,
                    loads: Loader): (r: Result<Option<Material>, Error>)
    ensures r.Ok? ==> Side(name, r.value, store)
    ensures name.None? ==> r == Ok(None)
    ensures name.Some? && name.value !in store ==> r == Err(RestError(CertificateHandlingFailed))
  {
    if name.None? then Ok(None)
    else
      var m :- LoadMaterial(store, name.value, password, loads);
      Ok(Some(m))
  }

  /** Building a new context: truststore first, then keystore, then build. */
  function BuildContext(s: StoreState, req: TlsRequest, trustLoads: Loader, keyLoads: Loader,
                        builds: Builder): (r: Result<SslContext, Error>)
    ensures r.Ok? ==> UpToDate(KeyOf(req), r.value, s)
    ensures r.Ok? ==> builds(r.value)
  {
    var trust :- LoadSide(s.truststore, req.trustStoreSecretName, req.trustStoreSecretPassword, trustLoads);
    var key :- LoadSide(s.keystore, req.keyStoreSecretName, req.keyStoreSecretPassword, keyLoads);
    var c := SslContext(trust, key);
    if builds(c) then Ok(c) else Err(RestError(GeneralError))
  }

  function KeyOf(req: TlsRequest): SslContextKey
  {
    SslContextKey(req.trustStoreSecretName, req.keyStoreSecretName)
  }

  /** `get`: the cached context for the key, or a new one that is cached. */
  function GetContext(s: StoreState, req: TlsRequest, trustLoads: Loader, keyLoads: Loader,
                      builds: Builder): (Result<SslContext, Error>, StoreState)
  {
    var key := KeyOf(req);
    if key in s.sslContexts then (Ok(s.sslContexts[key]), s)
    else
      match BuildContext(s, req, trustLoads, keyLoads, builds)
      case Ok(c) => (Ok(c), s.(sslContexts := s.sslContexts[key := c]))
      case Err(e) => (Err(e), s)
  }

  // ---- properties ----

  /** Adding under a name not yet stored leaves the cache alone. */
  lemma AddNewNameKeepsCache(s: StoreState, name: string, cert: seq<byte>)
    requires name !in s.keystore
    ensures AfterAddKeystore(s, name, cert).sslContexts == s.sslContexts
    ensures AfterAddKeystore(s, name, cert).keystore == s.keystore[name := cert]
  {
  }

  /** Overwriting a stored keystore name evicts exactly the contexts whose
   *  keystore name it is, and nothing else changes in the cache. */
  lemma OverwriteEvictsExactlyUsers(s: StoreState, name: string, cert: seq<byte>, k: SslContextKey)
    requires name in s.keystore
    ensures k in AfterAddKeystore(s, name, cert).sslContexts <==> k in s.sslContexts && k.keystoreSecretName != Some(name)
    ensures k in AfterAddKeystore(s, name, cert).sslContexts ==> AfterAddKeystore(s, name, cert).sslContexts[k] == s.sslContexts[k]
  {
  }

  /** Deleting removes the bytes and the users, whether or not the name was there. */
  lemma DeleteEvictsUsers(s: StoreState, name: string, k: SslContextKey)
    ensures name !in AfterDeleteKeystore(s, name).keystore
    ensures k in AfterDeleteKeystore(s, name).sslContexts <==> k in s.sslContexts && k.keystoreSecretName != Some(name)
    ensures name !in AfterDeleteTruststore(s, name).truststore
    ensures k in AfterDeleteTruststore(s, name).sslContexts <==> k in s.sslContexts && k.trustStoreSecretName != Some(name)
  {
  }

  /** The truststore operations only look at the truststore name. */
  lemma TruststoreOverwriteEvictsExactlyUsers(s: StoreState, name: string, cert: seq<byte>, k: SslContextKey)
    requires name in s.truststore
    ensures k in AfterAddTruststore(s, name, cert).sslContexts <==> k in s.sslContexts && k.trustStoreSecretName != Some(name)
    ensures AfterAddTruststore(s, name, cert).keystore == s.keystore
  {
  }

  /** Every operation keeps the cache free of stale contexts. */
  lemma AddKeystoreKeepsFresh(s: StoreState, name: string, cert: seq<byte>)
    requires NoStaleContext(s)
    ensures NoStaleContext(AfterAddKeystore(s, name, cert))
  {
    var t := AfterAddKeystore(s, name, cert);
    forall k | k in t.sslContexts
      ensures UpToDate(k, t.sslContexts[k], t)
    {
      assert UpToDate(k, s.sslContexts[k], s);
    }
  }

  lemma AddTruststoreKeepsFresh(s: StoreState, name: string, cert: seq<byte>)
    requires NoStaleContext(s)
    ensures NoStaleContext(AfterAddTruststore(s, name, cert))
  {
    var t := AfterAddTruststore(s, name, cert);
    forall k | k in t.sslContexts
      ensures UpToDate(k, t.sslContexts[k], t)
    {
      assert UpToDate(k, s.sslContexts[k], s);
    }
  }

  lemma DeleteKeepsFresh(s: StoreState, name: string)
    requires NoStaleContext(s)
    ensures NoStaleContext(AfterDeleteKeystore(s, name))
    ensures NoStaleContext(AfterDeleteTruststore(s, name))
  {
    var t := AfterDeleteKeystore(s, name);
    forall k | k in t.sslContexts
      ensures UpToDate(k, t.sslContexts[k], t)
    {
      assert UpToDate(k, s.sslContexts[k], s);
    }
    var u := AfterDeleteTruststore(s, name);
    forall k | k in u.sslContexts
      ensures UpToDate(k, u.sslContexts[k], u)
    {
      assert UpToDate(k, s.sslContexts[k], s);
    }
  }

  /** A cached key is served from the cache, without loading or building. */
  lemma CachedContextIsReturned(s: StoreState, req: TlsRequest, trustLoads: Loader, keyLoads: Loader, builds: Builder)
    requires KeyOf(req) in s.sslContexts
    ensures GetContext(s, req, trustLoads, keyLoads, builds) == (Ok(s.sslContexts[KeyOf(req)]), s)
  {
  }

  /** A named secret with no stored bytes, on either side, fails with
   *  CERTIFICATE_HANDLING_FAILED and caches nothing. */
  lemma MissingSecretFails(s: StoreState, req: TlsRequest, trustLoads: Loader, keyLoads: Loader, builds: Builder)
    requires KeyOf(req) !in s.sslContexts
    requires (req.trustStoreSecretName.Some? && req.trustStoreSecretName.value !in s.truststore) ||
             (req.keyStoreSecretName.Some? && req.keyStoreSecretName.value !in s.keystore)
    ensures GetContext(s, req, trustLoads, keyLoads, builds) == (Err(RestError(CertificateHandlingFailed)), s)
  {
  }

  /** After a successful `get` the key is cached, with the returned context,
   *  and the cache stays free of stale contexts. */
  lemma GetCachesAndKeepsFresh(s: StoreState, req: TlsRequest, trustLoads: Loader, keyLoads: Loader, builds: Builder)
    requires NoStaleContext(s)
    ensures var (r, t) := GetContext(s, req, trustLoads, keyLoads, builds);
            && NoStaleContext(t)
            && t.truststore == s.truststore && t.keystore == s.keystore
            && (r.Ok? ==> KeyOf(req) in t.sslContexts && t.sslContexts[KeyOf(req)] == r.value)
  {
  }

  /** With neither secret named, the context carries no material. */
  lemma NoNamesNoMaterial(s: StoreState, trustLoads: Loader, keyLoads: Loader, builds: Builder)
    requires SslContextKey(None, None) !in s.sslContexts
    requires builds(SslContext(None, None))
    ensures GetContext(s, TlsRequest(None, None, None, None), trustLoads, keyLoads, builds).0 == Ok(SslContext(None, None))
  {
  }

  // ---- the store object ----

  class ExternalSslCtx {
    var sslContexts: map<SslContextKey, SslContext>
    var trustStorePkcs12Certs: map<string, seq<byte>>
    var keyStorePkcs12Certs: map<string, seq<byte>>

    function State(): StoreState
      reads this
    {
      StoreState(sslContexts, trustStorePkcs12Certs, keyStorePkcs12Certs)
    }

    predicate Valid()
      reads this
    {
      NoStaleContext(State())
    }

    constructor()
      ensures State() == StoreState(map[], map[], map[])
      ensures Valid()
    {
      sslContexts, trustStorePkcs12Certs, keyStorePkcs12Certs := map[], map[], map[];
    }

    method Get(req: TlsRequest, trustLoads: Loader, keyLoads: Loader, builds: Builder)
      returns (r: Result<SslContext, Error>)
      modifies this
      requires Valid()
      ensures (r, State()) == GetContext(old(State()), req, trustLoads, keyLoads, builds)
      ensures Valid()
    {
      GetCachesAndKeepsFresh(State(), req, trustLoads, keyLoads, builds);
      var key := KeyOf(req);
      if key !in sslContexts {
        var built := BuildContext(State(), req, trustLoads, keyLoads, builds);
        if built.Err? {
          return Err(built.error);
        }
        sslContexts := sslContexts[key := built.value];
      }
      r := Ok(sslContexts[key]);
    }

    /** Collects the keys `p` selects, then removes them one at a time. */
    method RemoveSslContextsWhere(p: SslContextKey -> bool)
      modifies this
      ensures sslContexts == EvictWhere(old(sslContexts), p)
      ensures trustStorePkcs12Certs == old(trustStorePkcs12Certs)
      ensures keyStorePkcs12Certs == old(keyStorePkcs12Certs)
    {
      var keysToRemove := set k | k in sslContexts && p(k);
      ghost var all := keysToRemove;
      while keysToRemove != {}
        invariant keysToRemove <= all
        invariant sslContexts == old(sslContexts) - (all - keysToRemove)
        invariant trustStorePkcs12Certs == old(trustStorePkcs12Certs)
        invariant keyStorePkcs12Certs == old(keyStorePkcs12Certs)
        decreases keysToRemove
      {
        var k :| k in keysToRemove;
        sslContexts := sslContexts - {k};
        keysToRemove := keysToRemove - {k};
        assert all - keysToRemove == (all - (keysToRemove + {k})) + {k};
      }
    }

    method AddKeystoreCert(name: string, cert: seq<byte>)
      modifies this
      requires Valid()
      ensures State() == AfterAddKeystore(old(State()), name, cert)
      ensures Valid()
    {
      AddKeystoreKeepsFresh(State(), name, cert);
      var previous := name in keyStorePkcs12Certs;
      keyStorePkcs12Certs := keyStorePkcs12Certs[name := cert];
      if previous {
        RemoveSslContextsWhere(k => UsesKeystore(name, k));
      }
    }

    method DeleteKeystoreCert(name: string)
      modifies this
      requires Valid()
      ensures State() == AfterDeleteKeystore(old(State()), name)
      ensures Valid()
    {
      DeleteKeepsFresh(State(), name);
      keyStorePkcs12Certs := keyStorePkcs12Certs - {name};
      RemoveSslContextsWhere(k => UsesKeystore(name, k));
    }

    method AddTruststoreCert(name: string, cert: seq<byte>)
      modifies this
      requires Valid()
      ensures State() == AfterAddTruststore(old(State()), name, cert)
      ensures Valid()
    {
      AddTruststoreKeepsFresh(State(), name, cert);
      var previous := name in trustStorePkcs12Certs;
      trustStorePkcs12Certs := trustStorePkcs12Certs[name := cert];
      if previous {
        RemoveSslContextsWhere(k => UsesTruststore(name, k));
      }
    }

    method DeleteTruststoreCert(name: string)
      modifies this
      requires Valid()
      ensures State() == AfterDeleteTruststore(old(State()), name)
      ensures Valid()
    {
      DeleteKeepsFresh(State(), name);
      trustStorePkcs12Certs := trustStorePkcs12Certs - {name};
      RemoveSslContextsWhere(k => UsesTruststore(name, k));
    }
  }
}
