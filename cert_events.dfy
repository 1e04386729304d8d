// Applying Kubernetes secret events to the TLS store
// (security/CertificateEventChangeDetector.java, security/CertificateConfig.java).
module CertEvents {
  import opened Wrappers
  import opened Strings
  import opened Errors
  import Base64
  import opened TlsStore

  /** `Watcher.Action`. */
  datatype Action = Added | Modified | Deleted | WatchError | Bookmark

  /** A secret as the event carries it: its name and its (possibly null)
   *  data map of base64 strings. */
  datatype Secret = Secret(name: string, data: Option<map<string, string>>)

  /** One configured kind of secret to watch. */
  datatype SecretConfig = SecretConfig(storeType: Option<string>, namePrefix: string, dataFieldKey: Option<string>)

  /** `isTrustStoreSecret`: the type is "truststore" ignoring case. */
  predicate IsTrustStoreSecret(c: SecretConfig)
  {
    OptEqualsIgnoreCase(c.storeType, "truststore")
  }

  predicate IsAddOrModify(c: SecretConfig, name: string, a: Action)
  {
    c.namePrefix <= name && (a == Added || a == Modified)
  }

  predicate IsDelete(c: SecretConfig, name: string, a: Action)
  {
    c.namePrefix <= name && a == Deleted
  }

  /** The configured data field of the secret; a null map reads as empty. */
  function SecretData(s: Secret, key: Option<string>): (r: Option<string>)
    ensures r.Some? <==> s.data.Some? && key.Some? && key.value in s.data.value
  {
    if s.data.Some? && key.Some? && key.value in s.data.value then Some(s.data.value[key.value]) else None
  }

  /** `handleSecret` on the store's maps. A data field that is not valid
   *  base64 raises IllegalArgumentException. */
  function HandleSecret(st: StoreState, c: SecretConfig, a: Action, s: Secret): Result<StoreState, Error>
  {
    if IsAddOrModify(c, s.name, a) then
      match SecretData(s, c.dataFieldKey)
      case None => Ok(st)
      case Some(text) =>
        match Base64.Decode(text)
        case None => Err(Unexpected(IllegalArgument))
        case Some(cert) =>
          if IsTrustStoreSecret(c) then Ok(AfterAddTruststore(st, s.name, cert))
          else Ok(AfterAddKeystore(st, s.name, cert))
    else if IsDelete(c, s.name, a) then
      if IsTrustStoreSecret(c) then Ok(AfterDeleteTruststore(st, s.name))
      else Ok(AfterDeleteKeystore(st, s.name))
    else Ok(st)
  }

  /** `onSecret`: every config in turn; an exception stops the remaining
   *  ones and leaves the changes made so far. */
  function ApplyConfigs(st: StoreState, cs: seq<SecretConfig>, a: Action, s: Secret): (StoreState, Outcome<Error>)
  {
    if |cs| == 0 then (st, Pass)
    else
      var (t, o) := ApplyConfigs(st, cs[..|cs| - 1], a, s);
      if o.Fail? then (t, o)
      else
        match HandleSecret(t, cs[|cs| - 1], a, s)
        case Ok(u) => (u, Pass)
        case Err(e) => (t, Fail(e))
  }

  // ---- properties ----

  /** An added or modified secret whose name has the prefix and whose data
   *  field decodes is stored, in the truststore iff the config says so. */
  lemma AddedSecretIsStored(st: StoreState, c: SecretConfig, a: Action, s: Secret, bytes: seq<byte>)
    requires a == Added || a == Modified
    requires c.namePrefix <= s.name
    requires SecretData(s, c.dataFieldKey).Some? && Base64.Decode(SecretData(s, c.dataFieldKey).value) == Some(bytes)
    ensures HandleSecret(st, c, a, s).Ok?
    ensures IsTrustStoreSecret(c) ==> HandleSecret(st, c, a, s).value.truststore == st.truststore[s.name := bytes] &&
                                      HandleSecret(st, c, a, s).value.keystore == st.keystore
    ensures !IsTrustStoreSecret(c) ==> HandleSecret(st, c, a, s).value.keystore == st.keystore[s.name := bytes] &&
                                       HandleSecret(st, c, a, s).value.truststore == st.truststore
  {
  }

  /** A certificate published as base64 is stored as the original bytes. */
  lemma EncodedCertificateRoundTrips(st: StoreState, c: SecretConfig, s: Secret, bytes: seq<byte>)
    requires c.namePrefix <= s.name && !IsTrustStoreSecret(c)
    requires SecretData(s, c.dataFieldKey) == Some(Base64.Encode(bytes))
    ensures HandleSecret(st, c, Added, s) == Ok(AfterAddKeystore(st, s.name, bytes))
  {
    Base64.DecodeEncode(bytes);
  }

  /** A deleted secret with the prefix is removed from the configured store. */
  lemma DeletedSecretIsRemoved(st: StoreState, c: SecretConfig, s: Secret)
    requires c.namePrefix <= s.name
    ensures HandleSecret(st, c, Deleted, s) ==
            Ok(if IsTrustStoreSecret(c) then AfterDeleteTruststore(st, s.name) else AfterDeleteKeystore(st, s.name))
  {
  }

  /** Names without the prefix, other actions and missing data change nothing. */
  lemma IgnoredEventsChangeNothing(st: StoreState, c: SecretConfig, a: Action, s: Secret)
    requires !(c.namePrefix <= s.name) || a == WatchError || a == Bookmark ||
             ((a == Added || a == Modified) && SecretData(s, c.dataFieldKey).None?)
    ensures HandleSecret(st, c, a, s) == Ok(st)
  {
  }

  /** Only undecodable data is an error. */
  lemma OnlyBadBase64Fails(st: StoreState, c: SecretConfig, a: Action, s: Secret)
    ensures HandleSecret(st, c, a, s).Err? <==>
              IsAddOrModify(c, s.name, a) && SecretData(s, c.dataFieldKey).Some? &&
              Base64.Decode(SecretData(s, c.dataFieldKey).value).None?
    ensures HandleSecret(st, c, a, s).Err? ==> HandleSecret(st, c, a, s).error == Unexpected(IllegalArgument)
  {
  }

  /** Handling an event never leaves a stale context in the cache. */
  lemma HandleSecretKeepsFresh(st: StoreState, c: SecretConfig, a: Action, s: Secret)
    requires NoStaleContext(st)
    ensures HandleSecret(st, c, a, s).Ok? ==> NoStaleContext(HandleSecret(st, c, a, s).value)
  {
    if IsAddOrModify(c, s.name, a) {
      match SecretData(s, c.dataFieldKey)
      case None =>
      case Some(text) =>
        match Base64.Decode(text)
        case None =>
        case Some(cert) =>
          AddTruststoreKeepsFresh(st, s.name, cert);
          AddKeystoreKeepsFresh(st, s.name, cert);
    } else if IsDelete(c, s.name, a) {
      DeleteKeepsFresh(st, s.name);
    }
  }

  lemma {:induction false} ApplyConfigsKeepsFresh(st: StoreState, cs: seq<SecretConfig>, a: Action, s: Secret)
    requires NoStaleContext(st)
    ensures NoStaleContext(ApplyConfigs(st, cs, a, s).0)
  {
    if |cs| > 0 {
      ApplyConfigsKeepsFresh(st, cs[..|cs| - 1], a, s);
      HandleSecretKeepsFresh(ApplyConfigs(st, cs[..|cs| - 1], a, s).0, cs[|cs| - 1], a, s);
    }
  }

  /** Configs are applied one after the other: the event over `xs + ys` is
   *  the event over `xs`, then over `ys` unless `xs` raised. */
  lemma {:induction false} ApplyConfigsAppend(st: StoreState, xs: seq<SecretConfig>, ys: seq<SecretConfig>, a: Action, s: Secret)
    ensures ApplyConfigs(st, xs + ys, a, s) ==
            (var (t, o) := ApplyConfigs(st, xs, a, s);
             if o.Fail? then (t, o) else ApplyConfigs(t, ys, a, s))
    decreases |ys|
  {
    if |ys| == 0 {
      assert xs + ys == xs;
    } else {
      var init := ys[..|ys| - 1];
      assert (xs + ys)[..|xs + ys| - 1] == xs + init;
      assert (xs + ys)[|xs + ys| - 1] == ys[|ys| - 1];
      ApplyConfigsAppend(st, xs, init, a, s);
    }
  }

  /** `handleSecret`: the store mutator the event and config call for, or
   *  the decoding failure with the store untouched. */
  method HandleSecretOn(store: ExternalSslCtx, c: SecretConfig, a: Action, s: Secret)
    returns (outcome: Outcome<Error>)
    modifies store
    requires store.Valid()
    ensures store.Valid()
    ensures match HandleSecret(old(store.State()), c, a, s)
            case Ok(u) => outcome == Pass && store.State() == u
            case Err(e) => outcome == Fail(e) && store.State() == old(store.State())
  {
    var name := s.name;
    if IsAddOrModify(c, name, a) {
      var data := SecretData(s, c.dataFieldKey);
      if data.Some? {
        var decoded := Base64.Decode(data.value);
        if decoded.None? {
          return Fail(Unexpected(IllegalArgument));
        }
        if IsTrustStoreSecret(c) {
          store.AddTruststoreCert(name, decoded.value);
        } else {
          store.AddKeystoreCert(name, decoded.value);
        }
      }
    } else if IsDelete(c, name, a) {
      if IsTrustStoreSecret(c) {
        store.DeleteTruststoreCert(name);
      } else {
        store.DeleteKeystoreCert(name);
      }
    }
    return Pass;
  }

  /** One more config after a prefix that passed. */
  lemma ApplyConfigsStep(st: StoreState, cs: seq<SecretConfig>, i: nat, a: Action, s: Secret)
    requires i < |cs| && ApplyConfigs(st, cs[..i], a, s).1 == Pass
    ensures ApplyConfigs(st, cs[..i + 1], a, s) ==
            match HandleSecret(ApplyConfigs(st, cs[..i], a, s).0, cs[i], a, s)
            case Ok(u) => (u, Pass)
            case Err(e) => (ApplyConfigs(st, cs[..i], a, s).0, Fail(e))
  {
    assert cs[..i + 1][..i] == cs[..i];
  }

  /** A failure at config `i` is the outcome of the whole list: the
   *  configs after it are not applied. */
  lemma {:induction false} FailureEndsConfigs(st: StoreState, cs: seq<SecretConfig>, i: nat, a: Action, s: Secret)
    requires i < |cs| && ApplyConfigs(st, cs[..i + 1], a, s).1.Fail?
    ensures ApplyConfigs(st, cs, a, s) == ApplyConfigs(st, cs[..i + 1], a, s)
    decreases |cs|
  {
    if |cs| == i + 1 {
      assert cs[..i + 1] == cs;
    } else {
      var init := cs[..|cs| - 1];
      assert init[..i + 1] == cs[..i + 1];
      FailureEndsConfigs(st, init, i, a, s);
    }
  }

  /** The event handler: runs `handleSecret` for every configured secret on
   *  the shared store, stopping at the first exception. */
  method OnSecret(store: ExternalSslCtx, cs: seq<SecretConfig>, a: Action, s: Secret)
    returns (outcome: Outcome<Error>)
    modifies store
    requires store.Valid()
    ensures (store.State(), outcome) == ApplyConfigs(old(store.State()), cs, a, s)
    ensures store.Valid()
  {
    ghost var st0 := store.State();
    var i := 0;
    outcome := Pass;
    while i < |cs|
      invariant 0 <= i <= |cs|
      invariant store.Valid()
      invariant (store.State(), Pass) == ApplyConfigs(st0, cs[..i], a, s)
      invariant outcome == Pass
    {
      ApplyConfigsStep(st0, cs, i, a, s);
      var o := HandleSecretOn(store, cs[i], a, s);
      if o.Fail? {
        FailureEndsConfigs(st0, cs, i, a, s);
        return o;
      }
      i := i + 1;
    }
    assert cs[..i] == cs;
  }
}
