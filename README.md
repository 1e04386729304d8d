# Verified model of the REST gateway's request/response pipeline

This project models the core of a configuration-driven REST gateway. A caller asks it to run a named resource method against a connected system. The gateway then:

1. resolves the method from the stored resource configuration;
2. looks up and authenticates the connected system;
3. builds the outgoing request through an ordered chain of request stages;
4. sends the request with the method's retry handlers;
5. unless the caller asked for the original response, rewrites the response through an ordered chain of response stages.

The model is split into the same parts as the gateway:

- **TLS material store** (`TlsStore`): a class holding the truststore and keystore maps and a cache of SSL contexts keyed by the pair of store names. Adding or deleting a store entry evicts every cached context that uses it.
- **Certificate watcher** (`CertEvents`, `ChangeDetection`): the filter on secret events by name prefix and action, the calls into the store, and the reconnect state machine. That state is a pending flag and a 32-bit attempt counter driving an exponential backoff.
- **Retry decision** (`Failures`, `Retry`): the failure-kind predicates and the map a retry condition is rendered against. On the first failure, the first handler whose condition holds is chosen. A retryable failure is retried at a fixed delay up to `maxRetries` times; any other failure propagates.
- **Method resolution** (`Resources`, `ResourceConfig`): the lookups from configuration name, resource path and HTTP method to a method definition. Retry and error handler lists are local then global. Request headers are the global map overlaid by the local one, keys compared exactly, the local value winning.
- **Authentication** (`Connectivity`, `Cache`, `Auth`):
  - the connected system and its connection properties, with their defaults;
  - the token cache expiry rule;
  - the Basic, Basic-token and Bearer handlers, each validating properties and reporting the whole set of missing ones;
  - the handler factory and the authentication service;
  - the cookie extractor;
  - the Basic credential, which is base64 (section 4 of RFC 4648) of `user:password`, sent as `Basic <token>` (section 2 of RFC 7617).
- **Stage chains** (`RunContext`, `RequestStages`, `ResponseStages`, `RunService`):
  - the run execution context and the run response with its override-else-original getters;
  - the request and response substitution contexts;
  - each request and response stage, once as a method on the mutable request or response and once as a function from state to result;
  - the run itself.

Each stage method is proved to leave the object in the state its function gives, or to fail with that function's error. The chain of stages is proved equal to the chain of the functions, stopping at the first failure.

Some collaborators are parameters of the operations that use them:

- the template engine (`Renderer`, a partial function from template and context to text, where no result means a substitution failure);
- the JSON reader, the byte-to-text decoder and the token extractor;
- the connected-system lookup;
- the transport (`Transport`, mapping an attempt number to a delivered response or a failure kind);
- the token cache lookup.

Nothing in the model reads a clock, a network or a file.

Some Spring beans carry no `@Order`: the Auth, Headers, Method, Timeouts and Url request stages, and the JSON body, Headers and Status response stages. The model runs them after the ordered ones, in class-name order. The code fixes only the Body stage first. `RequestStages.UrlAndHeadersCommute` shows that the URL and header stages may be swapped without changing the result.

## Model

| member | source | states |
|---|---|---|
| Auth.GetHandler | eric-esoa-rest-service-jar/src/main/java/com/ericsson/bos/dr/rest/service/auth/AuthHandlerFactory.java:40-47 | the first registered handler whose type equals the requested one ignoring case; AUTH_HANDLER_NOT_SUPPORTED exactly when none matches; a null type fails with a null dereference as soon as any handler is registered |
| Auth.AuthTypesDistinct | eric-esoa-rest-service-jar/src/main/java/com/ericsson/bos/dr/rest/service/connectivity/Subsystem.java:30-34 | no two handler types are equal ignoring case |
| Auth.RegisteredTypeResolves | eric-esoa-rest-service-jar/src/main/java/com/ericsson/bos/dr/rest/service/auth/AuthHandlerFactory.java:40-47 | every registered type resolves to its own handler in any spelling of its letters' case |
| Auth.EarlierRegistrationWins | eric-esoa-rest-service-jar/src/main/java/com/ericsson/bos/dr/rest/service/auth/AuthHandlerFactory.java:41-43 | handlers registered later are consulted only when no earlier one matches |
| Auth.ValidationReportsEveryBlankProperty | eric-esoa-rest-service-jar/src/main/java/com/ericsson/bos/dr/rest/service/auth/BasicAuthTokenHandler.java:54-76 | validation passes iff no required property is blank, and a failure names exactly the blank required properties |
| Auth.ValidateBasicAuth | eric-esoa-rest-service-jar/src/main/java/com/ericsson/bos/dr/rest/service/auth/BasicAuthHandler.java:51-63 | checks user name and password and rejects the blank ones with AUTH_PROPERTIES_MISSING, as Validation specifies |
| Auth.ValidateBasicAuthToken | eric-esoa-rest-service-jar/src/main/java/com/ericsson/bos/dr/rest/service/auth/BasicAuthTokenHandler.java:54-76 | checks user name, password, token reference, auth method and auth URL, as Validation specifies |
| Auth.MissingForBasicAuthToken | eric-esoa-rest-service-jar/src/main/java/com/ericsson/bos/dr/rest/service/auth/BasicAuthTokenHandler.java:54-76 | the five checks in order collect exactly the blank required properties |
| Auth.ValidateBearer | eric-esoa-rest-service-jar/src/main/java/com/ericsson/bos/dr/rest/service/auth/BearerHandler.java:52-68 | checks auth URL, auth method and token reference, as Validation specifies |
| Auth.BasicCredential | eric-esoa-rest-service-jar/src/main/java/com/ericsson/bos/dr/rest/service/auth/BasicAuthHandler.java:73-77 | the credential decodes from Base64 to the UTF-8 bytes of "user:password", a null part printed as empty |
| Auth.BasicCredentialIdentifies | eric-esoa-rest-service-jar/src/main/java/com/ericsson/bos/dr/rest/service/auth/BasicAuthHandler.java:73-77 | for ASCII values and a user id without ':', equal credentials come from equal user/password pairs |
| Auth.SplitPair | eric-esoa-rest-service-jar/src/main/java/com/ericsson/bos/dr/rest/service/auth/AbstractAuthHandler.java:155 | a form pair splits at its first '=' into a non-empty name and a non-empty value that rebuild it |
| Auth.FormPairs | eric-esoa-rest-service-jar/src/main/java/com/ericsson/bos/dr/rest/service/auth/AbstractAuthHandler.java:154-155 | one name/value pair per '&'-separated piece |
| Auth.AddAllCollectsValues | eric-esoa-rest-service-jar/src/main/java/com/ericsson/bos/dr/rest/service/auth/AbstractAuthHandler.java:154-156 | the multi-value map holds a name iff some pair gives it, with all its values in the order given |
| Auth.FormTextSplit | eric-esoa-rest-service-jar/src/main/java/com/ericsson/bos/dr/rest/service/auth/AbstractAuthHandler.java:151-159 | a non-JSON body is accepted iff it matches the form pattern, else INVALID_AUTH_BODY; an accepted body maps every name to all its values in order |
| Auth.ToMultiValueMap | eric-esoa-rest-service-jar/src/main/java/com/ericsson/bos/dr/rest/service/auth/AbstractAuthHandler.java:146-162 | adding the pairs one at a time yields the form FormFields specifies |
| Auth.AddFormPairs | eric-esoa-rest-service-jar/src/main/java/com/ericsson/bos/dr/rest/service/auth/AbstractAuthHandler.java:154-156 | splitting a form text at each '&' and then at the first '=', and adding each pair in turn, builds the map AddAll gives for the form's pairs |
| Auth.FormPairAt | eric-esoa-rest-service-jar/src/main/java/com/ericsson/bos/dr/rest/service/auth/AbstractAuthHandler.java:154-155 | the i-th pair of a form text is its i-th '&' piece split at the first '=' |
| Auth.AuthorizationHeader | eric-esoa-rest-service-jar/src/main/java/com/ericsson/bos/dr/rest/service/auth/AbstractAuthHandler.java:120-128 | with Basic auth the only Authorization value is "Basic " and the credential, whatever was configured; otherwise each header is the last configured one of that name ignoring case |
| Auth.AuthRequestFailures | eric-esoa-rest-service-jar/src/main/java/com/ericsson/bos/dr/rest/service/auth/AbstractAuthHandler.java:113-144 | the auth request fails only for an empty connection list, null auth headers, or a url-encoded body that is not a valid form |
| Auth.AuthRequestSslAndBody | eric-esoa-rest-service-jar/src/main/java/com/ericsson/bos/dr/rest/service/auth/AbstractAuthHandler.java:130-142 | certificate secrets are copied only when the connection verifies certificates; the body is a form only when Content-Type asks for url encoding and the body is not blank |
| Auth.AuthRequestSteps | eric-esoa-rest-service-jar/src/main/java/com/ericsson/bos/dr/rest/service/auth/AbstractAuthHandler.java:115-143 | the auth request is the joined auth URL, the auth method, URL encoding on, the headers, the body and the SSL settings, in setter order, with the failure of each step |
| Auth.BuildAuthBody | eric-esoa-rest-service-jar/src/main/java/com/ericsson/bos/dr/rest/service/auth/AbstractAuthHandler.java:130-135 | the body is the form built from the text or the text itself, as AuthBody specifies |
| Auth.CreateSubsystemAuthRequest | eric-esoa-rest-service-jar/src/main/java/com/ericsson/bos/dr/rest/service/auth/AbstractAuthHandler.java:113-144 | a new request object whose state is the AuthRequest value, or the error AuthRequest gives |
| Auth.SetTarget | eric-esoa-rest-service-jar/src/main/java/com/ericsson/bos/dr/rest/service/auth/AbstractAuthHandler.java:117-119 | the request gets the joined auth URL, the auth method and URL encoding on, and nothing else changes |
| Auth.SetSslProperties | eric-esoa-rest-service-jar/src/main/java/com/ericsson/bos/dr/rest/service/auth/AbstractAuthHandler.java:136-142 | the verify flag is always copied; the key and trust store names and passwords only when verifying is on, and nothing else changes |
| Auth.ExecuteAuthRequest | eric-esoa-rest-service-jar/src/main/java/com/ericsson/bos/dr/rest/service/auth/AbstractAuthHandler.java:93-104 | the auth request is sent once without retry handlers; only a 2xx or 3xx answer is returned, anything else is GET_AUTH_TOKEN_ERROR |
| Auth.GenerateTokenData | eric-esoa-rest-service-jar/src/main/java/com/ericsson/bos/dr/rest/service/auth/BasicAuthTokenHandler.java:78-90 | Basic computes the credential; BasicAuthToken (with the Basic header) and Bearer (without) extract the token from the auth answer; the lifetime is the numeric expire seconds |
| Auth.GetAuthToken | eric-esoa-rest-service-jar/src/main/java/com/ericsson/bos/dr/rest/service/auth/AbstractAuthHandler.java:67-72 | NoAuth answers null; otherwise validation first, then the cached token, or a generated one on a miss |
| Auth.ValidationPrecedesCache | eric-esoa-rest-service-jar/src/main/java/com/ericsson/bos/dr/rest/service/auth/AbstractAuthHandler.java:69-70 | a cached token is not handed out while a required property is blank |
| Auth.HandlerAuthKey | eric-esoa-rest-service-jar/src/main/java/com/ericsson/bos/dr/rest/service/auth/AbstractAuthHandler.java:62-65 | NoAuth has no key; the others read the auth key of the first connection, failing when there is none |
| Auth.CacheKey | eric-esoa-rest-service-jar/src/main/java/com/ericsson/bos/dr/rest/service/auth/AuthenticationService.java:45 | the key is the system name, '_' and the auth key, in that order |
| Auth.CacheKeysSeparateSystems | eric-esoa-rest-service-jar/src/main/java/com/ericsson/bos/dr/rest/service/auth/AuthenticationService.java:45 | names without '_' give distinct cache keys to distinct (name, key) pairs |
| Auth.NoKeyNoToken | eric-esoa-rest-service-jar/src/main/java/com/ericsson/bos/dr/rest/service/auth/AuthenticationService.java:43-48 | a blank auth key or the NoAuth handler yields no token |
| Auth.AuthSubsystemDecides | eric-esoa-rest-service-jar/src/main/java/com/ericsson/bos/dr/rest/service/auth/AuthenticationService.java:41-43 | two systems sharing an auth subsystem authenticate alike |
| Auth.CachedTokenServed | eric-esoa-rest-service-jar/src/main/java/com/ericsson/bos/dr/rest/service/auth/AuthenticationService.java:40-49 | a valid system with a non-blank key gets the token cached under "name_authKey" |
| Auth.CookieParts | eric-esoa-rest-service-jar/src/main/java/com/ericsson/bos/dr/rest/service/auth/CookieHeaderExtractor.java:68-70 | only the trimmed ';'-separated parts that contain '=' are kept |
| Auth.CookieEntry | eric-esoa-rest-service-jar/src/main/java/com/ericsson/bos/dr/rest/service/auth/CookieHeaderExtractor.java:71-73 | a part is read as the first two tokens of its '='-split, and fails with an index error when there are fewer |
| Auth.CookieEntries | eric-esoa-rest-service-jar/src/main/java/com/ericsson/bos/dr/rest/service/auth/CookieHeaderExtractor.java:67-74 | the entries succeed iff every part does, one entry per part, in order |
| Auth.ExtractCookieFromResponse | eric-esoa-rest-service-jar/src/main/java/com/ericsson/bos/dr/rest/service/auth/CookieHeaderExtractor.java:48-74 | a missing Set-Cookie header or no value mentioning the token reference is COOKIE_AUTHENTICATION_FAILED; when a value mentions it and all its entries split into name and value, the result is Ok, the value of the last entry named like the reference ignoring case, or null; an entry without a value throws on the index |
| Auth.CookieEntryNameValue | eric-esoa-rest-service-jar/src/main/java/com/ericsson/bos/dr/rest/service/auth/CookieHeaderExtractor.java:71-73 | an entry `name=value`, possibly followed by further `=...`, reads as exactly that name and that value |
| Cache.SecondsToNanos | eric-esoa-rest-service-jar/src/main/java/com/ericsson/bos/dr/rest/service/cache/CacheConfiguration.java:61 | seconds become nanoseconds when that fits a 64-bit long; above the range the result is Long.MAX_VALUE, below it Long.MIN_VALUE |
| Cache.ExpireAfterCreate | eric-esoa-rest-service-jar/src/main/java/com/ericsson/bos/dr/rest/service/cache/CacheConfiguration.java:57-64 | a token without expire seconds expires at once; otherwise its lifetime is its own expire seconds in nanoseconds |
| Cache.TokenLifetimeFixedAtCreation | eric-esoa-rest-service-jar/src/main/java/com/ericsson/bos/dr/rest/service/cache/CacheConfiguration.java:66-82 | reads and updates keep the remaining duration, so a token expires at its creation time plus its creation lifetime whatever happens later |
| Cache.AccessExtendsSubsystemEntry | eric-esoa-rest-service-jar/src/main/java/com/ericsson/bos/dr/rest/service/cache/CacheConfiguration.java:97 | a connected-system entry expires a fixed time after its last access, and each access pushes that forward |
| Base64.DecodeEncode | eric-esoa-rest-service-jar/src/main/java/com/ericsson/bos/dr/rest/security/CertificateEventChangeDetector.java:105 | decoding undoes encoding for every byte sequence, so a certificate published as Base64 is recovered exactly |
| Base64.LongRoundTrip | eric-esoa-rest-service-jar/src/main/java/com/ericsson/bos/dr/rest/security/CertificateEventChangeDetector.java:105 | a full unit in front of a sequence that round-trips still round-trips |
| Base64.DecodeSplit | eric-esoa-rest-service-jar/src/main/java/com/ericsson/bos/dr/rest/security/CertificateEventChangeDetector.java:105 | a text longer than one unit decodes as its first unit followed by the rest |
| Base64.DecoderEdgeCases | eric-esoa-rest-service-jar/src/main/java/com/ericsson/bos/dr/rest/security/CertificateEventChangeDetector.java:105 | the decoder accepts missing padding and rejects a lone last character, misplaced padding and data after padding |
| Base64.Utf8Ascii | eric-esoa-rest-service-jar/src/main/java/com/ericsson/bos/dr/rest/service/auth/BasicAuthHandler.java:76 | ASCII text is encoded one byte per character, with its own code |
| Base64.Utf8Append | eric-esoa-rest-service-jar/src/main/java/com/ericsson/bos/dr/rest/service/auth/BasicAuthHandler.java:76 | UTF-8 encoding distributes over concatenation |
| CertEvents.SecretData | eric-esoa-rest-service-jar/src/main/java/com/ericsson/bos/dr/rest/security/CertificateEventChangeDetector.java:90 | the data field is present iff the secret has data holding the configured key; a null data map reads as empty |
| CertEvents.AddedSecretIsStored | eric-esoa-rest-service-jar/src/main/java/com/ericsson/bos/dr/rest/security/CertificateEventChangeDetector.java:86-96 | an added or modified secret with the prefix whose data decodes is stored under its name, in the truststore iff the config says truststore, leaving the other store alone |
| CertEvents.EncodedCertificateRoundTrips | eric-esoa-rest-service-jar/src/main/java/com/ericsson/bos/dr/rest/security/CertificateEventChangeDetector.java:104-111 | a certificate published as Base64 is stored as its original bytes |
| CertEvents.DeletedSecretIsRemoved | eric-esoa-rest-service-jar/src/main/java/com/ericsson/bos/dr/rest/security/CertificateEventChangeDetector.java:97-101 | a deleted secret with the prefix is removed from the configured store |
| CertEvents.IgnoredEventsChangeNothing | eric-esoa-rest-service-jar/src/main/java/com/ericsson/bos/dr/rest/security/CertificateEventChangeDetector.java:121-127 | a name without the prefix, any other action, or missing data changes nothing |
| CertEvents.OnlyBadBase64Fails | eric-esoa-rest-service-jar/src/main/java/com/ericsson/bos/dr/rest/security/CertificateEventChangeDetector.java:105 | handling a secret fails iff it is an add or modify whose data is not valid Base64, and then with IllegalArgumentException |
| CertEvents.HandleSecretKeepsFresh | eric-esoa-rest-service-jar/src/main/java/com/ericsson/bos/dr/rest/security/CertificateEventChangeDetector.java:86-119 | handling an event never leaves a cached context built from replaced or deleted material |
| CertEvents.ApplyConfigsKeepsFresh | eric-esoa-rest-service-jar/src/main/java/com/ericsson/bos/dr/rest/security/CertificateEventChangeDetector.java:82-84 | the same holds after running every configured secret, including one that stopped early |
| CertEvents.ApplyConfigsAppend | eric-esoa-rest-service-jar/src/main/java/com/ericsson/bos/dr/rest/security/CertificateEventChangeDetector.java:83 | configs are applied one after the other, and an exception stops the remaining ones with the changes made so far kept |
| CertEvents.OnSecret | eric-esoa-rest-service-jar/src/main/java/com/ericsson/bos/dr/rest/security/CertificateEventChangeDetector.java:82-84 | the shared store ends in the state ApplyConfigs gives, and stays valid |
| CertEvents.HandleSecretOn | eric-esoa-rest-service-jar/src/main/java/com/ericsson/bos/dr/rest/security/CertificateEventChangeDetector.java:86-119 | the store mutator the event calls for leaves the store in the state HandleSecret gives; undecodable data fails with the store untouched |
| CertEvents.FailureEndsConfigs | eric-esoa-rest-service-jar/src/main/java/com/ericsson/bos/dr/rest/security/CertificateEventChangeDetector.java:82-84 | an exception at one config is the outcome of the whole event: the configs after it are not applied |
| ChangeDetection.Inc32 | eric-esoa-rest-service-jar/src/main/java/com/ericsson/bos/dr/rest/security/ChangeDetector.java:145 | the attempt counter is a 32-bit int: it increments, and wraps from the largest value to the smallest |
| ChangeDetection.WrapLong | eric-esoa-rest-service-jar/src/main/java/com/ericsson/bos/dr/rest/security/ChangeDetector.java:149 | the interval is a 64-bit long: values in range are kept, others wrap into range |
| ChangeDetection.BackoffMonotoneAndCapped | eric-esoa-rest-service-jar/src/main/java/com/ericsson/bos/dr/rest/security/ChangeDetector.java:144-152 | the resubscribe delay is the initial timeout doubled once per attempt up to the maximum power, never decreases with the attempt and never exceeds the cap |
| ChangeDetection.DelayBelowWrap | eric-esoa-rest-service-jar/src/main/java/com/ericsson/bos/dr/rest/security/ChangeDetector.java:144-152 | for a non-negative attempt count and a capped product the delay is the initial timeout times two to the capped attempt, with no wrap, and at most the cap |
| ChangeDetection.DelayAfterCounterWrap | eric-esoa-rest-service-jar/src/main/java/com/ericsson/bos/dr/rest/security/ChangeDetector.java:145-149 | with the default backoff the delay is 128 seconds at the largest counter and drops back to 8 once the counter wraps |
| ChangeDetection.ScheduleAdvancesCounterByOne | eric-esoa-rest-service-jar/src/main/java/com/ericsson/bos/dr/rest/security/ChangeDetector.java:123-142 | scheduling when nothing is pending marks a resubscribe pending and advances the attempt counter by one |
| ChangeDetection.PendingRequestIsNoop | eric-esoa-rest-service-jar/src/main/java/com/ericsson/bos/dr/rest/security/ChangeDetector.java:126-129 | scheduling while a resubscribe is pending changes nothing and schedules nothing |
| ChangeDetection.AttemptKeepsCounter | eric-esoa-rest-service-jar/src/main/java/com/ericsson/bos/dr/rest/security/ChangeDetector.java:132-139 | a resubscribe attempt keeps the counter; success clears the pending flag, failure shuts the executor down |
| ChangeDetection.ClosedAfterShutdownStays | eric-esoa-rest-service-jar/src/main/java/com/ericsson/bos/dr/rest/security/ChangeDetector.java:176-181 | a watcher closing after shutdown is refused and changes nothing |
| ChangeDetection.ChangeDetector.constructor | eric-esoa-rest-service-jar/src/main/java/com/ericsson/bos/dr/rest/security/ChangeDetector.java:61-66 | a new detector has the default backoff of 8 seconds and 4 doublings, nothing pending and counter 0 |
| ChangeDetection.ChangeDetector.WithBackoff | eric-esoa-rest-service-jar/src/main/java/com/ericsson/bos/dr/rest/security/ChangeDetector.java:77-91 | a new detector with the given backoff, nothing pending and counter 0 |
| ChangeDetection.ChangeDetector.NextResubscribeInterval | eric-esoa-rest-service-jar/src/main/java/com/ericsson/bos/dr/rest/security/ChangeDetector.java:144-152 | returns the backoff delay for the old counter and increments the counter with 32-bit wrap-around, changing nothing else |
| ChangeDetection.ChangeDetector.ScheduleResubscribe | eric-esoa-rest-service-jar/src/main/java/com/ericsson/bos/dr/rest/security/ChangeDetector.java:123-142 | the outcome and new state are those of Schedule, and the detector stays valid |
| ChangeDetection.ChangeDetector.ResubscribeAttempt | eric-esoa-rest-service-jar/src/main/java/com/ericsson/bos/dr/rest/security/ChangeDetector.java:132-139 | the new state is that of Attempt |
| ChangeDetection.ChangeDetector.Shutdown | eric-esoa-rest-service-jar/src/main/java/com/ericsson/bos/dr/rest/security/ChangeDetector.java:102-118 | shutting down only marks the executor shut down |
| ChangeDetection.ChangeDetector.OnClose | eric-esoa-rest-service-jar/src/main/java/com/ericsson/bos/dr/rest/security/ChangeDetector.java:176-181 | the outcome and new state are those of CloseTransition: a resubscribe is scheduled unless the executor is shut down |
| ChangeDetection.DefaultBackoffSequence | eric-esoa-rest-service-jar/src/main/java/com/ericsson/bos/dr/rest/security/ChangeDetector.java:65 | successive resubscribes with the default backoff wait 8, 16, 32, 64, 128 and 128 seconds |
| CiMaps.CiPutAllGet | eric-esoa-rest-service-jar/src/main/java/com/ericsson/bos/dr/rest/service/auth/AbstractAuthHandler.java:120-121 | after putting entries into a case-insensitive map, a lookup answers the last entry whose name matches ignoring case, else the earlier contents |
| CiMaps.CiPutAllKeys | eric-esoa-rest-service-jar/src/main/java/com/ericsson/bos/dr/rest/service/auth/AbstractAuthHandler.java:120-121 | the keys afterwards are the earlier keys plus the lower-cased names put |
| Connectivity.ConnectTimeout | eric-esoa-rest-service-jar/src/main/java/com/ericsson/bos/dr/rest/service/connectivity/ConnectionProperties.java:241-243 | the connection timeout is the configured one, or 10 seconds when unset |
| Connectivity.ReadTimeout | eric-esoa-rest-service-jar/src/main/java/com/ericsson/bos/dr/rest/service/connectivity/ConnectionProperties.java:249-251 | the read timeout is the configured one, or 60 seconds when unset |
| Connectivity.WriteTimeout | eric-esoa-rest-service-jar/src/main/java/com/ericsson/bos/dr/rest/service/connectivity/ConnectionProperties.java:257-259 | the write timeout is the configured one, or 60 seconds when unset |
| Connectivity.EmptyConnectionDefaults | eric-esoa-rest-service-jar/src/main/java/com/ericsson/bos/dr/rest/service/connectivity/ConnectionProperties.java:39 | a connection with nothing set does not verify certificates and has timeouts 10, 60 and 60 |
| Connectivity.GetConnection | eric-esoa-rest-service-jar/src/main/java/com/ericsson/bos/dr/rest/service/connectivity/Subsystem.java:71-73 | the first connection, or an index error when there is none |
| Connectivity.IsSslVerify | eric-esoa-rest-service-jar/src/main/java/com/ericsson/bos/dr/rest/service/connectivity/Subsystem.java:79-85 | true iff the first connection's sslVerify is true; null counts as false |
| Connectivity.JoinedAuthUrl | eric-esoa-rest-service-jar/src/main/java/com/ericsson/bos/dr/rest/service/connectivity/Subsystem.java:91-95 | an auth URL starting with "http" in any case is used as it is, otherwise it is appended to the base URL |
| Connectivity.AuthenticatingSystem | eric-esoa-rest-service-jar/src/main/java/com/ericsson/bos/dr/rest/service/connectivity/Subsystem.java:97-99 | the attached auth subsystem, else the system itself |
| Connectivity.AuthKey | eric-esoa-rest-service-jar/src/main/java/com/ericsson/bos/dr/rest/service/connectivity/Subsystem.java:110-115 | the auth key of the authenticating system's first connection |
| Connectivity.AuthKeyFromAuthSubsystem | eric-esoa-rest-service-jar/src/main/java/com/ericsson/bos/dr/rest/service/connectivity/Subsystem.java:111 | with an auth subsystem attached, the key comes from its connection, not the system's own |
| Errors.RestError | eric-esoa-rest-service-jar/src/main/java/com/ericsson/bos/dr/rest/service/exceptions/ErrorCode.java:25-44 | a service error carries its error code and no missing-property names |
| Failures.DirectCause | eric-esoa-rest-service-jar/src/main/java/com/ericsson/bos/dr/rest/service/utils/ExceptionChecks.java:56 | the direct cause is the first link of the cause chain, absent for an empty chain |
| Failures.RootCause | eric-esoa-rest-service-jar/src/main/java/com/ericsson/bos/dr/rest/service/utils/ExceptionChecks.java:80 | the root cause is the last link of the cause chain, absent for an empty chain |
| Failures.ConnectionIssueOnlyForRequests | eric-esoa-rest-service-jar/src/main/java/com/ericsson/bos/dr/rest/service/utils/ExceptionChecks.java:40-44 | only a request exception can be a connection issue |
| Failures.CheckedLinks | eric-esoa-rest-service-jar/src/main/java/com/ericsson/bos/dr/rest/service/utils/ExceptionChecks.java:55-81 | timeouts and unknown hosts count only as the direct cause, a refused connection only as the root cause |
| Http.HttpRequest.constructor | eric-esoa-rest-service-jar/src/main/java/com/ericsson/bos/dr/rest/service/http/HttpRequest.java:29-43 | a new request has no URL, method, body or headers, timeouts 60/60/10, no certificate checks and URL encoding on |
| Http.ParseSubtype | eric-esoa-rest-service-jar/src/main/java/com/ericsson/bos/dr/rest/service/run/response/HttpResponseContentTypeConsumer.java:36 | a parsed subtype is the lower-cased text after the first '/' (non-empty, without a further '/'); text without '/' is an invalid media type |
| Http.ParametersDropped | eric-esoa-rest-service-jar/src/main/java/com/ericsson/bos/dr/rest/service/run/response/HttpResponseContentTypeConsumer.java:36 | for any type text without ';' or blanks at its ends and any parameters starting with ';', the media type read is exactly that type text |
| Http.SubtypeLowerCased | eric-esoa-rest-service-jar/src/main/java/com/ericsson/bos/dr/rest/service/run/response/HttpResponseContentTypeConsumer.java:36-37 | for any text `t/s` with no '/' in `t`, the parse succeeds iff `t` and `s` form a media type, and then yields `s` lower-cased, whatever its letter case |
| Http.MediaTypeSubtype | eric-esoa-rest-service-jar/src/main/java/com/ericsson/bos/dr/rest/service/run/response/HttpResponseContentTypeConsumer.java:36-37 | for any Content-Type text `t/s` followed by parameters, the subtype read is `s` lower-cased exactly when `t` and `s` form a media type, and an invalid media type otherwise |
| Http.HeaderSubtype | eric-esoa-rest-service-jar/src/main/java/com/ericsson/bos/dr/rest/service/run/response/HttpResponseContentTypeConsumer.java:36-37 | the same for the first Content-Type value of a header map, so the subtype is tied to the header text |
| Http.SubtypeRequired | eric-esoa-rest-service-jar/src/main/java/com/ericsson/bos/dr/rest/service/run/response/HttpResponseContentTypeConsumer.java:36 | any value without '/', other than the bare wildcard, is not a media type |
| RequestStages.PutToken | eric-esoa-rest-service-jar/src/main/java/com/ericsson/bos/dr/rest/service/run/request/HttpRequestSubstitutionContext.java:56 | the token, or null, is filed under the auth key when there is one; otherwise the entries are unchanged |
| RequestStages.RequestProperties | eric-esoa-rest-service-jar/src/main/java/com/ericsson/bos/dr/rest/service/run/request/HttpRequestSubstitutionContext.java:51-53 | the request properties hold the method name and, only when the request has a body, the body |
| RequestStages.RequestSubstitutionContext | eric-esoa-rest-service-jar/src/main/java/com/ericsson/bos/dr/rest/service/run/request/HttpRequestSubstitutionContext.java:49-58 | the context exists iff the auth key can be read, and is a JSON object |
| RequestStages.RequestContextEntries | eric-esoa-rest-service-jar/src/main/java/com/ericsson/bos/dr/rest/service/run/request/HttpRequestSubstitutionContext.java:49-58 | the context holds "request", "inputs" and the auth key, no other entry, and the auth key entry replaces an entry of the same name |
| RequestStages.TokenUnderAuthSubsystemKey | eric-esoa-rest-service-jar/src/main/java/com/ericsson/bos/dr/rest/service/run/request/HttpRequestSubstitutionContext.java:56 | with an auth subsystem attached, the token is filed under the auth subsystem's key |
| RequestStages.BodyStage | eric-esoa-rest-service-jar/src/main/java/com/ericsson/bos/dr/rest/service/run/request/HttpRequestBodyConsumer.java:47-62 | only the body changes |
| RequestStages.BodyStageChoices | eric-esoa-rest-service-jar/src/main/java/com/ericsson/bos/dr/rest/service/run/request/HttpRequestBodyConsumer.java:52-61 | the run request's own body wins; without it the in-template is rendered against the request context; without either the body is untouched |
| RequestStages.BodyVisibleToLaterStages | eric-esoa-rest-service-jar/src/main/java/com/ericsson/bos/dr/rest/service/run/request/HttpRequestSubstitutionContext.java:53 | the body the body stage sets is what later stages see as request.body |
| RequestStages.ApplyBody | eric-esoa-rest-service-jar/src/main/java/com/ericsson/bos/dr/rest/service/run/request/HttpRequestBodyConsumer.java:47-62 | the request ends as BodyStage gives, or unchanged with the stage's error |
| RequestStages.AuthStage | eric-esoa-rest-service-jar/src/main/java/com/ericsson/bos/dr/rest/service/run/request/HttpRequestAuthConsumer.java:34-44 | fails only without a connection; may only switch certificate checks on and set the four secret fields |
| RequestStages.AuthStageFollowsSslVerify | eric-esoa-rest-service-jar/src/main/java/com/ericsson/bos/dr/rest/service/run/request/HttpRequestAuthConsumer.java:37-43 | with sslVerify the secrets are copied from the connection; without it the request is unchanged |
| RequestStages.ApplyAuth | eric-esoa-rest-service-jar/src/main/java/com/ericsson/bos/dr/rest/service/run/request/HttpRequestAuthConsumer.java:34-44 | the request ends as AuthStage gives, or unchanged with the stage's error |
| RequestStages.NonNull | eric-esoa-rest-service-jar/src/main/java/com/ericsson/bos/dr/rest/service/run/request/HttpRequestHeadersConsumer.java:54 | the values kept are exactly the non-null ones |
| RequestStages.NonNullValues | eric-esoa-rest-service-jar/src/main/java/com/ericsson/bos/dr/rest/service/run/request/HttpRequestHeadersConsumer.java:52-58 | the same header names, each keeping its non-null values |
| RequestStages.RenderedHeaderValues | eric-esoa-rest-service-jar/src/main/java/com/ericsson/bos/dr/rest/service/run/request/HttpRequestHeadersConsumer.java:53-56 | each header keeps one rendered value per non-null configured value, in order |
| RequestStages.HeadersStage | eric-esoa-rest-service-jar/src/main/java/com/ericsson/bos/dr/rest/service/run/request/HttpRequestHeadersConsumer.java:47-62 | only the headers change; they are set with exactly the configured names, and the stage fails iff the context or a rendering fails |
| RequestStages.NoHeadersStillSet | eric-esoa-rest-service-jar/src/main/java/com/ericsson/bos/dr/rest/service/run/request/HttpRequestHeadersConsumer.java:61 | without configured headers the request still gets an empty header map |
| RequestStages.ApplyHeaders | eric-esoa-rest-service-jar/src/main/java/com/ericsson/bos/dr/rest/service/run/request/HttpRequestHeadersConsumer.java:47-62 | the request ends as HeadersStage gives; on success the rendered values are written back into the method's header map |
| RequestStages.MethodStage | eric-esoa-rest-service-jar/src/main/java/com/ericsson/bos/dr/rest/service/run/request/HttpRequestMethodConsumer.java:34-36 | the method is the resolved method name; the stage cannot fail and changes nothing else |
| RequestStages.ApplyMethod | eric-esoa-rest-service-jar/src/main/java/com/ericsson/bos/dr/rest/service/run/request/HttpRequestMethodConsumer.java:34-36 | the request ends as MethodStage gives |
| RequestStages.TimeoutsStage | eric-esoa-rest-service-jar/src/main/java/com/ericsson/bos/dr/rest/service/run/request/HttpRequestTimeoutsConsumer.java:31-37 | fails only without a connection; sets the three timeouts to the connection's, with their defaults, and nothing else |
| RequestStages.ApplyTimeouts | eric-esoa-rest-service-jar/src/main/java/com/ericsson/bos/dr/rest/service/run/request/HttpRequestTimeoutsConsumer.java:31-37 | the request ends as TimeoutsStage gives, or unchanged with the stage's error |
| RequestStages.UrlStage | eric-esoa-rest-service-jar/src/main/java/com/ericsson/bos/dr/rest/service/run/request/HttpRequestUrlConsumer.java:43-53 | the URL is the rendering of base URL, path and query parameters; encodeUrl comes from the inbound if there is one; nothing else changes |
| RequestStages.UrlEncodingDefaultsOn | eric-esoa-rest-service-jar/src/main/java/com/ericsson/bos/dr/rest/service/run/request/HttpRequestUrlConsumer.java:52 | without an inbound a new request keeps URL encoding on |
| RequestStages.ApplyUrl | eric-esoa-rest-service-jar/src/main/java/com/ericsson/bos/dr/rest/service/run/request/HttpRequestUrlConsumer.java:43-53 | the request ends as UrlStage gives, or unchanged with the stage's error |
| RequestStages.RequestPipeline | eric-esoa-rest-service-jar/src/main/java/com/ericsson/bos/dr/rest/service/RunService.java:89-90 | a request that passes every stage has the resolved method and exactly the configured header names |
| RequestStages.FailureStopsTheChain | eric-esoa-rest-service-jar/src/main/java/com/ericsson/bos/dr/rest/service/RunService.java:90 | once a stage has failed, later stages change nothing and the first error is kept |
| RequestStages.UrlAndHeadersCommute | eric-esoa-rest-service-jar/src/main/java/com/ericsson/bos/dr/rest/service/RunService.java:90 | the URL and header stages read the same context and write different fields, so their relative order does not matter |
| RequestStages.UrlStageIgnoresHeaders | eric-esoa-rest-service-jar/src/main/java/com/ericsson/bos/dr/rest/service/run/request/HttpRequestUrlConsumer.java:43-53 | the URL stage neither reads nor writes the request headers |
| RequestStages.HeadersStageIgnoresUrl | eric-esoa-rest-service-jar/src/main/java/com/ericsson/bos/dr/rest/service/run/request/HttpRequestHeadersConsumer.java:47-62 | the header stage neither reads nor writes the URL or its encode flag |
| RequestStages.ApplyRequestStages | eric-esoa-rest-service-jar/src/main/java/com/ericsson/bos/dr/rest/service/RunService.java:89-90 | running the stages in order on the request ends as RequestPipeline gives, with every failure stopping the chain |
| ResourceConfig.FindResourceConfigurationByName | eric-esoa-rest-service-jar/src/main/java/com/ericsson/bos/dr/rest/service/ResourceConfigurationService.java:181-184 | the stored configuration of that name, else RESOURCE_CONFIGURATION_NOT_FOUND |
| ResourceConfig.GetResourceDto | eric-esoa-rest-service-jar/src/main/java/com/ericsson/bos/dr/rest/service/ResourceConfigurationService.java:209-220 | the resource of that name, else RESOURCE_NOT_FOUND |
| ResourceConfig.GetResourceMethodDefinition | eric-esoa-rest-service-jar/src/main/java/com/ericsson/bos/dr/rest/service/ResourceConfigurationService.java:159-179 | the configuration and resource must exist; a blank method name needs exactly one method, else METHOD_NAME_REQUIRED_IN_RUNREQUEST; the method is looked up ignoring case, else RESOURCE_METHOD_NOT_FOUND |
| ResourceConfig.DefaultsToTheOnlyMethod | eric-esoa-rest-service-jar/src/main/java/com/ericsson/bos/dr/rest/service/ResourceConfigurationService.java:162-169 | without a method name the only method of the resource is used |
| ResourceConfig.BlankNameIsNotDefaulted | eric-esoa-rest-service-jar/src/main/java/com/ericsson/bos/dr/rest/service/ResourceConfigurationService.java:162-172 | a blank but non-null name is not replaced by the default: it is looked up as given |
| ResourceConfig.LookupIgnoresCase | eric-esoa-rest-service-jar/src/main/java/com/ericsson/bos/dr/rest/service/ResourceConfigurationService.java:170-172 | a method configured as "GET" is found when "get" is asked for, under the name asked for |
| Resources.LocalHandlersTakePrecedence | eric-esoa-rest-service-jar/src/main/java/com/ericsson/bos/dr/rest/model/resources/ResourceMethodDefinition.java:82-86 | the first handler meeting any condition is the first local one meeting it, and a global one only when no local one does |
| Resources.OverlayKeepsKeysLocalWins | eric-esoa-rest-service-jar/src/main/java/com/ericsson/bos/dr/rest/model/resources/ResourceMethodDefinition.java:105-110 | the request headers have every global and every inbound name, the inbound value winning |
| Resources.OverlayIdempotent | eric-esoa-rest-service-jar/src/main/java/com/ericsson/bos/dr/rest/model/resources/ResourceMethodDefinition.java:105-110 | overlaying the inbound headers a second time changes nothing |
| Resources.ResourceMethodDefinition.constructor | eric-esoa-rest-service-jar/src/main/java/com/ericsson/bos/dr/rest/model/resources/ResourceMethodDefinition.java:49-55 | the definition keeps the method name, the path, the method's inbound, outbound and handler lists, and the configuration's global lists and header maps |
| Resources.ResourceMethodDefinition.GetRetryHandlers | eric-esoa-rest-service-jar/src/main/java/com/ericsson/bos/dr/rest/model/resources/ResourceMethodDefinition.java:82-86 | returns local then global retry handlers, and appends the globals to the method's own list in place when it has one |
| Resources.ResourceMethodDefinition.GetErrorHandlers | eric-esoa-rest-service-jar/src/main/java/com/ericsson/bos/dr/rest/model/resources/ResourceMethodDefinition.java:93-97 | returns local then global error handlers, appending the globals to the method's own list in place when it has one |
| Resources.ResourceMethodDefinition.GetRequestHeaders | eric-esoa-rest-service-jar/src/main/java/com/ericsson/bos/dr/rest/model/resources/ResourceMethodDefinition.java:105-110 | returns the global headers overlaid by the inbound ones, and writes that into the global map in place when there is one |
| Resources.RepeatedRetryHandlerCalls | eric-esoa-rest-service-jar/src/main/java/com/ericsson/bos/dr/rest/model/resources/ResourceMethodDefinition.java:82-86 | because the globals are appended in place, a second call returns the global handler twice |
| Resources.RepeatedCallsWithoutLocalList | eric-esoa-rest-service-jar/src/main/java/com/ericsson/bos/dr/rest/model/resources/ResourceMethodDefinition.java:83 | without a local list each call starts from a new list, so repeated calls agree |
| Retry.SingleValueMap | eric-esoa-rest-service-jar/src/main/java/com/ericsson/bos/dr/rest/service/http/retry/RetrySubstitutionCtx.java:58-59 | every header with at least one value maps to its first value |
| Retry.RetrySubstitutionCtx | eric-esoa-rest-service-jar/src/main/java/com/ericsson/bos/dr/rest/service/http/retry/RetrySubstitutionCtx.java:52-70 | the context holds connectionTimeout (root cause is a refused connection) and response with headers, code and body: those of an error response, otherwise empty headers and null code and body |
| Retry.Continue | eric-esoa-rest-service-jar/src/main/java/com/ericsson/bos/dr/rest/service/http/retry/ResourceRetrySpec.java:83-91 | under a matched handler a retry after its back-off is emitted iff fewer than maxRetries retries were made, otherwise the failure propagates |
| Retry.FirstFailureMatchesFirstHandler | eric-esoa-rest-service-jar/src/main/java/com/ericsson/bos/dr/rest/service/http/retry/ResourceRetrySpec.java:76-81 | a first retryable failure is matched by the first handler whose condition holds, and with none it propagates |
| Retry.LaterFailuresUseMatchedHandler | eric-esoa-rest-service-jar/src/main/java/com/ericsson/bos/dr/rest/service/http/retry/ResourceRetrySpec.java:83-91 | once a handler is matched, every later failure, retryable or not, is decided by that handler |
| Retry.NotRetryableFirstFailurePropagates | eric-esoa-rest-service-jar/src/main/java/com/ericsson/bos/dr/rest/service/http/retry/ResourceRetrySpec.java:94-98 | a first failure that is neither an error response nor a refused connection propagates at once |
| Retry.ThrowingConditionNeverMatches | eric-esoa-rest-service-jar/src/main/java/com/ericsson/bos/dr/rest/service/http/retry/ResourceRetrySpec.java:100-113 | a condition whose rendering throws counts as false |
| Retry.ResourceRetrySpec.constructor | eric-esoa-rest-service-jar/src/main/java/com/ericsson/bos/dr/rest/service/http/retry/ResourceRetrySpec.java:64-66 | the spec keeps the handlers and has matched none |
| Retry.ResourceRetrySpec.ProcessRetrySignal | eric-esoa-rest-service-jar/src/main/java/com/ericsson/bos/dr/rest/service/http/retry/ResourceRetrySpec.java:73-92 | the signal and the matched handler afterwards are those Decide gives |
| Retry.RetriedUnderBounds | eric-esoa-rest-service-jar/src/main/java/com/ericsson/bos/dr/rest/service/http/retry/ResourceRetrySpec.java:83-88 | under a handler at most maxRetries minus the retries made so far happen, each after the handler's back-off |
| Retry.AttemptsBounded | eric-esoa-rest-service-jar/src/main/java/com/ericsson/bos/dr/rest/service/http/HttpExecutor.java:129-131 | every delay of an exchange is one handler's back-off, and there are at most that handler's maxRetries |
| Retry.ZeroRetriesPropagate | eric-esoa-rest-service-jar/src/main/java/com/ericsson/bos/dr/rest/service/http/retry/ResourceRetrySpec.java:85-91 | when no handler allows a retry the first failure propagates with no delay |
| Retry.ExecuteWithRetry | eric-esoa-rest-service-jar/src/main/java/com/ericsson/bos/dr/rest/service/http/HttpExecutor.java:129-131 | the loop of attempts driven by the spec object ends with the result and delays Retried specifies |
| Retry.RetryMatched | eric-esoa-rest-service-jar/src/main/java/com/ericsson/bos/dr/rest/service/http/retry/ResourceRetrySpec.java:83-91 | once a handler allowing a retry matched the first failure, the loop of retries ends with the result and delays RetriedUnder gives for that handler |
| Retry.ResumeOnError | eric-esoa-rest-service-jar/src/main/java/com/ericsson/bos/dr/rest/service/http/HttpExecutor.java:132-147 | a delivered response is kept; an error response becomes a response with its status, headers and body; any other failure stays an error |
| TlsStore.EvictWhere | eric-esoa-rest-service-jar/src/main/java/com/ericsson/bos/dr/rest/service/http/ExternalSslCtx.java:169-179 | exactly the cached contexts whose key meets the condition are removed, the others kept unchanged |
| TlsStore.LoadMaterial | eric-esoa-rest-service-jar/src/main/java/com/ericsson/bos/dr/rest/service/http/ExternalSslCtx.java:88-101 | material loads iff the secret is stored, a password is given and the bytes load with it; otherwise CERTIFICATE_HANDLING_FAILED |
| TlsStore.LoadSide | eric-esoa-rest-service-jar/src/main/java/com/ericsson/bos/dr/rest/service/http/ExternalSslCtx.java:62-69 | a side without a secret name adds nothing, a named secret that is not stored fails |
| TlsStore.BuildContext | eric-esoa-rest-service-jar/src/main/java/com/ericsson/bos/dr/rest/service/http/ExternalSslCtx.java:59-73 | a context built from the request is up to date with the stores |
| TlsStore.AddNewNameKeepsCache | eric-esoa-rest-service-jar/src/main/java/com/ericsson/bos/dr/rest/service/http/ExternalSslCtx.java:134-138 | adding a certificate under a new name evicts nothing |
| TlsStore.OverwriteEvictsExactlyUsers | eric-esoa-rest-service-jar/src/main/java/com/ericsson/bos/dr/rest/service/http/ExternalSslCtx.java:134-138 | replacing a keystore certificate evicts exactly the contexts built with it |
| TlsStore.DeleteEvictsUsers | eric-esoa-rest-service-jar/src/main/java/com/ericsson/bos/dr/rest/service/http/ExternalSslCtx.java:144-167 | deleting a certificate removes it and evicts exactly the contexts built with it |
| TlsStore.TruststoreOverwriteEvictsExactlyUsers | eric-esoa-rest-service-jar/src/main/java/com/ericsson/bos/dr/rest/service/http/ExternalSslCtx.java:154-158 | replacing a truststore certificate evicts exactly the contexts built with it and leaves the keystore alone |
| TlsStore.AddKeystoreKeepsFresh | eric-esoa-rest-service-jar/src/main/java/com/ericsson/bos/dr/rest/service/http/ExternalSslCtx.java:134-138 | after adding a keystore certificate no cached context is stale |
| TlsStore.AddTruststoreKeepsFresh | eric-esoa-rest-service-jar/src/main/java/com/ericsson/bos/dr/rest/service/http/ExternalSslCtx.java:154-158 | after adding a truststore certificate no cached context is stale |
| TlsStore.DeleteKeepsFresh | eric-esoa-rest-service-jar/src/main/java/com/ericsson/bos/dr/rest/service/http/ExternalSslCtx.java:144-167 | after deleting a certificate no cached context is stale |
| TlsStore.CachedContextIsReturned | eric-esoa-rest-service-jar/src/main/java/com/ericsson/bos/dr/rest/service/http/ExternalSslCtx.java:59-75 | a context cached for the request's secret names is returned without rebuilding |
| TlsStore.MissingSecretFails | eric-esoa-rest-service-jar/src/main/java/com/ericsson/bos/dr/rest/service/http/ExternalSslCtx.java:89-91 | a named secret that is not stored fails with CERTIFICATE_HANDLING_FAILED and caches nothing |
| TlsStore.GetCachesAndKeepsFresh | eric-esoa-rest-service-jar/src/main/java/com/ericsson/bos/dr/rest/service/http/ExternalSslCtx.java:56-76 | a successful get caches its context under the request's key and leaves no stale context |
| TlsStore.NoNamesNoMaterial | eric-esoa-rest-service-jar/src/main/java/com/ericsson/bos/dr/rest/service/http/ExternalSslCtx.java:61-70 | without secret names the context carries no trust or key material |
| TlsStore.ExternalSslCtx.constructor | eric-esoa-rest-service-jar/src/main/java/com/ericsson/bos/dr/rest/service/http/ExternalSslCtx.java:47-49 | a new store has no certificates and no cached contexts |
| TlsStore.ExternalSslCtx.Get | eric-esoa-rest-service-jar/src/main/java/com/ericsson/bos/dr/rest/service/http/ExternalSslCtx.java:56-76 | the result and new state are those GetContext gives, and the store stays valid |
| TlsStore.ExternalSslCtx.RemoveSslContextsWhere | eric-esoa-rest-service-jar/src/main/java/com/ericsson/bos/dr/rest/service/http/ExternalSslCtx.java:169-179 | the cache becomes EvictWhere of the old cache, and the certificate stores are unchanged |
| TlsStore.ExternalSslCtx.AddKeystoreCert | eric-esoa-rest-service-jar/src/main/java/com/ericsson/bos/dr/rest/service/http/ExternalSslCtx.java:134-138 | the new state is AfterAddKeystore of the old one, and the store stays valid |
| TlsStore.ExternalSslCtx.DeleteKeystoreCert | eric-esoa-rest-service-jar/src/main/java/com/ericsson/bos/dr/rest/service/http/ExternalSslCtx.java:144-147 | the new state is AfterDeleteKeystore of the old one, and the store stays valid |
| TlsStore.ExternalSslCtx.AddTruststoreCert | eric-esoa-rest-service-jar/src/main/java/com/ericsson/bos/dr/rest/service/http/ExternalSslCtx.java:154-158 | the new state is AfterAddTruststore of the old one, and the store stays valid |
| TlsStore.ExternalSslCtx.DeleteTruststoreCert | eric-esoa-rest-service-jar/src/main/java/com/ericsson/bos/dr/rest/service/http/ExternalSslCtx.java:164-167 | the new state is AfterDeleteTruststore of the old one, and the store stays valid |
| Values.Render | eric-esoa-rest-service-jar/src/main/java/com/ericsson/bos/dr/rest/service/run/request/HttpRequestUrlConsumer.java:49 | a rendering succeeds iff the template engine answers, with its text; a failure is SUBSTITUTION_FAILED |
| Values.RenderEach | eric-esoa-rest-service-jar/src/main/java/com/ericsson/bos/dr/rest/service/run/request/HttpRequestHeadersConsumer.java:53-56 | a list renders iff each element does, one rendered value per template in order |
| Values.RenderValues | eric-esoa-rest-service-jar/src/main/java/com/ericsson/bos/dr/rest/service/run/response/HttpResponseHeadersConsumer.java:68-78 | a header map renders iff every list does, keeping the names, each value list rendered element by element |
| Values.OneFailingListFailsAll | eric-esoa-rest-service-jar/src/main/java/com/ericsson/bos/dr/rest/service/run/response/HttpResponseHeadersConsumer.java:71-76 | one list whose rendering fails fails the whole map with that error |
| Values.AllListsRendered | eric-esoa-rest-service-jar/src/main/java/com/ericsson/bos/dr/rest/service/run/response/HttpResponseHeadersConsumer.java:71-77 | a map of rendered lists for every name is the map's rendering |
| Values.RenderMap | eric-esoa-rest-service-jar/src/main/java/com/ericsson/bos/dr/rest/service/run/request/HttpRequestHeadersConsumer.java:52-58 | the loop over the header names ends with the map RenderValues specifies, or its error |
| Values.JsonOrRaw | eric-esoa-rest-service-jar/src/main/java/com/ericsson/bos/dr/rest/service/run/response/HttpResponseSubstitutionContext.java:80-86 | text that parses as JSON is offered as the parsed value, any other text as the string itself |
| Values.ReplaceAtSymbol | eric-esoa-rest-service-jar/src/main/java/com/ericsson/bos/dr/rest/service/substitution/ReplaceAtSymbolFunction.java:39-41 | null stays null and text stays text; its effect on text is given by ReplaceAtInPlace |
| Values.ReplaceAtInPlace | eric-esoa-rest-service-jar/src/main/java/com/ericsson/bos/dr/rest/service/substitution/ReplaceAtSymbolFunction.java:40 | '@' becomes "__", any other character stays, and the replacement of a concatenation is the concatenation of the replacements, so every '@' is replaced in place |
| Values.ReplaceAtRemovesAll | eric-esoa-rest-service-jar/src/main/java/com/ericsson/bos/dr/rest/service/substitution/ReplaceAtSymbolFunction.java:40 | no '@' is left after the replacement |
| Values.ReplaceAtIdentity | eric-esoa-rest-service-jar/src/main/java/com/ericsson/bos/dr/rest/service/substitution/ReplaceAtSymbolFunction.java:40 | text without '@' is unchanged |
| Values.ReplaceAtLength | eric-esoa-rest-service-jar/src/main/java/com/ericsson/bos/dr/rest/service/substitution/ReplaceAtSymbolFunction.java:40 | every '@' becomes two characters, so the length grows by the number of '@' |
| Values.NoAtSymbolLeft | eric-esoa-rest-service-jar/src/main/java/com/ericsson/bos/dr/rest/service/substitution/ReplaceAtSymbolFunction.java:39-41 | the function's result contains no '@' |
| Values.UnchangedWithoutAt | eric-esoa-rest-service-jar/src/main/java/com/ericsson/bos/dr/rest/service/substitution/ReplaceAtSymbolFunction.java:39-41 | the function leaves text without '@' unchanged |
| Values.LengthGrowsByAtCount | eric-esoa-rest-service-jar/src/main/java/com/ericsson/bos/dr/rest/service/substitution/ReplaceAtSymbolFunction.java:39-41 | the function's result is longer by the number of '@' |
| Values.ReplaceAtSymbolIdempotent | eric-esoa-rest-service-jar/src/main/java/com/ericsson/bos/dr/rest/service/substitution/ReplaceAtSymbolFunction.java:39-41 | applying the function twice is the same as once |
| Strings.ToLong | eric-esoa-rest-service-jar/src/main/java/com/ericsson/bos/dr/rest/service/auth/BasicAuthHandler.java:69 | a lenient parse to a 64-bit long: always in range, 0 for null |
| Strings.ToLongExamples | eric-esoa-rest-service-jar/src/main/java/com/ericsson/bos/dr/rest/service/auth/BasicAuthHandler.java:69 | the decimal text of a long parses back to it; empty text, a lone sign and trailing letters give 0 |
| Strings.SplitByWholeSeparator | eric-esoa-rest-service-jar/src/main/java/com/ericsson/bos/dr/rest/service/auth/CookieHeaderExtractor.java:71 | empty text gives no tokens; separators are dropped, no empty token before the last, and the last token is the text after the last separator |
| Strings.SplitAtFirstSeparator | eric-esoa-rest-service-jar/src/main/java/com/ericsson/bos/dr/rest/service/auth/CookieHeaderExtractor.java:71 | the tokens of `n` + separator + `rest` (no separator in `n`) are `n` unless it is empty, then the tokens of `rest`, or one empty token when `rest` is empty; with text without a separator giving itself, this fixes every token |
| Strings.TrimKeeps | eric-esoa-rest-service-jar/src/main/java/com/ericsson/bos/dr/rest/service/auth/CookieHeaderExtractor.java:69-70 | trimming keeps every character that is not surrounding white space, so a part containing '=' still contains it |
| ResponseStages.ResponseSubstitutionContext | eric-esoa-rest-service-jar/src/main/java/com/ericsson/bos/dr/rest/service/run/response/HttpResponseSubstitutionContext.java:53-61 | the context exists iff the system has a connection, else an index error, and it is a JSON object |
| ResponseStages.ResponseContextEntries | eric-esoa-rest-service-jar/src/main/java/com/ericsson/bos/dr/rest/service/run/response/HttpResponseSubstitutionContext.java:53-78 | the context holds inputs, the token under the connection's auth key, request (method, url, body when present, headers) and response (body, code, headers less framing headers) |
| ResponseStages.TokenUnderOwnKey | eric-esoa-rest-service-jar/src/main/java/com/ericsson/bos/dr/rest/service/run/response/HttpResponseSubstitutionContext.java:57 | the response context files the token under the system's own auth key, not the auth subsystem's, unlike the request context |
| ResponseStages.ContentTypeCheck | eric-esoa-rest-service-jar/src/main/java/com/ericsson/bos/dr/rest/service/run/response/HttpResponseContentTypeConsumer.java:35-40 | no Content-Type passes; a value that is not a media type throws; an xml subtype in any letter case is CONTENT_TYPE_IN_HTTPRESPONSE_NOT_SUPPORTED; any other subtype passes |
| ResponseStages.ContentTypeStage | eric-esoa-rest-service-jar/src/main/java/com/ericsson/bos/dr/rest/service/run/response/HttpResponseContentTypeConsumer.java:35-40 | the check runs on the effective headers and changes nothing |
| ResponseStages.XmlResponseRefused | eric-esoa-rest-service-jar/src/main/java/com/ericsson/bos/dr/rest/service/run/response/HttpResponseContentTypeConsumer.java:37-38 | for any Content-Type `t/s` with parameters forming a media type, the response is refused iff `s` is "xml" in some letter case, and passes otherwise |
| ResponseStages.MalformedContentTypeThrows | eric-esoa-rest-service-jar/src/main/java/com/ericsson/bos/dr/rest/service/run/response/HttpResponseContentTypeConsumer.java:36 | any Content-Type without '/', other than the bare wildcard, throws an invalid media type error |
| ResponseStages.ApplyContentType | eric-esoa-rest-service-jar/src/main/java/com/ericsson/bos/dr/rest/service/run/response/HttpResponseContentTypeConsumer.java:35-40 | the check leaves the response and the context as they were, with the outcome ContentTypeStage gives |
| ResponseStages.ConditionMet | eric-esoa-rest-service-jar/src/main/java/com/ericsson/bos/dr/rest/service/run/response/HttpResponseErrorConsumer.java:55 | a condition holds iff it renders to "true" ignoring case; a rendering failure is SUBSTITUTION_FAILED |
| ResponseStages.MatchedIndex | eric-esoa-rest-service-jar/src/main/java/com/ericsson/bos/dr/rest/service/run/response/HttpResponseErrorConsumer.java:52-61 | a matched index is the position of a handler, and the only failure is SUBSTITUTION_FAILED from rendering a condition |
| ResponseStages.MatchedIndexOk | eric-esoa-rest-service-jar/src/main/java/com/ericsson/bos/dr/rest/service/run/response/HttpResponseErrorConsumer.java:52-61 | a matched index is a handler whose condition renders true with every earlier one false; no match means every condition rendered false |
| ResponseStages.MatchedIndexErr | eric-esoa-rest-service-jar/src/main/java/com/ericsson/bos/dr/rest/service/run/response/HttpResponseErrorConsumer.java:52-61 | a failure means some condition failed to render and every condition before it was false |
| ResponseStages.MatchedIndexMeaning | eric-esoa-rest-service-jar/src/main/java/com/ericsson/bos/dr/rest/service/run/response/HttpResponseErrorConsumer.java:52-61 | the first handler whose condition holds is the one matched; with no match every condition was false; a failure comes from the first condition that fails to render |
| ResponseStages.LocalErrorHandlersFirst | eric-esoa-rest-service-jar/src/main/java/com/ericsson/bos/dr/rest/model/resources/ResourceMethodDefinition.java:93-97 | over local then global handlers, a matching local handler wins, and global ones are consulted only when every local one is false |
| ResponseStages.ErrorStage | eric-esoa-rest-service-jar/src/main/java/com/ericsson/bos/dr/rest/service/run/response/HttpResponseErrorConsumer.java:46-50 | only the matched outbound changes; which handler's outbound is recorded is stated by ResponseStages.FirstMatchRecorded |
| ResponseStages.FirstMatchRecorded | eric-esoa-rest-service-jar/src/main/java/com/ericsson/bos/dr/rest/service/run/response/HttpResponseErrorConsumer.java:46-61 | when a handler's condition holds and every earlier one renders false, the stage records that handler's outbound (possibly null) and changes nothing else |
| ResponseStages.NoMatchLeavesStateUnchanged | eric-esoa-rest-service-jar/src/main/java/com/ericsson/bos/dr/rest/service/run/response/HttpResponseErrorConsumer.java:48-49 | when every condition is false nothing is recorded |
| ResponseStages.HandlerWithoutOutboundIsNoMatch | eric-esoa-rest-service-jar/src/main/java/com/ericsson/bos/dr/rest/service/run/response/HttpResponseErrorConsumer.java:49 | a matching handler without an outbound records null, so later stages use the method's outbound |
| ResponseStages.FailingConditionFailsStage | eric-esoa-rest-service-jar/src/main/java/com/ericsson/bos/dr/rest/service/run/response/HttpResponseErrorConsumer.java:55 | a condition that fails to render before any match fails the stage |
| ResponseStages.ApplyError | eric-esoa-rest-service-jar/src/main/java/com/ericsson/bos/dr/rest/service/run/response/HttpResponseErrorConsumer.java:46-61 | the context ends as ErrorStage gives for local then global handlers, and the method's handler list gets the globals appended as getErrorHandlers does |
| ResponseStages.JsonBodyStage | eric-esoa-rest-service-jar/src/main/java/com/ericsson/bos/dr/rest/service/run/response/HttpJsonResponseBodyConsumer.java:44-58 | only the transformed body changes; without an out-template in the effective outbound nothing changes; with one the stage succeeds iff the context builds and the template renders, and the body becomes that rendering |
| ResponseStages.ErrorOutboundTemplateWins | eric-esoa-rest-service-jar/src/main/java/com/ericsson/bos/dr/rest/service/run/response/HttpJsonResponseBodyConsumer.java:49-56 | the matched error handler's out-template is rendered instead of the method's |
| ResponseStages.ApplyJsonBody | eric-esoa-rest-service-jar/src/main/java/com/ericsson/bos/dr/rest/service/run/response/HttpJsonResponseBodyConsumer.java:44-58 | the response ends as JsonBodyStage gives, or unchanged with the stage's error |
| ResponseStages.Present | eric-esoa-rest-service-jar/src/main/java/com/ericsson/bos/dr/rest/service/run/response/HttpResponseHeadersConsumer.java:52 | exactly the header entries whose value list is not null are kept |
| ResponseStages.PresentNames | eric-esoa-rest-service-jar/src/main/java/com/ericsson/bos/dr/rest/service/run/response/HttpResponseHeadersConsumer.java:52-53 | the names kept are the names with a non-null list |
| ResponseStages.ConfigHeadersLookup | eric-esoa-rest-service-jar/src/main/java/com/ericsson/bos/dr/rest/service/run/response/HttpResponseHeadersConsumer.java:50-58 | a configured header is looked up ignoring case, the outbound's entry winning over the global one |
| ResponseStages.ConfigHeadersKeys | eric-esoa-rest-service-jar/src/main/java/com/ericsson/bos/dr/rest/service/run/response/HttpResponseHeadersConsumer.java:50-58 | the configured names are the global and outbound names with a non-null list |
| ResponseStages.HeadersStage | eric-esoa-rest-service-jar/src/main/java/com/ericsson/bos/dr/rest/service/run/response/HttpResponseHeadersConsumer.java:47-66 | only the headers change; with nothing configured the headers are untouched, otherwise they become a map with exactly the configured names |
| ResponseStages.RenderedResponseHeaders | eric-esoa-rest-service-jar/src/main/java/com/ericsson/bos/dr/rest/service/run/response/HttpResponseHeadersConsumer.java:61-78 | each configured header is set to its configured values rendered one by one, in order; one value that does not render fails the stage with SUBSTITUTION_FAILED |
| ResponseStages.ConfiguredHeadersReplaceOriginal | eric-esoa-rest-service-jar/src/main/java/com/ericsson/bos/dr/rest/service/run/response/HttpResponseHeadersConsumer.java:60-63 | once headers are configured, an original header that is not configured is no longer returned |
| ResponseStages.ApplyResponseHeaders | eric-esoa-rest-service-jar/src/main/java/com/ericsson/bos/dr/rest/service/run/response/HttpResponseHeadersConsumer.java:47-78 | the response ends as HeadersStage gives, or unchanged with the stage's error |
| ResponseStages.ParseStatus | eric-esoa-rest-service-jar/src/main/java/com/ericsson/bos/dr/rest/service/run/response/HttpResponseStatusConsumer.java:51 | text that is not an int is a number format error, an int that is no known status an illegal argument, and an int naming a known status (in any spelling Integer.parseInt accepts) is that status |
| ResponseStages.StatusReadBack | eric-esoa-rest-service-jar/src/main/java/com/ericsson/bos/dr/rest/service/run/response/HttpResponseStatusConsumer.java:51 | the decimal text of a known status reads back as that status, and that of any other int is refused |
| ResponseStages.StatusStage | eric-esoa-rest-service-jar/src/main/java/com/ericsson/bos/dr/rest/service/run/response/HttpResponseStatusConsumer.java:45-55 | only the status changes, to a known status or not at all; without a code template nothing changes |
| ResponseStages.StatusStageSets | eric-esoa-rest-service-jar/src/main/java/com/ericsson/bos/dr/rest/service/run/response/HttpResponseStatusConsumer.java:47-51 | a code template rendering to a known status sets that status |
| ResponseStages.EmptyCodeKeepsStatus | eric-esoa-rest-service-jar/src/main/java/com/ericsson/bos/dr/rest/service/run/response/HttpResponseStatusConsumer.java:50 | a code template rendering to the empty string keeps the status |
| ResponseStages.ApplyStatus | eric-esoa-rest-service-jar/src/main/java/com/ericsson/bos/dr/rest/service/run/response/HttpResponseStatusConsumer.java:45-55 | the response ends as StatusStage gives, or unchanged with the stage's error |
| ResponseStages.ResponsePipeline | eric-esoa-rest-service-jar/src/main/java/com/ericsson/bos/dr/rest/service/RunService.java:95-97 | the status after the stages is the one before or a known status |
| ResponseStages.RefusedContentTypeStopsStages | eric-esoa-rest-service-jar/src/main/java/com/ericsson/bos/dr/rest/service/run/response/HttpResponseContentTypeConsumer.java:31 | the content type stage runs first, so a refused content type stops every later stage with nothing changed |
| ResponseStages.ApplyResponseStages | eric-esoa-rest-service-jar/src/main/java/com/ericsson/bos/dr/rest/service/RunService.java:95-97 | running content type, error, body, headers and status stages in order ends as ResponsePipeline gives for local then global error handlers |
| RunContext.ElseMethodOutbound | eric-esoa-rest-service-jar/src/main/java/com/ericsson/bos/dr/rest/service/run/RunExecutionContext.java:76-79 | the matched error handler's outbound when there is one, else the method's own |
| RunContext.RunExecutionContext.constructor | eric-esoa-rest-service-jar/src/main/java/com/ericsson/bos/dr/rest/service/run/RunExecutionContext.java:43-49 | the context keeps the run request, method definition, system and token, with no matched outbound |
| RunContext.RunExecutionContext.SetMatchedErrorOutbound | eric-esoa-rest-service-jar/src/main/java/com/ericsson/bos/dr/rest/service/run/RunExecutionContext.java:67-69 | records the outbound, which may be null |
| RunContext.RunExecutionContext.MatchedErrorOutboundElseMethodOutbound | eric-esoa-rest-service-jar/src/main/java/com/ericsson/bos/dr/rest/service/run/RunExecutionContext.java:76-79 | the matched error handler's outbound when one was recorded, otherwise the method's own outbound |
| RunContext.LaterMatchReplacesEarlier | eric-esoa-rest-service-jar/src/main/java/com/ericsson/bos/dr/rest/service/run/RunExecutionContext.java:67-69 | setting the matched outbound twice keeps only the second, and a second null falls back to the method's outbound |
| RunContext.WithoutFramingHeaders | eric-esoa-rest-service-jar/src/main/java/com/ericsson/bos/dr/rest/service/run/response/HttpRunResponse.java:71-76 | the headers less Content-Length and Transfer-Encoding, every other header kept with its values |
| RunContext.HeadersElseOriginal | eric-esoa-rest-service-jar/src/main/java/com/ericsson/bos/dr/rest/service/run/response/HttpRunResponse.java:63-65 | the override when set, else the original headers less the framing ones |
| RunContext.BodyText | eric-esoa-rest-service-jar/src/main/java/com/ericsson/bos/dr/rest/service/run/response/HttpRunResponse.java:82-84 | the decoded body, or "" when there is none |
| RunContext.Output | eric-esoa-rest-service-jar/src/main/java/com/ericsson/bos/dr/rest/service/run/response/HttpRunResponse.java:98-102 | each override that is set, else the original status, the reduced original headers and the original bytes |
| RunContext.HttpRunResponse.constructor | eric-esoa-rest-service-jar/src/main/java/com/ericsson/bos/dr/rest/service/run/response/HttpRunResponse.java:41-44 | a new response keeps the original and the request, with nothing overridden |
| RunContext.HttpRunResponse.StatusCode | eric-esoa-rest-service-jar/src/main/java/com/ericsson/bos/dr/rest/service/run/response/HttpRunResponse.java:50-52 | the override when set, else the original status |
| RunContext.HttpRunResponse.SetStatusCode | eric-esoa-rest-service-jar/src/main/java/com/ericsson/bos/dr/rest/service/run/response/HttpRunResponse.java:54-56 | sets the status override and nothing else |
| RunContext.HttpRunResponse.OriginalHttpHeaders | eric-esoa-rest-service-jar/src/main/java/com/ericsson/bos/dr/rest/service/run/response/HttpRunResponse.java:71-76 | exactly the original headers other than Content-Length and Transfer-Encoding, each with its original values |
| RunContext.HttpRunResponse.HttpHeaders | eric-esoa-rest-service-jar/src/main/java/com/ericsson/bos/dr/rest/service/run/response/HttpRunResponse.java:63-65 | the headers set by a stage when there are any, otherwise the original headers less the framing ones |
| RunContext.HttpRunResponse.SetHttpHeaders | eric-esoa-rest-service-jar/src/main/java/com/ericsson/bos/dr/rest/service/run/response/HttpRunResponse.java:78-80 | sets the header override and nothing else |
| RunContext.HttpRunResponse.OriginalBody | eric-esoa-rest-service-jar/src/main/java/com/ericsson/bos/dr/rest/service/run/response/HttpRunResponse.java:82-84 | the original body decoded as text, "" when the response had no body |
| RunContext.HttpRunResponse.SetTransformedBody | eric-esoa-rest-service-jar/src/main/java/com/ericsson/bos/dr/rest/service/run/response/HttpRunResponse.java:86-88 | sets the transformed body and nothing else |
| RunContext.HttpRunResponse.AsResponseEntity | eric-esoa-rest-service-jar/src/main/java/com/ericsson/bos/dr/rest/service/run/response/HttpRunResponse.java:98-102 | the effective status and headers, and the transformed body if set, else the original bytes |
| RunContext.Passthrough | eric-esoa-rest-service-jar/src/main/java/com/ericsson/bos/dr/rest/service/run/response/HttpRunResponse.java:71-102 | a response nobody overrode keeps the original status and bytes, and keeps every original header with its values except the two framing headers |
| RunContext.UntouchedResponsePassesThrough | eric-esoa-rest-service-jar/src/main/java/com/ericsson/bos/dr/rest/service/run/response/HttpRunResponse.java:98-102 | a response with no override returns the original status, reduced headers and original bytes |
| RunContext.OverridesHideOriginal | eric-esoa-rest-service-jar/src/main/java/com/ericsson/bos/dr/rest/service/run/response/HttpRunResponse.java:98-102 | overriding status, headers and body hides the original entirely |
| RunService.RunFrom | eric-esoa-rest-service-jar/src/main/java/com/ericsson/bos/dr/rest/service/RunService.java:89-99 | a failing request stage ends the run with its error before anything is sent; a failed exchange ends it with that error; otherwise the received response goes to Respond (untouched for ORIGINAL, else through the response stages) |
| RunService.Respond | eric-esoa-rest-service-jar/src/main/java/com/ericsson/bos/dr/rest/service/RunService.java:93-99 | ORIGINAL (in any case) returns the received response with only the framing headers dropped; otherwise a failing response stage ends the run with its error and a passing chain returns its overrides over the received response |
| RunService.FailedRequestNeverSent | eric-esoa-rest-service-jar/src/main/java/com/ericsson/bos/dr/rest/service/RunService.java:90-92 | a request whose stages fail is never sent: the transport plays no part in the result |
| RunService.StatusReceivedOrKnown | eric-esoa-rest-service-jar/src/main/java/com/ericsson/bos/dr/rest/service/RunService.java:92-99 | a run's status is the status received, or a known status a code template set |
| RunService.FirstAttemptDelivered | eric-esoa-rest-service-jar/src/main/java/com/ericsson/bos/dr/rest/service/RunService.java:92 | a response delivered at the first attempt is the one the run works on, whatever the retry handlers |
| RunService.Run | eric-esoa-rest-service-jar/src/main/java/com/ericsson/bos/dr/rest/service/RunService.java:75-100 | the method definition is resolved, the system looked up and authenticated in that order, each failure ending the run; the context holds what was resolved, and the rest is RunFrom with the method's headers, retry handlers and error handlers |
| RunService.Execute | eric-esoa-rest-service-jar/src/main/java/com/ericsson/bos/dr/rest/service/RunService.java:89-99 | request stages on a new request, the exchange with the handlers getRetryHandlers returns, then the response stages unless ORIGINAL, as RunFrom specifies |
| RunService.RespondTo | eric-esoa-rest-service-jar/src/main/java/com/ericsson/bos/dr/rest/service/RunService.java:93-99 | a new run response for the received response is rewritten by the response stages unless ORIGINAL was asked for, and its entity is what Respond gives |

## Left out

- Non-ASCII case folding: every comparison that ignores case folds ASCII letters only.
- The template engine (Jinjava), JSON parsing, jq token extraction, byte decoding and the connected-system HTTP lookup are parameters, not models. Their results are whatever the caller supplies.
- HTTP execution (WebClient, netty, connection pooling, the TLS handshake and building an SSL context from key material) is the `Transport` parameter. TLS contexts are opaque values.
- Token cache insertion: the annotation-driven cache is a lookup parameter, and filling it after a token is generated is not modelled. Its expiry rule is modelled in `Cache`.
- Concurrency: executors, scheduling, `synchronizedMap` and the atomics are modelled as sequential state. Delays are numbers, not timers.
- Error messages and logging: errors carry their code and the failure kind only, never the formatted message.
- Iteration order of `HashMap` and `HashSet`: validation results are sets, and the maps the substitution contexts build are Dafny maps.
- Auth.ToMultiValueMap: the form is a Dafny map from each field name to its values in order. The order of the field names themselves, which the linked map keeps and the form body is written in, is not kept.
- URL encoding of the request URL, and URI building in general: the URL stage records the rendered text and the encode flag only.
- Controllers, the controller advice, the application class and Spring wiring. Runtime exceptions are kept as an unexpected-failure kind rather than mapped to a general error.
- The CRUD operations of the resource configuration service, the JPA entities and repository, the mappers, and YAML and JSON-schema upload.
- The `groovy`, current-time and jq template functions. `replaceAtSymbol` is the only template function modelled.
- Null fields of the configuration objects are `Option` values where the code reads them, and are otherwise assumed present.
- Header spelling: response header maps are keyed by lower-cased name, as the case-insensitive `HttpHeaders` compares them. The caller's original spelling is not kept.
- ResponseStages.HeadersStage: removing null entries from the stored global and outbound header maps is a filter on values. The mutation of the configuration objects in place is not modelled, and no later stage reads them.
- RequestStages.ApplyHeaders: when a rendering fails part way through the header loop, the code has already rendered the earlier entries of the stored global header map in place. The model leaves that map unrendered on failure. The run ends with that failure, so nothing observes the difference.
- Http.ParseSubtype: Spring's token and parameter validity checks on a media type are reduced to a non-empty type and subtype around the first '/', no second '/', and a wildcard type only with a wildcard subtype.
- The `Optional` wrapper around `request.body` in the response substitution context: the body is present or absent in the model.
- A null auth key puts a null key in the substitution map in the code. The model makes no entry for it.
- Retry.RetrySubstitutionCtx: the failure always carries headers and a body text, so the code's fallbacks for null headers and a null body text are not modelled.
- Strings.ParseDecimal: only ASCII digits are accepted, where `Long.parseLong` and `Integer.parseInt` also accept other Unicode decimal digits.
- Auth.ExtractCookieFromResponse is modelled, but no handler in the code calls it, so no run reaches it.
