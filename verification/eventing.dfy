/**
 * Translation of eventing function definitions between the client's objects
 * and the records the native binding takes
 * (node_modules/couchbase/dist/eventingfunctionmanager.js): the URL-binding
 * auth codec with its error branches, settings defaulting, and the
 * structure-preserving translation of keyspaces and bindings.
 */
module EventingFunctions {
  import opened Js

  // ---------------------------------------------------------------------
  // Keyspaces and bucket bindings
  // ---------------------------------------------------------------------

  /** `EventingFunctionKeyspace`; the native record has the same three properties. */
  datatype EventingFunctionKeyspace = EventingFunctionKeyspace(bucket: JsValue, scope: JsValue, collection: JsValue)

  /** `EventingFunctionBucketBinding` */
  datatype BucketBinding = BucketBinding(alias: JsValue, name: EventingFunctionKeyspace, access: JsValue)

  /** The native bucket binding `{alias, name: {bucket, scope, collection}, access}`. */
  datatype CppBucketBinding = CppBucketBinding(alias: JsValue, name: EventingFunctionKeyspace, access: JsValue)

  /** `EventingFunctionBucketBinding._toCppData` */
  function BucketBindingToCpp(b: BucketBinding, cv: Bindings): (c: CppBucketBinding)
    ensures c.alias == b.alias && c.name == b.name
    ensures c.access == cv(EventingBucketBindingAccessToCpp, b.access)
  {
    CppBucketBinding(
      b.alias,
      EventingFunctionKeyspace(b.name.bucket, b.name.scope, b.name.collection),
      cv(EventingBucketBindingAccessToCpp, b.access))
  }

  /** `EventingFunctionBucketBinding._fromCppData` */
  function BucketBindingFromCpp(c: CppBucketBinding, cv: Bindings): (b: BucketBinding)
    ensures b.alias == c.alias && b.name == c.name
    ensures b.access == cv(EventingBucketBindingAccessFromCpp, c.access)
  {
    BucketBinding(
      c.alias,
      EventingFunctionKeyspace(c.name.bucket, c.name.scope, c.name.collection),
      cv(EventingBucketBindingAccessFromCpp, c.access))
  }

  /** True when the opaque access converters undo each other. */
  ghost predicate AccessConvertersInverse(cv: Bindings)
  {
    forall a :: cv(EventingBucketBindingAccessFromCpp, cv(EventingBucketBindingAccessToCpp, a)) == a
  }

  /** A bucket binding keeps its alias and keyspace through the round trip,
      and comes back unchanged whenever the access converters undo each other. */
  lemma BucketBindingRoundTrip(b: BucketBinding, cv: Bindings)
    ensures BucketBindingFromCpp(BucketBindingToCpp(b, cv), cv).alias == b.alias
    ensures BucketBindingFromCpp(BucketBindingToCpp(b, cv), cv).name == b.name
    ensures AccessConvertersInverse(cv) ==> BucketBindingFromCpp(BucketBindingToCpp(b, cv), cv) == b
  {
  }

  // ---------------------------------------------------------------------
  // Constant bindings
  // ---------------------------------------------------------------------

  /** `EventingFunctionConstantBinding`, and the native record of the same shape. */
  datatype ConstantBinding = ConstantBinding(alias: JsValue, literal: JsValue)

  /** `EventingFunctionConstantBinding._toCppData`: copies both properties. */
  function ConstantBindingToCpp(b: ConstantBinding): (c: ConstantBinding)
    ensures c.alias == b.alias && c.literal == b.literal
  {
    ConstantBinding(b.alias, b.literal)
  }

  /** `EventingFunctionConstantBinding._fromCppData`: copies both properties. */
  function ConstantBindingFromCpp(c: ConstantBinding): (b: ConstantBinding)
    ensures b.alias == c.alias && b.literal == c.literal
  {
    ConstantBinding(c.alias, c.literal)
  }

  // ---------------------------------------------------------------------
  // URL bindings and their auth
  // ---------------------------------------------------------------------

  /** The values of `EventingFunctionUrlAuthMethod`. */
  const MethodNone: JsValue := Str("no-auth")
  const MethodBasic: JsValue := Str("basic")
  const MethodDigest: JsValue := Str("digest")
  const MethodBearer: JsValue := Str("bearer")

  /** The native auth names. */
  const NoAuthName: string := "function_url_no_auth"
  const BasicAuthName: string := "function_url_auth_basic"
  const DigestAuthName: string := "function_url_auth_digest"
  const BearerAuthName: string := "function_url_auth_bearer"

  /** An auth object: `method` and whichever credentials it carries (a
      property the object lacks reads as `undefined`). */
  datatype UrlAuth = UrlAuth(authMethod: JsValue, username: JsValue, password: JsValue, key: JsValue)

  /** `EventingFunctionUrlAuthBasic`: the method is Basic whatever `v` says. */
  function UrlAuthBasic(v: JsObject): (a: UrlAuth)
    ensures a.authMethod == MethodBasic && a.key == Undefined
    ensures a.username == Get(v, "username") && a.password == Get(v, "password")
  {
    UrlAuth(MethodBasic, Get(v, "username"), Get(v, "password"), Undefined)
  }

  /** `EventingFunctionUrlAuthDigest`: the method is Digest whatever `v` says. */
  function UrlAuthDigest(v: JsObject): (a: UrlAuth)
    ensures a.authMethod == MethodDigest && a.key == Undefined
    ensures a.username == Get(v, "username") && a.password == Get(v, "password")
  {
    UrlAuth(MethodDigest, Get(v, "username"), Get(v, "password"), Undefined)
  }

  /** `EventingFunctionUrlAuthBearer`: the method is Bearer whatever `v` says. */
  function UrlAuthBearer(v: JsObject): (a: UrlAuth)
    ensures a.authMethod == MethodBearer && a.username == Undefined && a.password == Undefined
    ensures a.key == Get(v, "key")
  {
    UrlAuth(MethodBearer, Undefined, Undefined, Get(v, "key"))
  }

  /** `EventingFunctionUrlBinding`; `auth` is `None` when it is `undefined`
      or `null` (the falsy cases the codec tests for). */
  datatype UrlBinding = UrlBinding(
    hostname: JsValue,
    alias: JsValue,
    auth: Option<UrlAuth>,
    allowCookies: JsValue,
    validateSslCertificate: JsValue)

  /** The native URL binding. */
  datatype CppUrlBinding = CppUrlBinding(
    alias: JsValue,
    hostname: JsValue,
    allow_cookies: JsValue,
    validate_ssl_certificate: JsValue,
    auth_name: string,
    auth_value: JsObject)

  /** True when the encoder treats the binding as unauthenticated. */
  predicate NoAuth(auth: Option<UrlAuth>)
  {
    auth.None? || auth.value.authMethod == MethodNone
  }

  /** True when the encoder accepts the binding's auth. */
  predicate EncodableAuth(auth: Option<UrlAuth>)
  {
    NoAuth(auth) || auth.value.authMethod in {MethodBasic, MethodDigest, MethodBearer}
  }

  const UnrecognizedUrlBinding: string := "Unrecognized EventingFunctionUrlBinding"

  /** `EventingFunctionUrlBinding._toCppData` */
  function UrlBindingToCpp(b: UrlBinding): (r: Result<CppUrlBinding>)
    ensures r.Ok? <==> EncodableAuth(b.auth)
    ensures r.Err? ==> r.error == InvalidArgumentError(UnrecognizedUrlBinding)
    ensures r.Ok? ==> r.value.alias == b.alias && r.value.hostname == b.hostname
                      && r.value.allow_cookies == b.allowCookies
                      && r.value.validate_ssl_certificate == b.validateSslCertificate
    ensures r.Ok? && NoAuth(b.auth) ==> r.value.auth_name == NoAuthName && r.value.auth_value == map[]
    ensures r.Ok? && !NoAuth(b.auth) && b.auth.value.authMethod == MethodBasic ==>
              r.value.auth_name == BasicAuthName
              && r.value.auth_value == map["username" := b.auth.value.username, "password" := b.auth.value.password]
    ensures r.Ok? && !NoAuth(b.auth) && b.auth.value.authMethod == MethodDigest ==>
              r.value.auth_name == DigestAuthName
              && r.value.auth_value == map["username" := b.auth.value.username, "password" := b.auth.value.password]
    ensures r.Ok? && !NoAuth(b.auth) && b.auth.value.authMethod == MethodBearer ==>
              r.value.auth_name == BearerAuthName && r.value.auth_value == map["key" := b.auth.value.key]
  {
    var encoded: Result<(string, JsObject)> :=
      if NoAuth(b.auth) then Ok((NoAuthName, map[]))
      else if b.auth.value.authMethod == MethodBasic then
        Ok((BasicAuthName, map["username" := b.auth.value.username, "password" := b.auth.value.password]))
      else if b.auth.value.authMethod == MethodDigest then
        Ok((DigestAuthName, map["username" := b.auth.value.username, "password" := b.auth.value.password]))
      else if b.auth.value.authMethod == MethodBearer then
        Ok((BearerAuthName, map["key" := b.auth.value.key]))
      else Err(InvalidArgumentError(UnrecognizedUrlBinding));
    match encoded
    case Err(e) => Err(e)
    case Ok((authName, authValue)) =>
      Ok(CppUrlBinding(b.alias, b.hostname, b.allowCookies, b.validateSslCertificate, authName, authValue))
  }

  /** The native auth names the decoder recognises. */
  const KnownAuthNames: set<string> := {NoAuthName, BasicAuthName, DigestAuthName, BearerAuthName}

  /** `EventingFunctionUrlBinding._fromCppData` */
  function UrlBindingFromCpp(c: CppUrlBinding): (r: Result<UrlBinding>)
    ensures r.Ok? <==> c.auth_name in KnownAuthNames
    ensures r.Err? ==> r.error == InvalidArgumentError(UnrecognizedUrlBinding + ": " + c.auth_name)
    ensures r.Ok? ==> r.value.alias == c.alias && r.value.hostname == c.hostname
                      && r.value.allowCookies == c.allow_cookies
                      && r.value.validateSslCertificate == c.validate_ssl_certificate
    ensures r.Ok? ==> (r.value.auth.None? <==> c.auth_name == NoAuthName)
    ensures c.auth_name == BasicAuthName ==> r.Ok? && r.value.auth == Some(UrlAuthBasic(c.auth_value))
    ensures c.auth_name == DigestAuthName ==> r.Ok? && r.value.auth == Some(UrlAuthDigest(c.auth_value))
    ensures c.auth_name == BearerAuthName ==> r.Ok? && r.value.auth == Some(UrlAuthBearer(c.auth_value))
  {
    var auth: Result<Option<UrlAuth>> :=
      if c.auth_name == NoAuthName then Ok(None)
      else if c.auth_name == BasicAuthName then Ok(Some(UrlAuthBasic(c.auth_value)))
      else if c.auth_name == DigestAuthName then Ok(Some(UrlAuthDigest(c.auth_value)))
      else if c.auth_name == BearerAuthName then Ok(Some(UrlAuthBearer(c.auth_value)))
      else Err(InvalidArgumentError(UnrecognizedUrlBinding + ": " + c.auth_name));
    match auth
    case Err(e) => Err(e)
    case Ok(a) => Ok(UrlBinding(c.hostname, c.alias, a, c.allow_cookies, c.validate_ssl_certificate))
  }

  /** The auth a binding has after a round trip through the native form: an
      unauthenticated one comes back as `undefined`, the others as a fresh
      auth object of their method holding only that method's credentials. */
  function RoundTripAuth(auth: Option<UrlAuth>): Option<UrlAuth>
    requires EncodableAuth(auth)
  {
    if NoAuth(auth) then None
    else if auth.value.authMethod == MethodBearer then Some(UrlAuth(MethodBearer, Undefined, Undefined, auth.value.key))
    else Some(UrlAuth(auth.value.authMethod, auth.value.username, auth.value.password, Undefined))
  }

  /** Decoding an encoded binding gives back hostname, alias, both flags and
      the auth method with its credentials; `None` comes back as no auth. */
  lemma UrlBindingRoundTrip(b: UrlBinding)
    requires EncodableAuth(b.auth)
    ensures UrlBindingToCpp(b).Ok?
    ensures UrlBindingFromCpp(UrlBindingToCpp(b).value) == Ok(b.(auth := RoundTripAuth(b.auth)))
  {
    var c := UrlBindingToCpp(b).value;
    if !NoAuth(b.auth) {
      var a := b.auth.value;
      if a.authMethod == MethodBasic {
        assert c.auth_name == BasicAuthName;
        assert UrlAuthBasic(c.auth_value) == UrlAuth(MethodBasic, a.username, a.password, Undefined);
      } else if a.authMethod == MethodDigest {
        assert c.auth_name == DigestAuthName;
        assert UrlAuthDigest(c.auth_value) == UrlAuth(MethodDigest, a.username, a.password, Undefined);
      } else {
        assert c.auth_name == BearerAuthName;
        assert UrlAuthBearer(c.auth_value) == UrlAuth(MethodBearer, Undefined, Undefined, a.key);
      }
    }
  }

  /** Auth objects built by the three auth classes survive the round trip exactly. */
  lemma AuthClassRoundTrip(b: UrlBinding, v: JsObject)
    requires b.auth in {Some(UrlAuthBasic(v)), Some(UrlAuthDigest(v)), Some(UrlAuthBearer(v))}
    ensures UrlBindingToCpp(b).Ok?
    ensures UrlBindingFromCpp(UrlBindingToCpp(b).value) == Ok(b)
  {
    UrlBindingRoundTrip(b);
  }

  /** The part of a native auth value the decoder reads, as the encoder writes it back. */
  function RelevantAuthValue(c: CppUrlBinding): JsObject
  {
    if c.auth_name == BasicAuthName || c.auth_name == DigestAuthName then
      map["username" := Get(c.auth_value, "username"), "password" := Get(c.auth_value, "password")]
    else if c.auth_name == BearerAuthName then map["key" := Get(c.auth_value, "key")]
    else map[]
  }

  /** The other direction: encoding a decoded native binding reproduces it,
      up to auth-value properties the decoder does not read. */
  lemma CppUrlBindingRoundTrip(c: CppUrlBinding)
    requires c.auth_name in KnownAuthNames
    ensures UrlBindingFromCpp(c).Ok?
    ensures UrlBindingToCpp(UrlBindingFromCpp(c).value) == Ok(c.(auth_value := RelevantAuthValue(c)))
  {
    var b := UrlBindingFromCpp(c).value;
    if c.auth_name == BasicAuthName {
      assert b.auth == Some(UrlAuthBasic(c.auth_value));
    } else if c.auth_name == DigestAuthName {
      assert b.auth == Some(UrlAuthDigest(c.auth_value));
    } else if c.auth_name == BearerAuthName {
      assert b.auth == Some(UrlAuthBearer(c.auth_value));
    }
  }

  // ---------------------------------------------------------------------
  // Settings
  // ---------------------------------------------------------------------

  /** `EventingFunctionSettings`: 29 settings, each as given by the caller. */
  datatype EventingFunctionSettings = EventingFunctionSettings(
    cppWorkerThreadCount: JsValue, dcpStreamBoundary: JsValue, description: JsValue,
    deploymentStatus: JsValue, processingStatus: JsValue, languageCompatibility: JsValue,
    logLevel: JsValue, executionTimeout: JsValue, lcbInstCapacity: JsValue,
    lcbRetryCount: JsValue, lcbTimeout: JsValue, queryConsistency: JsValue,
    numTimerPartitions: JsValue, sockBatchSize: JsValue, tickDuration: JsValue,
    timerContextSize: JsValue, userPrefix: JsValue, bucketCacheSize: JsValue,
    bucketCacheAge: JsValue, curlMaxAllowedRespSize: JsValue, queryPrepareAll: JsValue,
    workerCount: JsValue, handlerHeaders: JsValue, handlerFooters: JsValue,
    enableAppLogRotation: JsValue, appLogDir: JsValue, appLogMaxSize: JsValue,
    appLogMaxFiles: JsValue, checkpointInterval: JsValue)

  /** The native settings record.  A property the record lacks is read as
      `undefined`, so it is held here as `Undefined`. */
  datatype CppSettings = CppSettings(
    cpp_worker_count: JsValue, dcp_stream_boundary: JsValue, description: JsValue,
    deployment_status: JsValue, processing_status: JsValue, log_level: JsValue,
    language_compatibility: JsValue, execution_timeout: JsValue, lcb_inst_capacity: JsValue,
    lcb_retry_count: JsValue, lcb_timeout: JsValue, query_consistency: JsValue,
    num_timer_partitions: JsValue, sock_batch_size: JsValue, tick_duration: JsValue,
    timer_context_size: JsValue, user_prefix: JsValue, bucket_cache_size: JsValue,
    bucket_cache_age: JsValue, curl_max_allowed_resp_size: JsValue, query_prepare_all: JsValue,
    worker_count: JsValue, handler_headers: JsValue, handler_footers: JsValue,
    enable_app_log_rotation: JsValue, app_log_dir: JsValue, app_log_max_size: JsValue,
    app_log_max_files: JsValue, checkpoint_interval: JsValue)

  /** True when the opaque enumeration converters for settings undo each
      other in the client-to-native-to-client direction. */
  ghost predicate SettingsConvertersInverse(cv: Bindings)
  {
    && (forall a :: cv(EventingFunctionDcpBoundaryFromCpp, cv(EventingFunctionDcpBoundaryToCpp, a)) == a)
    && (forall a :: cv(EventingFunctionDeploymentStatusFromCpp, cv(EventingFunctionDeploymentStatusToCpp, a)) == a)
    && (forall a :: cv(EventingFunctionProcessingStatusFromCpp, cv(EventingFunctionProcessingStatusToCpp, a)) == a)
    && (forall a :: cv(EventingFunctionLogLevelFromCpp, cv(EventingFunctionLogLevelToCpp, a)) == a)
    && (forall a :: cv(EventingFunctionLanguageCompatibilityFromCpp, cv(EventingFunctionLanguageCompatibilityToCpp, a)) == a)
    && (forall a :: cv(QueryScanConsistencyFromCpp, cv(QueryScanConsistencyToCpp, a)) == a)
  }

  /** The same, in the native-to-client-to-native direction. */
  ghost predicate CppSettingsConvertersInverse(cv: Bindings)
  {
    && (forall a :: cv(EventingFunctionDcpBoundaryToCpp, cv(EventingFunctionDcpBoundaryFromCpp, a)) == a)
    && (forall a :: cv(EventingFunctionDeploymentStatusToCpp, cv(EventingFunctionDeploymentStatusFromCpp, a)) == a)
    && (forall a :: cv(EventingFunctionProcessingStatusToCpp, cv(EventingFunctionProcessingStatusFromCpp, a)) == a)
    && (forall a :: cv(EventingFunctionLogLevelToCpp, cv(EventingFunctionLogLevelFromCpp, a)) == a)
    && (forall a :: cv(EventingFunctionLanguageCompatibilityToCpp, cv(EventingFunctionLanguageCompatibilityFromCpp, a)) == a)
    && (forall a :: cv(QueryScanConsistencyToCpp, cv(QueryScanConsistencyFromCpp, a)) == a)
  }

  /** The record `{handler_headers: [], handler_footers: []}`: every other
      property is missing. */
  const AbsentSettingsCpp: CppSettings :=
    CppSettings(Undefined, Undefined, Undefined, Undefined, Undefined, Undefined, Undefined,
                Undefined, Undefined, Undefined, Undefined, Undefined, Undefined, Undefined,
                Undefined, Undefined, Undefined, Undefined, Undefined, Undefined, Undefined,
                Undefined, EmptyArray, EmptyArray, Undefined, Undefined, Undefined, Undefined, Undefined)

  /** `EventingFunctionSettings._toCppData`.  Absent settings become a record
      holding only two empty handler lists; otherwise every setting is copied
      under its native name, enumerations through their converters, and a
      nullish handler list becomes an empty list. */
  function SettingsToCpp(data: Option<EventingFunctionSettings>, cv: Bindings): (r: CppSettings)
    ensures r.handler_headers == if data.None? then EmptyArray else Coalesce(data.value.handlerHeaders, EmptyArray)
    ensures r.handler_footers == if data.None? then EmptyArray else Coalesce(data.value.handlerFooters, EmptyArray)
    ensures !Nullish(r.handler_headers) && !Nullish(r.handler_footers)
    ensures data.None? ==> r == AbsentSettingsCpp
    // plain settings are copied under their native names
    ensures data.Some? ==>
              var s := data.value;
              && r.cpp_worker_count == s.cppWorkerThreadCount && r.description == s.description
              && r.execution_timeout == s.executionTimeout && r.lcb_inst_capacity == s.lcbInstCapacity
              && r.lcb_retry_count == s.lcbRetryCount && r.lcb_timeout == s.lcbTimeout
              && r.num_timer_partitions == s.numTimerPartitions && r.sock_batch_size == s.sockBatchSize
              && r.tick_duration == s.tickDuration && r.timer_context_size == s.timerContextSize
              && r.user_prefix == s.userPrefix && r.bucket_cache_size == s.bucketCacheSize
              && r.bucket_cache_age == s.bucketCacheAge
              && r.curl_max_allowed_resp_size == s.curlMaxAllowedRespSize
              && r.query_prepare_all == s.queryPrepareAll && r.worker_count == s.workerCount
              && r.enable_app_log_rotation == s.enableAppLogRotation && r.app_log_dir == s.appLogDir
              && r.app_log_max_size == s.appLogMaxSize && r.app_log_max_files == s.appLogMaxFiles
              && r.checkpoint_interval == s.checkpointInterval
    // the six enumerations go through their converters
    ensures data.Some? ==>
              var s := data.value;
              && r.dcp_stream_boundary == cv(EventingFunctionDcpBoundaryToCpp, s.dcpStreamBoundary)
              && r.deployment_status == cv(EventingFunctionDeploymentStatusToCpp, s.deploymentStatus)
              && r.processing_status == cv(EventingFunctionProcessingStatusToCpp, s.processingStatus)
              && r.log_level == cv(EventingFunctionLogLevelToCpp, s.logLevel)
              && r.language_compatibility == cv(EventingFunctionLanguageCompatibilityToCpp, s.languageCompatibility)
              && r.query_consistency == cv(QueryScanConsistencyToCpp, s.queryConsistency)
  {
    match data
    case None => AbsentSettingsCpp
    case Some(s) =>
      CppSettings(
        s.cppWorkerThreadCount,
        cv(EventingFunctionDcpBoundaryToCpp, s.dcpStreamBoundary),
        s.description,
        cv(EventingFunctionDeploymentStatusToCpp, s.deploymentStatus),
        cv(EventingFunctionProcessingStatusToCpp, s.processingStatus),
        cv(EventingFunctionLogLevelToCpp, s.logLevel),
        cv(EventingFunctionLanguageCompatibilityToCpp, s.languageCompatibility),
        s.executionTimeout,
        s.lcbInstCapacity,
        s.lcbRetryCount,
        s.lcbTimeout,
        cv(QueryScanConsistencyToCpp, s.queryConsistency),
        s.numTimerPartitions,
        s.sockBatchSize,
        s.tickDuration,
        s.timerContextSize,
        s.userPrefix,
        s.bucketCacheSize,
        s.bucketCacheAge,
        s.curlMaxAllowedRespSize,
        s.queryPrepareAll,
        s.workerCount,
        Coalesce(s.handlerHeaders, EmptyArray),
        Coalesce(s.handlerFooters, EmptyArray),
        s.enableAppLogRotation,
        s.appLogDir,
        s.appLogMaxSize,
        s.appLogMaxFiles,
        s.checkpointInterval)
  }

  /** `EventingFunctionSettings._fromCppData`: every native setting copied
      back under its client name, enumerations through their converters. */
  function SettingsFromCpp(c: CppSettings, cv: Bindings): (r: EventingFunctionSettings)
    ensures r.handlerHeaders == c.handler_headers && r.handlerFooters == c.handler_footers
    // plain settings are copied back under their client names
    ensures && r.cppWorkerThreadCount == c.cpp_worker_count && r.description == c.description
            && r.executionTimeout == c.execution_timeout && r.lcbInstCapacity == c.lcb_inst_capacity
            && r.lcbRetryCount == c.lcb_retry_count && r.lcbTimeout == c.lcb_timeout
            && r.numTimerPartitions == c.num_timer_partitions && r.sockBatchSize == c.sock_batch_size
            && r.tickDuration == c.tick_duration && r.timerContextSize == c.timer_context_size
            && r.userPrefix == c.user_prefix && r.bucketCacheSize == c.bucket_cache_size
            && r.bucketCacheAge == c.bucket_cache_age
            && r.curlMaxAllowedRespSize == c.curl_max_allowed_resp_size
            && r.queryPrepareAll == c.query_prepare_all && r.workerCount == c.worker_count
            && r.enableAppLogRotation == c.enable_app_log_rotation && r.appLogDir == c.app_log_dir
            && r.appLogMaxSize == c.app_log_max_size && r.appLogMaxFiles == c.app_log_max_files
            && r.checkpointInterval == c.checkpoint_interval
    // the six enumerations go through their converters
    ensures && r.dcpStreamBoundary == cv(EventingFunctionDcpBoundaryFromCpp, c.dcp_stream_boundary)
            && r.deploymentStatus == cv(EventingFunctionDeploymentStatusFromCpp, c.deployment_status)
            && r.processingStatus == cv(EventingFunctionProcessingStatusFromCpp, c.processing_status)
            && r.logLevel == cv(EventingFunctionLogLevelFromCpp, c.log_level)
            && r.languageCompatibility == cv(EventingFunctionLanguageCompatibilityFromCpp, c.language_compatibility)
            && r.queryConsistency == cv(QueryScanConsistencyFromCpp, c.query_consistency)
  {
    EventingFunctionSettings(
      c.cpp_worker_count,
      cv(EventingFunctionDcpBoundaryFromCpp, c.dcp_stream_boundary),
      c.description,
      cv(EventingFunctionDeploymentStatusFromCpp, c.deployment_status),
      cv(EventingFunctionProcessingStatusFromCpp, c.processing_status),
      cv(EventingFunctionLanguageCompatibilityFromCpp, c.language_compatibility),
      cv(EventingFunctionLogLevelFromCpp, c.log_level),
      c.execution_timeout,
      c.lcb_inst_capacity,
      c.lcb_retry_count,
      c.lcb_timeout,
      cv(QueryScanConsistencyFromCpp, c.query_consistency),
      c.num_timer_partitions,
      c.sock_batch_size,
      c.tick_duration,
      c.timer_context_size,
      c.user_prefix,
      c.bucket_cache_size,
      c.bucket_cache_age,
      c.curl_max_allowed_resp_size,
      c.query_prepare_all,
      c.worker_count,
      c.handler_headers,
      c.handler_footers,
      c.enable_app_log_rotation,
      c.app_log_dir,
      c.app_log_max_size,
      c.app_log_max_files,
      c.checkpoint_interval)
  }

  /** Settings with nullish handler lists replaced by empty lists: what the
      encoder sends for them. */
  function NormalisedSettings(s: EventingFunctionSettings): EventingFunctionSettings
  {
    s.(handlerHeaders := Coalesce(s.handlerHeaders, EmptyArray),
       handlerFooters := Coalesce(s.handlerFooters, EmptyArray))
  }

  /** Settings survive a round trip through the native form, up to the
      defaulting of the handler lists, whenever the enumeration converters
      undo each other. */
  lemma SettingsRoundTrip(s: EventingFunctionSettings, cv: Bindings)
    requires SettingsConvertersInverse(cv)
    ensures SettingsFromCpp(SettingsToCpp(Some(s), cv), cv) == NormalisedSettings(s)
  {
  }

  /** Native settings survive a round trip through the client form, up to
      the defaulting of nullish handler lists. */
  lemma CppSettingsRoundTrip(c: CppSettings, cv: Bindings)
    requires CppSettingsConvertersInverse(cv)
    ensures SettingsToCpp(Some(SettingsFromCpp(c, cv)), cv) ==
              c.(handler_headers := Coalesce(c.handler_headers, EmptyArray),
                 handler_footers := Coalesce(c.handler_footers, EmptyArray))
  {
  }

  // ---------------------------------------------------------------------
  // Eventing functions
  // ---------------------------------------------------------------------

  /** `EventingFunction`; `settings` may be left out by the caller. */
  datatype EventingFunction = EventingFunction(
    name: JsValue,
    code: JsValue,
    version: JsValue,
    enforceSchema: JsValue,
    handlerUuid: JsValue,
    functionInstanceId: JsValue,
    metadataKeyspace: EventingFunctionKeyspace,
    sourceKeyspace: EventingFunctionKeyspace,
    bucketBindings: seq<BucketBinding>,
    urlBindings: seq<UrlBinding>,
    constantBindings: seq<ConstantBinding>,
    settings: Option<EventingFunctionSettings>)

  /** The native eventing function record. */
  datatype CppEventingFunction = CppEventingFunction(
    name: JsValue,
    code: JsValue,
    metadata_keyspace: EventingFunctionKeyspace,
    source_keyspace: EventingFunctionKeyspace,
    version: JsValue,
    enforce_schema: JsValue,
    handler_uuid: JsValue,
    function_instance_id: JsValue,
    bucket_bindings: seq<CppBucketBinding>,
    url_bindings: seq<CppUrlBinding>,
    constant_bindings: seq<ConstantBinding>,
    settings: CppSettings)

  /** `EventingFunction._toCppData`: fails only when a URL binding's auth is
      not recognised; otherwise keeps every scalar, both keyspaces, and the
      length and order of all three binding lists. */
  function EventingFunctionToCpp(f: EventingFunction, cv: Bindings): (r: Result<CppEventingFunction>)
    ensures r.Ok? <==> forall i :: 0 <= i < |f.urlBindings| ==> EncodableAuth(f.urlBindings[i].auth)
    ensures r.Err? ==> r.error == InvalidArgumentError(UnrecognizedUrlBinding)
    ensures r.Ok? ==> r.value.name == f.name && r.value.code == f.code
                      && r.value.metadata_keyspace == f.metadataKeyspace
                      && r.value.source_keyspace == f.sourceKeyspace
    ensures r.Ok? ==> |r.value.bucket_bindings| == |f.bucketBindings|
                      && forall i :: 0 <= i < |f.bucketBindings| ==>
                           r.value.bucket_bindings[i] == BucketBindingToCpp(f.bucketBindings[i], cv)
    ensures r.Ok? ==> |r.value.url_bindings| == |f.urlBindings|
                      && forall i :: 0 <= i < |f.urlBindings| ==>
                           UrlBindingToCpp(f.urlBindings[i]) == Ok(r.value.url_bindings[i])
    ensures r.Ok? ==> r.value.constant_bindings == f.constantBindings
    ensures r.Ok? ==> r.value.version == f.version && r.value.enforce_schema == f.enforceSchema
                      && r.value.handler_uuid == f.handlerUuid
                      && r.value.function_instance_id == f.functionInstanceId
    ensures r.Ok? ==> r.value.settings == SettingsToCpp(f.settings, cv)
  {
    var bucketBindings := seq(|f.bucketBindings|, i requires 0 <= i < |f.bucketBindings| =>
                              BucketBindingToCpp(f.bucketBindings[i], cv));
    match MapResult(UrlBindingToCpp, f.urlBindings)
    case Err(e) => Err(e)
    case Ok(urlBindings) =>
      var constantBindings := seq(|f.constantBindings|, i requires 0 <= i < |f.constantBindings| =>
                                  ConstantBindingToCpp(f.constantBindings[i]));
      Ok(CppEventingFunction(
        f.name, f.code,
        EventingFunctionKeyspace(f.metadataKeyspace.bucket, f.metadataKeyspace.scope, f.metadataKeyspace.collection),
        EventingFunctionKeyspace(f.sourceKeyspace.bucket, f.sourceKeyspace.scope, f.sourceKeyspace.collection),
        f.version, f.enforceSchema, f.handlerUuid, f.functionInstanceId,
        bucketBindings, urlBindings, constantBindings,
        SettingsToCpp(f.settings, cv)))
  }

  /** `EventingFunction._fromCppData`: fails only when a native URL binding
      has an unrecognised auth name, with the error of the first such
      binding; otherwise decodes every binding in order, copies every
      scalar and both keyspaces, and always carries settings. */
  function EventingFunctionFromCpp(c: CppEventingFunction, cv: Bindings): (r: Result<EventingFunction>)
    ensures r.Ok? <==> forall i :: 0 <= i < |c.url_bindings| ==> c.url_bindings[i].auth_name in KnownAuthNames
    ensures r.Ok? ==> r.value.name == c.name && r.value.code == c.code
                      && r.value.metadataKeyspace == c.metadata_keyspace
                      && r.value.sourceKeyspace == c.source_keyspace
    ensures r.Err? ==>
              exists i :: 0 <= i < |c.url_bindings| && c.url_bindings[i].auth_name !in KnownAuthNames
                          && (forall j :: 0 <= j < i ==> c.url_bindings[j].auth_name in KnownAuthNames)
                          && r.error == InvalidArgumentError(UnrecognizedUrlBinding + ": " + c.url_bindings[i].auth_name)
    ensures r.Ok? ==> r.value.version == c.version && r.value.enforceSchema == c.enforce_schema
                      && r.value.handlerUuid == c.handler_uuid
                      && r.value.functionInstanceId == c.function_instance_id
    ensures r.Ok? ==> |r.value.bucketBindings| == |c.bucket_bindings|
                      && forall i :: 0 <= i < |c.bucket_bindings| ==>
                           r.value.bucketBindings[i] == BucketBindingFromCpp(c.bucket_bindings[i], cv)
    ensures r.Ok? ==> |r.value.urlBindings| == |c.url_bindings|
                      && forall i :: 0 <= i < |c.url_bindings| ==>
                           UrlBindingFromCpp(c.url_bindings[i]) == Ok(r.value.urlBindings[i])
    ensures r.Ok? ==> r.value.constantBindings == c.constant_bindings
    ensures r.Ok? ==> r.value.settings == Some(SettingsFromCpp(c.settings, cv))
  {
    var bucketBindings := seq(|c.bucket_bindings|, i requires 0 <= i < |c.bucket_bindings| =>
                              BucketBindingFromCpp(c.bucket_bindings[i], cv));
    match MapResult(UrlBindingFromCpp, c.url_bindings)
    case Err(e) => Err(e)
    case Ok(urlBindings) =>
      var constantBindings := seq(|c.constant_bindings|, i requires 0 <= i < |c.constant_bindings| =>
                                  ConstantBindingFromCpp(c.constant_bindings[i]));
      Ok(EventingFunction(
        c.name, c.code, c.version, c.enforce_schema, c.handler_uuid, c.function_instance_id,
        EventingFunctionKeyspace(c.metadata_keyspace.bucket, c.metadata_keyspace.scope, c.metadata_keyspace.collection),
        EventingFunctionKeyspace(c.source_keyspace.bucket, c.source_keyspace.scope, c.source_keyspace.collection),
        bucketBindings, urlBindings, constantBindings,
        Some(SettingsFromCpp(c.settings, cv))))
  }

  /** The eventing function a round trip through the native form gives back:
      URL-binding auths as `RoundTripAuth` describes, absent settings as
      settings with empty handler lists and every other setting as the
      converters return it for `undefined`, present settings normalised. */
  function RoundTripFunction(f: EventingFunction, cv: Bindings): EventingFunction
    requires forall i :: 0 <= i < |f.urlBindings| ==> EncodableAuth(f.urlBindings[i].auth)
  {
    f.(urlBindings := seq(|f.urlBindings|, i requires 0 <= i < |f.urlBindings| =>
                            f.urlBindings[i].(auth := RoundTripAuth(f.urlBindings[i].auth))),
       settings := Some(if f.settings.Some? then NormalisedSettings(f.settings.value)
                        else SettingsFromCpp(SettingsToCpp(None, cv), cv)))
  }

  /** An eventing function whose URL bindings all encode survives the round
      trip: name, code and keyspaces always, and the whole function, as
      `RoundTripFunction` describes, whenever the opaque converters undo
      each other. */
  lemma EventingFunctionRoundTrip(f: EventingFunction, cv: Bindings)
    requires forall i :: 0 <= i < |f.urlBindings| ==> EncodableAuth(f.urlBindings[i].auth)
    ensures EventingFunctionToCpp(f, cv).Ok?
    ensures EventingFunctionFromCpp(EventingFunctionToCpp(f, cv).value, cv).Ok?
    ensures var g := EventingFunctionFromCpp(EventingFunctionToCpp(f, cv).value, cv).value;
            g.name == f.name && g.code == f.code
            && g.metadataKeyspace == f.metadataKeyspace && g.sourceKeyspace == f.sourceKeyspace
    ensures AccessConvertersInverse(cv) && SettingsConvertersInverse(cv) ==>
              EventingFunctionFromCpp(EventingFunctionToCpp(f, cv).value, cv) == Ok(RoundTripFunction(f, cv))
  {
    var c := EventingFunctionToCpp(f, cv).value;
    forall i | 0 <= i < |c.url_bindings|
      ensures c.url_bindings[i].auth_name in KnownAuthNames
      ensures UrlBindingFromCpp(c.url_bindings[i]) == Ok(f.urlBindings[i].(auth := RoundTripAuth(f.urlBindings[i].auth)))
    {
      UrlBindingRoundTrip(f.urlBindings[i]);
    }
    var g := EventingFunctionFromCpp(c, cv).value;
    if AccessConvertersInverse(cv) && SettingsConvertersInverse(cv) {
      var h := RoundTripFunction(f, cv);
      forall i | 0 <= i < |f.bucketBindings|
        ensures g.bucketBindings[i] == f.bucketBindings[i]
      {
        BucketBindingRoundTrip(f.bucketBindings[i], cv);
      }
      assert g.bucketBindings == f.bucketBindings;
      assert g.urlBindings == h.urlBindings;
      assert g.constantBindings == f.constantBindings;
      if f.settings.Some? {
        SettingsRoundTrip(f.settings.value, cv);
      }
      assert g.settings == h.settings;
    }
  }
}
