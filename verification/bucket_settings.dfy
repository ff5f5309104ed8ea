/**
 * Bucket settings (node_modules/couchbase/dist/bucketmanager.js): the
 * settings object with its deprecated aliases `maxTTL`, `ejectionMethod`
 * and `durabilityMinLevel`, and its translation to and from the native
 * bucket record, including the creation variant.
 */
module BucketManagement {
  import opened Js

  /** The fourteen settings a `BucketSettings` object holds. */
  datatype BucketSettingsValue = BucketSettingsValue(
    name: JsValue,
    flushEnabled: JsValue,
    ramQuotaMB: JsValue,
    numReplicas: JsValue,
    replicaIndexes: JsValue,
    bucketType: JsValue,
    storageBackend: JsValue,
    evictionPolicy: JsValue,
    maxExpiry: JsValue,
    compressionMode: JsValue,
    minimumDurabilityLevel: JsValue,
    historyRetentionCollectionDefault: JsValue,
    historyRetentionDuration: JsValue,
    historyRetentionBytes: JsValue)

  /** What the translation reads from its argument: the fourteen settings
      and the three deprecated aliases.  A plain object that lacks one of
      them reads it as `undefined`. */
  datatype BucketSettingsInput = BucketSettingsInput(
    fields: BucketSettingsValue,
    maxTTL: JsValue,
    durabilityMinLevel: JsValue,
    ejectionMethod: JsValue)

  /** `BucketSettings`, whose deprecated setters update fields in place. */
  class BucketSettings {
    var name: JsValue
    var flushEnabled: JsValue
    var ramQuotaMB: JsValue
    var numReplicas: JsValue
    var replicaIndexes: JsValue
    var bucketType: JsValue
    var storageBackend: JsValue
    var evictionPolicy: JsValue
    var maxExpiry: JsValue
    var compressionMode: JsValue
    var minimumDurabilityLevel: JsValue
    var historyRetentionCollectionDefault: JsValue
    var historyRetentionDuration: JsValue
    var historyRetentionBytes: JsValue

    function Value(): BucketSettingsValue
      reads this
    {
      BucketSettingsValue(name, flushEnabled, ramQuotaMB, numReplicas, replicaIndexes, bucketType,
                          storageBackend, evictionPolicy, maxExpiry, compressionMode, minimumDurabilityLevel,
                          historyRetentionCollectionDefault, historyRetentionDuration, historyRetentionBytes)
    }

    /** Copies the fourteen settings; the deprecated aliases in `data` are ignored. */
    constructor(data: BucketSettingsInput)
      ensures Value() == data.fields
    {
      var f := data.fields;
      name, flushEnabled, ramQuotaMB, numReplicas, replicaIndexes := f.name, f.flushEnabled, f.ramQuotaMB, f.numReplicas, f.replicaIndexes;
      bucketType, storageBackend, evictionPolicy, maxExpiry := f.bucketType, f.storageBackend, f.evictionPolicy, f.maxExpiry;
      compressionMode, minimumDurabilityLevel := f.compressionMode, f.minimumDurabilityLevel;
      historyRetentionCollectionDefault, historyRetentionDuration, historyRetentionBytes :=
        f.historyRetentionCollectionDefault, f.historyRetentionDuration, f.historyRetentionBytes;
    }

    /** The `maxTTL` getter: `maxExpiry`, or 0 when that is nullish. */
    function MaxTTL(): (r: JsValue)
      reads this
      ensures Nullish(maxExpiry) ==> r == Num(0)
      ensures !Nullish(maxExpiry) ==> r == maxExpiry
    {
      MaxTTLOf(Value())
    }

    /** The `maxTTL` setter: sets `maxExpiry` and nothing else. */
    method SetMaxTTL(val: JsValue)
      modifies this`maxExpiry
      ensures Value() == old(Value()).(maxExpiry := val)
      ensures MaxTTL() == if Nullish(val) then Num(0) else val
    {
      maxExpiry := val;
    }

    /** The `ejectionMethod` getter: the eviction policy. */
    function EjectionMethod(): (r: JsValue)
      reads this
      ensures r == Value().evictionPolicy
    {
      evictionPolicy
    }

    /** The `ejectionMethod` setter: sets `evictionPolicy` and nothing else. */
    method SetEjectionMethod(val: JsValue)
      modifies this`evictionPolicy
      ensures Value() == old(Value()).(evictionPolicy := val)
      ensures EjectionMethod() == val
    {
      evictionPolicy := val;
    }

    /** The `durabilityMinLevel` getter: the minimum durability level as the
        server's configuration string. */
    function DurabilityMinLevel(cv: Bindings): (r: JsValue)
      reads this
      ensures r == InstanceInput(Value(), cv).durabilityMinLevel
    {
      cv(DuraLevelToNsServerStr, minimumDurabilityLevel)
    }
  }

  /** The `maxTTL` getter's rule, on given settings; `MaxTTL` and the
      translation both read it from here. */
  function MaxTTLOf(v: BucketSettingsValue): (r: JsValue)
    ensures Nullish(v.maxExpiry) ==> r == Num(0)
    ensures !Nullish(v.maxExpiry) ==> r == v.maxExpiry
  {
    Coalesce(v.maxExpiry, Num(0))
  }

  /** A `BucketSettings` object as the translation sees it: its fields and
      the values of its three alias getters. */
  function InstanceInput(v: BucketSettingsValue, cv: Bindings): (r: BucketSettingsInput)
    ensures r.fields == v && r.maxTTL == MaxTTLOf(v) && r.ejectionMethod == v.evictionPolicy
    ensures r.durabilityMinLevel == cv(DuraLevelToNsServerStr, v.minimumDurabilityLevel)
  {
    BucketSettingsInput(v, MaxTTLOf(v), cv(DuraLevelToNsServerStr, v.minimumDurabilityLevel), v.evictionPolicy)
  }

  /** The properties of the native bucket record. */
  const CppBucketKeys: set<string> := {
    "name", "bucket_type", "ram_quota_mb", "max_expiry", "compression_mode",
    "minimum_durability_level", "num_replicas", "replica_indexes", "flush_enabled",
    "eviction_policy", "storage_backend", "history_retention_collection_default",
    "history_retention_bytes", "history_retention_duration"}

  /** `BucketSettings._toCppData`: plain settings are copied under their
      native names, enumerations go through their converters, the expiry is
      `maxTTL` when truthy and `maxExpiry` otherwise, and the durability
      level comes from the deprecated string when that converts to something
      truthy, else from `minimumDurabilityLevel`. */
  function BucketSettingsToCpp(data: BucketSettingsInput, cv: Bindings): (r: JsObject)
    ensures r.Keys == CppBucketKeys
    ensures r["max_expiry"] == if Truthy(data.maxTTL) then data.maxTTL else data.fields.maxExpiry
    ensures r["name"] == data.fields.name && r["ram_quota_mb"] == data.fields.ramQuotaMB
            && r["num_replicas"] == data.fields.numReplicas && r["replica_indexes"] == data.fields.replicaIndexes
            && r["flush_enabled"] == data.fields.flushEnabled
            && r["history_retention_collection_default"] == data.fields.historyRetentionCollectionDefault
            && r["history_retention_bytes"] == data.fields.historyRetentionBytes
            && r["history_retention_duration"] == data.fields.historyRetentionDuration
    ensures r["eviction_policy"] == cv(BucketEvictionPolicyToCpp, data.fields.evictionPolicy)
            && r["bucket_type"] == cv(BucketTypeToCpp, data.fields.bucketType)
            && r["compression_mode"] == cv(BucketCompressionModeToCpp, data.fields.compressionMode)
            && r["storage_backend"] == cv(BucketStorageBackendToCpp, data.fields.storageBackend)
    ensures r["minimum_durability_level"] ==
              Or(cv(DurabilityToCpp, cv(NsServerStrToDuraLevel, data.durabilityMinLevel)),
                 cv(DurabilityToCpp, data.fields.minimumDurabilityLevel))
  {
    var f := data.fields;
    map[
      "name" := f.name,
      "bucket_type" := cv(BucketTypeToCpp, f.bucketType),
      "ram_quota_mb" := f.ramQuotaMB,
      "max_expiry" := Or(data.maxTTL, f.maxExpiry),
      "compression_mode" := cv(BucketCompressionModeToCpp, f.compressionMode),
      "minimum_durability_level" := Or(cv(DurabilityToCpp, cv(NsServerStrToDuraLevel, data.durabilityMinLevel)),
                                       cv(DurabilityToCpp, f.minimumDurabilityLevel)),
      "num_replicas" := f.numReplicas,
      "replica_indexes" := f.replicaIndexes,
      "flush_enabled" := f.flushEnabled,
      "eviction_policy" := cv(BucketEvictionPolicyToCpp, f.evictionPolicy),
      "storage_backend" := cv(BucketStorageBackendToCpp, f.storageBackend),
      "history_retention_collection_default" := f.historyRetentionCollectionDefault,
      "history_retention_bytes" := f.historyRetentionBytes,
      "history_retention_duration" := f.historyRetentionDuration]
  }

  /** `CreateBucketSettings._toCppData`: the update record plus exactly one
      property, the converted conflict resolution type. */
  function CreateBucketSettingsToCpp(data: BucketSettingsInput, conflictResolutionType: JsValue, cv: Bindings)
    : (r: JsObject)
    ensures r.Keys == BucketSettingsToCpp(data, cv).Keys + {"conflict_resolution_type"}
    ensures "conflict_resolution_type" !in BucketSettingsToCpp(data, cv)
    ensures r - {"conflict_resolution_type"} == BucketSettingsToCpp(data, cv)
    ensures r["conflict_resolution_type"] == cv(BucketConflictResolutionTypeToCpp, conflictResolutionType)
  {
    var base := BucketSettingsToCpp(data, cv);
    var r := base["conflict_resolution_type" := cv(BucketConflictResolutionTypeToCpp, conflictResolutionType)];
    assert r - {"conflict_resolution_type"} == base;
    r
  }

  /** What `BucketSettings._fromCppData` constructs: every native property
      copied back, enumerations through their converters. */
  function BucketSettingsFromCppSpec(c: JsObject, cv: Bindings): (v: BucketSettingsValue)
    // plain settings are copied
    ensures v.name == Get(c, "name") && v.maxExpiry == Get(c, "max_expiry")
            && v.ramQuotaMB == Get(c, "ram_quota_mb") && v.numReplicas == Get(c, "num_replicas")
            && v.flushEnabled == Get(c, "flush_enabled") && v.replicaIndexes == Get(c, "replica_indexes")
            && v.historyRetentionCollectionDefault == Get(c, "history_retention_collection_default")
            && v.historyRetentionBytes == Get(c, "history_retention_bytes")
            && v.historyRetentionDuration == Get(c, "history_retention_duration")
    // enumerations go through their converters
    ensures v.bucketType == cv(BucketTypeFromCpp, Get(c, "bucket_type"))
            && v.storageBackend == cv(BucketStorageBackendFromCpp, Get(c, "storage_backend"))
            && v.evictionPolicy == cv(BucketEvictionPolicyFromCpp, Get(c, "eviction_policy"))
            && v.compressionMode == cv(BucketCompressionModeFromCpp, Get(c, "compression_mode"))
            && v.minimumDurabilityLevel == cv(DurabilityFromCpp, Get(c, "minimum_durability_level"))
  {
    BucketSettingsValue(
      Get(c, "name"),
      Get(c, "flush_enabled"),
      Get(c, "ram_quota_mb"),
      Get(c, "num_replicas"),
      Get(c, "replica_indexes"),
      cv(BucketTypeFromCpp, Get(c, "bucket_type")),
      cv(BucketStorageBackendFromCpp, Get(c, "storage_backend")),
      cv(BucketEvictionPolicyFromCpp, Get(c, "eviction_policy")),
      Get(c, "max_expiry"),
      cv(BucketCompressionModeFromCpp, Get(c, "compression_mode")),
      cv(DurabilityFromCpp, Get(c, "minimum_durability_level")),
      Get(c, "history_retention_collection_default"),
      Get(c, "history_retention_duration"),
      Get(c, "history_retention_bytes"))
  }

  /** `BucketSettings._fromCppData`: a new settings object; the deprecated
      aliases it passes (`maxTTL: 0` and two empty strings) are ignored by
      the constructor. */
  method BucketSettingsFromCpp(c: JsObject, cv: Bindings) returns (s: BucketSettings)
    ensures fresh(s)
    ensures s.Value() == BucketSettingsFromCppSpec(c, cv)
  {
    s := new BucketSettings(BucketSettingsInput(BucketSettingsFromCppSpec(c, cv), Num(0), Str(""), Str("")));
  }

  /** For a settings object the two expiry sources always agree: the native
      expiry is the object's `maxExpiry`, including when that is 0, null or
      undefined. */
  lemma InstanceMaxExpiry(v: BucketSettingsValue, cv: Bindings)
    ensures BucketSettingsToCpp(InstanceInput(v, cv), cv)["max_expiry"] == v.maxExpiry
  {
    if !Nullish(v.maxExpiry) && !Truthy(v.maxExpiry) {
      assert MaxTTLOf(v) == v.maxExpiry;
    }
  }

  /** True when the opaque converters of the bucket's enumerations undo
      each other, and the server string of a durability level converts back
      to that level. */
  ghost predicate BucketConvertersInverse(cv: Bindings)
  {
    && (forall a :: cv(BucketTypeFromCpp, cv(BucketTypeToCpp, a)) == a)
    && (forall a :: cv(BucketStorageBackendFromCpp, cv(BucketStorageBackendToCpp, a)) == a)
    && (forall a :: cv(BucketEvictionPolicyFromCpp, cv(BucketEvictionPolicyToCpp, a)) == a)
    && (forall a :: cv(BucketCompressionModeFromCpp, cv(BucketCompressionModeToCpp, a)) == a)
    && (forall a :: cv(DurabilityFromCpp, cv(DurabilityToCpp, a)) == a)
    && (forall a :: cv(NsServerStrToDuraLevel, cv(DuraLevelToNsServerStr, a)) == a)
  }

  /** A settings object survives the round trip through the native record
      whenever the converters undo each other. */
  lemma InstanceRoundTrip(v: BucketSettingsValue, cv: Bindings)
    requires BucketConvertersInverse(cv)
    ensures BucketSettingsFromCppSpec(BucketSettingsToCpp(InstanceInput(v, cv), cv), cv) == v
  {
    InstanceMaxExpiry(v, cv);
    var c := BucketSettingsToCpp(InstanceInput(v, cv), cv);
    assert c["minimum_durability_level"] == cv(DurabilityToCpp, v.minimumDurabilityLevel);
  }
}
