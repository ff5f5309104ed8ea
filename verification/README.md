# Couchbase Node.js client: request and record translation kernels

This project models the deterministic parts of the Couchbase Node.js client
(`node_modules/couchbase/dist`). These are the parts that build the records
the client hands to its native connection, or read back from it:

- **Configuration profiles** (`configProfile.js`). A registry mapping
  profile names to profiles, updated in place. The built-in WAN development
  profile overwrites ten timeouts and the DNS SRV timeout in the caller's
  connect options.
- **Eventing functions** (`eventingfunctionmanager.js`). Covers:
  - the URL-binding auth codec between `{method, username, password | key}`
    and `{auth_name, auth_value}`, including its two error branches;
  - the settings defaulting;
  - the translation of keyspaces and of bucket, URL and constant bindings.
- **Design documents** (`viewindexmanager.js`). Covers:
  - the constructors' defaulting;
  - the view-map translation, which keeps view names;
  - the overloaded-argument dispatch of the manager methods;
  - the `dev_` prefix rule, which forces the development namespace. In
    `upsertDesignDocument` it renames the caller's design document in place.
- **Bucket settings** (`bucketmanager.js`). Covers:
  - the deprecated aliases `maxTTL`, `ejectionMethod` and
    `durabilityMinLevel`;
  - the native bucket record;
  - the creation variant, which adds exactly one property.
- **Search and view requests** (`searchexecutor.js`, `viewexecutor.js`). The
  request records the executors send, with every default and every
  conditional property.

## How JavaScript is represented

Values the client passes through unchanged are `Js.JsValue`. This covers
`undefined`, `null`, booleans, integers, strings, arrays, plain objects and
functions.

- `Js.Truthy` models truthiness.
- `Js.Or` models `||` and `Js.Coalesce` models `??`.
- A property read on a plain object gives `undefined` when the property is
  missing.

Objects whose property set matters are `map<string, JsValue>`: the options
groups, the native bucket record, facets and raw parameters. Records whose
shape is fixed are datatypes, with the native property names kept as field
names. Where the source updates an object in place, the object is a class:

- `ConnectOptions` and `ConfigProfiles`;
- `DesignDocument`, whose name upsert rewrites;
- `BucketSettings`, whose deprecated setters write its fields.

The `bindingutilities` converters, `JSON.stringify` and the
`duraLevelToNsServerStr`/`nsServerStrToDuraLevel` helpers are not part of
this model. Every operation that calls them takes one uninterpreted function
`cv: Js.Bindings` naming the helper by a `Js.Conversion` tag. Results proved
without a hypothesis on `cv` hold for any helpers. Round trips through a
converter are stated under an explicit hypothesis that the two converters
undo each other, for example `EventingFunctions.AccessConvertersInverse` or
`BucketManagement.BucketConvertersInverse`.

The client's own calls, such as `this._cluster.conn.search(request, ...)`,
are represented by the request each operation builds. Each manager and
executor operation is modelled as a function or method that returns that
request. It is a method where the source assigns step by step or updates the
caller's object.

## Model

| member | source | states |
|---|---|---|
| ConfigProfile.WanDevelopmentApplied | node_modules/couchbase/dist/configProfile.js:18-36 | Each of the ten fixed timeouts ends at its value (20000 or 120000) whatever it was before. Every other timeout already present is kept. `dnsSrvTimeout` becomes 20000 and the other DNS settings are kept. No other option changes. |
| ConfigProfile.WanDevelopmentApply | node_modules/couchbase/dist/configProfile.js:18-36 | The in-place update leaves the caller's options equal to `WanDevelopmentApplied` of their old value. |
| ConfigProfile.WanDevelopmentIdempotent | node_modules/couchbase/dist/configProfile.js:18-36 | Applying the WAN profile twice gives the same options as applying it once. |
| ConfigProfile.ApplyProfileResult | node_modules/couchbase/dist/configProfile.js:57-62 | Succeeds exactly when the name is registered, and then applies that profile. Otherwise it fails with "<name> is not a registered profile.". |
| ConfigProfile.ApplyProfileAsWritten | node_modules/couchbase/dist/configProfile.js:57-61 | The guard as written agrees with `ApplyProfileResult` on registered names and on every unregistered name not inherited from `Object.prototype`. Those names still fail with the not-registered error. It differs on exactly the inherited names. Nine of them return with the options unchanged, and `__proto__`, `__defineGetter__` and `__defineSetter__` raise a TypeError. |
| ConfigProfile.InheritedNamePassesRegistryGuard | node_modules/couchbase/dist/configProfile.js:58-60 | With no profile named "toString", the code as written returns normally with the options unchanged. The intended behaviour is the "not a registered profile" error. |
| ConfigProfile.ConfigProfiles.constructor | node_modules/couchbase/dist/configProfile.js:45-48 | A new registry holds exactly the WAN development profile, under 'wanDevelopment'. |
| ConfigProfile.ConfigProfiles.ApplyProfile | node_modules/couchbase/dist/configProfile.js:57-62 | Follows the intended own-property guard (see Findings), not the `in` test as written. An unregistered name fails with the not-registered error and leaves the options unchanged. A registered one updates the options to the profile's result. |
| ConfigProfile.ConfigProfiles.RegisterProfile | node_modules/couchbase/dist/configProfile.js:71-73 | Sets or overwrites exactly one entry. Every other entry, and which other names are present, stays the same. |
| ConfigProfile.ConfigProfiles.UnregisterProfile | node_modules/couchbase/dist/configProfile.js:81-83 | Removes exactly the named entry. Afterwards the name is absent. Removing an absent name changes nothing. |
| ConfigProfile.UnregisterThenApply | node_modules/couchbase/dist/configProfile.js:57-83 | Under the intended own-property guard (see Findings), after unregistering a name, applying it fails with the not-registered error and leaves the options unchanged. |
| Js.StringifyAll | node_modules/couchbase/dist/searchexecutor.js:56-58 | One serialised entry per input element, in the same order. |
| Js.StringifyDefinedEntries | node_modules/couchbase/dist/searchexecutor.js:59-68 | Keeps exactly the keys whose value is not `undefined`, each serialised. |
| EventingFunctions.BucketBindingToCpp | node_modules/couchbase/dist/eventingfunctionmanager.js:248-258 | Alias and keyspace (bucket, scope, collection) are copied unchanged. Access goes through its converter. |
| EventingFunctions.BucketBindingFromCpp | node_modules/couchbase/dist/eventingfunctionmanager.js:234-244 | Alias and keyspace are copied unchanged. Access goes through its converter. |
| EventingFunctions.BucketBindingRoundTrip | node_modules/couchbase/dist/eventingfunctionmanager.js:234-258 | A round trip always keeps the alias and keyspace. It gives back the whole binding when the access converters undo each other. |
| EventingFunctions.ConstantBindingToCpp | node_modules/couchbase/dist/eventingfunctionmanager.js:426-431 | Alias and literal are copied unchanged, so the translation is the identity. |
| EventingFunctions.ConstantBindingFromCpp | node_modules/couchbase/dist/eventingfunctionmanager.js:417-422 | Alias and literal are copied unchanged, so the translation is the identity. |
| EventingFunctions.UrlAuthBasic | node_modules/couchbase/dist/eventingfunctionmanager.js:266-275 | The method is Basic whatever the input says. Username and password are taken from the input. |
| EventingFunctions.UrlAuthDigest | node_modules/couchbase/dist/eventingfunctionmanager.js:282-291 | The method is Digest whatever the input says. Username and password are taken from the input. |
| EventingFunctions.UrlAuthBearer | node_modules/couchbase/dist/eventingfunctionmanager.js:298-306 | The method is Bearer whatever the input says. Only the key is taken from the input. |
| EventingFunctions.UrlBindingToCpp | node_modules/couchbase/dist/eventingfunctionmanager.js:363-401 | No auth, or method None, encodes as `function_url_no_auth` with `{}`. Basic and Digest carry exactly username and password; Bearer carries exactly the key. Any other method fails with InvalidArgumentError. Hostname, alias and both flags are copied. |
| EventingFunctions.UrlBindingFromCpp | node_modules/couchbase/dist/eventingfunctionmanager.js:324-359 | Succeeds exactly for the four known auth names; any other fails with InvalidArgumentError naming it. No-auth decodes to `undefined` auth. Basic, digest and bearer decode to the auth object of that class built from the native auth value. Hostname, alias and both flags are copied. |
| EventingFunctions.UrlBindingRoundTrip | node_modules/couchbase/dist/eventingfunctionmanager.js:324-401 | Decoding an encoded binding keeps hostname, alias, both flags, and the method with its credentials. None comes back as no auth. |
| EventingFunctions.AuthClassRoundTrip | node_modules/couchbase/dist/eventingfunctionmanager.js:266-401 | A binding whose auth was built by one of the three auth classes comes back exactly. |
| EventingFunctions.CppUrlBindingRoundTrip | node_modules/couchbase/dist/eventingfunctionmanager.js:324-401 | Encoding a decoded native binding reproduces it, except for auth-value properties the decoder ignores. |
| Js.MapResult | node_modules/couchbase/dist/eventingfunctionmanager.js:622 | Mapping a codec that may throw over a list (here the URL bindings) succeeds exactly when every element succeeds. On success: one result per element, in order. On failure: the error of the first element that fails. |
| EventingFunctions.SettingsToCpp | node_modules/couchbase/dist/eventingfunctionmanager.js:511-550 | Absent settings give only two empty handler lists. Otherwise a nullish header or footer list becomes `[]`. Each of the 21 plain settings is copied under its native name. The DCP boundary, deployment status, processing status, log level, language compatibility and query consistency go through their converters. |
| EventingFunctions.SettingsFromCpp | node_modules/couchbase/dist/eventingfunctionmanager.js:475-507 | Handler lists and the 21 plain settings are copied back under their client names. The six enumeration settings go through their converters. |
| EventingFunctions.SettingsRoundTrip | node_modules/couchbase/dist/eventingfunctionmanager.js:475-550 | Settings come back unchanged, except that nullish handler lists come back as `[]` (when the enumeration converters undo each other). |
| EventingFunctions.CppSettingsRoundTrip | node_modules/couchbase/dist/eventingfunctionmanager.js:475-550 | Native settings come back unchanged, except that nullish handler lists come back as `[]` (when the converters undo each other). |
| EventingFunctions.EventingFunctionToCpp | node_modules/couchbase/dist/eventingfunctionmanager.js:603-626 | Fails exactly when some URL binding's auth is not recognised. Otherwise name, code, version, schema flag, handler UUID, instance id and both keyspaces are copied. Each binding list is translated element by element, in order. The settings are `SettingsToCpp` of the function's settings. |
| EventingFunctions.EventingFunctionFromCpp | node_modules/couchbase/dist/eventingfunctionmanager.js:576-599 | Fails exactly when some native URL binding has an unknown auth name, with the error naming the first such name. Otherwise every scalar and both keyspaces are copied. Each binding list is decoded element by element, in order. The settings are always present and equal `SettingsFromCpp` of the native settings. |
| EventingFunctions.EventingFunctionRoundTrip | node_modules/couchbase/dist/eventingfunctionmanager.js:576-626 | An encodable function always keeps its name, code and keyspaces through a round trip. When the converters undo each other it comes back whole, with URL auths and handler lists normalised. |
| ViewIndexManagement.NewDesignDocumentView | node_modules/couchbase/dist/viewindexmanager.js:16-29 | A string or function first argument is the map, and the second argument is the reduce. An object first argument supplies both. |
| ViewIndexManagement.ViewToCpp | node_modules/couchbase/dist/viewindexmanager.js:33-39 | The native view carries the given name, and map and reduce unchanged. |
| ViewIndexManagement.ViewFromCpp | node_modules/couchbase/dist/viewindexmanager.js:43-48 | Map and reduce are copied back unchanged. |
| ViewIndexManagement.ViewsToCpp | node_modules/couchbase/dist/viewindexmanager.js:101-112 | One native view per view, under the same key. Each one's `name` is its key, and its map and reduce are unchanged. |
| ViewIndexManagement.ViewsFromCpp | node_modules/couchbase/dist/viewindexmanager.js:116-127 | One view per native view, under the same key, with map and reduce unchanged. |
| ViewIndexManagement.ViewsRoundTrip | node_modules/couchbase/dist/viewindexmanager.js:101-127 | Views come back from their native form unchanged. |
| ViewIndexManagement.CppViewsRoundTrip | node_modules/couchbase/dist/viewindexmanager.js:101-127 | Native views whose names match their keys come back unchanged. |
| ViewIndexManagement.DesignDocumentFromArgs | node_modules/couchbase/dist/viewindexmanager.js:68-83 | The string form is (name, views). Missing views become `{}`. A falsy namespace becomes Production, so the namespace is always truthy. The positional form has no revision. |
| ViewIndexManagement.DesignDocument.constructor | node_modules/couchbase/dist/viewindexmanager.js:68-83 | The new design document holds the defaulted values. |
| ViewIndexManagement.DesignDocumentToCppSpec | node_modules/couchbase/dist/viewindexmanager.js:101-112 | Revision and name are copied. The namespace passed in is converted. The views are translated with their names. |
| ViewIndexManagement.DesignDocumentFromCppSpec | node_modules/couchbase/dist/viewindexmanager.js:116-127 | Name, revision and views are read back. The namespace is converted back, with Production when that is falsy. |
| ViewIndexManagement.DesignDocumentToCpp | node_modules/couchbase/dist/viewindexmanager.js:101-112 | The loop that fills the native views produces exactly `DesignDocumentToCppSpec`. |
| ViewIndexManagement.DesignDocumentFromCpp | node_modules/couchbase/dist/viewindexmanager.js:116-127 | The loop that rebuilds the views gives a new design document equal to `DesignDocumentFromCppSpec`. |
| ViewIndexManagement.DesignDocumentRoundTrip | node_modules/couchbase/dist/viewindexmanager.js:101-127 | Name, revision, the set of view names and every view's map and reduce survive the round trip. |
| ViewIndexManagement.Dispatch | node_modules/couchbase/dist/viewindexmanager.js:213-240 | An object argument is the options, with no namespace. A function argument is the callback. Anything else is the namespace, and options and callback shift right. Falsy options become `{}`. The timeout is the options' timeout when truthy, else the management timeout. |
| ViewIndexManagement.NormaliseDesignDocName | node_modules/couchbase/dist/viewindexmanager.js:242-246 | A `dev_` name loses its four-character prefix and forces Development, overriding any namespace passed. Otherwise the name is kept and a nullish namespace becomes Production. |
| ViewIndexManagement.DispatchArguments | node_modules/couchbase/dist/viewindexmanager.js:213-240 | The step-by-step dispatch gives exactly `Dispatch`. |
| ViewIndexManagement.DispatchedNamespace | node_modules/couchbase/dist/viewindexmanager.js:213-246 | The namespace after defaulting is Production when the first trailing argument is an object (the deprecated options form), a function or nullish. Otherwise it is that argument. |
| ViewIndexManagement.DesignDocumentNameRequestFor | node_modules/couchbase/dist/viewindexmanager.js:208-252 | `getDesignDocument` (and `dropDesignDocument`, 324-369, which builds the same record) sends the stripped name in Development for `dev_` names. Any other name is sent unchanged, in the dispatched namespace or Production when there is none. The timeout is the dispatched one. |
| ViewIndexManagement.GetAllDesignDocumentsRequest | node_modules/couchbase/dist/viewindexmanager.js:152-191 | The request uses the dispatched namespace, or Production when there is none, and the dispatched timeout. |
| ViewIndexManagement.UpsertDesignDocumentRequest | node_modules/couchbase/dist/viewindexmanager.js:267-312 | A `dev_` name is stripped in place on the caller's design document and the document is sent in Development. Otherwise the name is untouched and the document is sent in the dispatched namespace, or Production when there is none. The request carries the dispatched timeout. |
| BucketManagement.BucketSettings.constructor | node_modules/couchbase/dist/bucketmanager.js:124-140 | Copies the fourteen settings unchanged and ignores the deprecated aliases. |
| BucketManagement.BucketSettings.MaxTTL | node_modules/couchbase/dist/bucketmanager.js:146-149 | `maxTTL` reads `maxExpiry`, or 0 when that is nullish. |
| BucketManagement.MaxTTLOf | node_modules/couchbase/dist/bucketmanager.js:146-149 | 0 for a nullish `maxExpiry`, otherwise `maxExpiry`. This is the one definition of the getter's rule, used by `BucketSettings.MaxTTL` and by `InstanceInput`. |
| BucketManagement.BucketSettings.SetMaxTTL | node_modules/couchbase/dist/bucketmanager.js:150-152 | Setting `maxTTL` sets `maxExpiry` and no other field. |
| BucketManagement.BucketSettings.EjectionMethod | node_modules/couchbase/dist/bucketmanager.js:158-160 | `ejectionMethod` reads `evictionPolicy`. |
| BucketManagement.BucketSettings.SetEjectionMethod | node_modules/couchbase/dist/bucketmanager.js:161-163 | Setting `ejectionMethod` sets `evictionPolicy` and no other field. |
| BucketManagement.BucketSettings.DurabilityMinLevel | node_modules/couchbase/dist/bucketmanager.js:170-172 | Reads the minimum durability level as the server string. |
| BucketManagement.InstanceInput | node_modules/couchbase/dist/bucketmanager.js:146-172 | A settings object presents its fields, with `maxTTL`, `ejectionMethod` and `durabilityMinLevel` as the getters compute them. |
| BucketManagement.BucketSettingsToCpp | node_modules/couchbase/dist/bucketmanager.js:176-194 | Exactly the fourteen native properties. `max_expiry` is `maxTTL` when truthy, else `maxExpiry`. Name, quota, replicas, replica indexes, flush and the three history settings are copied unchanged. Bucket type, compression mode, storage backend and eviction policy go through their converters. The durability level comes from the deprecated string first. |
| BucketManagement.CreateBucketSettingsToCpp | node_modules/couchbase/dist/bucketmanager.js:238-243 | The update record plus exactly one new property, `conflict_resolution_type`. |
| BucketManagement.BucketSettingsFromCppSpec | node_modules/couchbase/dist/bucketmanager.js:198-218 | Name, expiry, quota, replicas, replica indexes, flush and the three history settings are read back unchanged. Bucket type, storage backend, eviction policy, compression mode and durability level go through their converters. |
| BucketManagement.BucketSettingsFromCpp | node_modules/couchbase/dist/bucketmanager.js:198-218 | A new settings object equal to `BucketSettingsFromCppSpec`. The aliases passed to the constructor are ignored. |
| BucketManagement.InstanceMaxExpiry | node_modules/couchbase/dist/bucketmanager.js:146-181 | For a settings object, `max_expiry` is always its `maxExpiry`, even when that is 0, null or undefined. |
| BucketManagement.InstanceRoundTrip | node_modules/couchbase/dist/bucketmanager.js:176-218 | A settings object survives the round trip through the native record when the converters undo each other. |
| SearchExecution.Flag | node_modules/couchbase/dist/searchexecutor.js:43-45 | A flag is `false` unless set to something truthy. |
| SearchExecution.QueryText | node_modules/couchbase/dist/searchexecutor.js:31-35 | A `SearchQuery` is serialised itself. Otherwise a truthy `searchQuery` is serialised. Otherwise a match-none query is used. |
| SearchExecution.BaseRequest | node_modules/couchbase/dist/searchexecutor.js:36-73 | The timeout defaults to the cluster's search timeout. Limit and skip are passed through. Consistency and the `consistentWith` tokens go through their converters. Flags default to false. Without a highlight there is no style and no fields. A highlight's fields are sent when truthy, else `[]`. Fields and collections are sent when truthy, else `[]`. There is one sort spec per sort, in order. Facets and raw drop `undefined` entries and default to `{}`. |
| SearchExecution.SearchQueryRequest | node_modules/couchbase/dist/searchexecutor.js:24-86 | `vector_search` is present exactly for a `SearchRequest` with a vector search. The combination is present only when set in its options. `bucket_name`/`scope_name` are present exactly when both are truthy. The rest is `BaseRequest`. |
| ViewExecution.FullSet | node_modules/couchbase/dist/viewexecutor.js:38-41 | `fullSet` when it is not `undefined` (even when null), else `full_set`. |
| ViewExecution.SerialisedBound | node_modules/couchbase/dist/viewexecutor.js:53-58 | A key bound is serialised only when the range and the bound are present and truthy. |
| ViewExecution.IdBound | node_modules/couchbase/dist/viewexecutor.js:60-65 | A document-id bound is passed through only when present and truthy. |
| ViewExecution.ViewQuery | node_modules/couchbase/dist/viewexecutor.js:35-73 | The timeout defaults to the view timeout, raw to `{}` and the namespace to Production. Limit, skip, reduce, group and group level are passed through. Consistency and order go through their converters. Keys are `[]` or one serialised key per key, in order. There is no inclusive end without a range. Debug is false and the query string is empty. |
| ViewExecution.FullSetPrecedence | node_modules/couchbase/dist/viewexecutor.js:38-41 | Once `fullSet` is given, `full_set` has no effect on the request. |

## Left out

- The asynchronous manager methods and the native calls they wrap (`PromiseHelper`, callbacks, `this._cluster.conn.*`), which are foreign I/O. Each modelled manager method stops at the request it would send.
- ConfigProfile.ApplyProfileResult and ConfigProfile.ConfigProfiles.ApplyProfile: a caller-registered profile's `apply` is assumed to return normally and only to update the timeouts, DNS settings and other options. An exception from that `apply`, or a registered object with no `apply`, passes straight out of `applyProfile`, possibly after part of the options has been changed. The model does not capture that, so "succeeds exactly when the name is registered" holds only under this assumption. The built-in WAN development profile cannot throw and is modelled in full.
- `publishDesignDocument` and `DesignDocument._fromNsData`: the first is a get followed by an upsert over the network, and the second is a JSON reader outside the modelled translation.
- Result streaming in both executors (`emitter.emit` over the native response).
- The definitions of the `bindingutilities` converters, `JSON.stringify` and the `utilities` durability helpers (declarations only). Any errors these converters raise for unknown enumeration values are not modelled.
- The string values of `DesignDocumentNamespace`: viewtypes.js is not part of this model. The model takes them to be "production" and "development"; the proofs only use that they are distinct, truthy and not nullish.
- Numbers are integers: NaN and fractions are not modelled. `Object.entries` over non-plain objects (strings, arrays, inherited properties) is not modelled either.
- ConfigProfile.ConfigProfiles.RegisterProfile: registering under `"__proto__"`, which in JavaScript replaces the table's prototype instead of adding an entry, is modelled as an ordinary entry.
- The module-level `knownProfiles` instance, which is one `ConfigProfiles` created at load time.
- `CreateBucketSettings`'s constructor. Its `_toCppData` is modelled as `BucketManagement.CreateBucketSettingsToCpp`, which takes the conflict resolution type as an argument.
- `EventingFunctionState`, `EventingState`, `SearchIndex`, `scope.js`, `authenticators.js`, the declaration-only `.d.ts` files and the TypeScript module helpers.
- Arguments of the wrong JavaScript type where the TypeScript signatures fix the type. Examples are a non-string design document name, or a `DesignDocumentView` built from `undefined`. These are excluded by typing or by preconditions.
- The order of properties in JavaScript objects, which only shows when a map is enumerated.

## Findings

| source | as written | input that shows it | evidently intended | confidence | as-written member | corrected member |
|---|---|---|---|---|---|---|
| node_modules/couchbase/dist/configProfile.js:58 | The registry guard uses the `in` operator, which also finds members every object inherits from `Object.prototype`. | `applyProfile("toString", options)` with no profile named "toString": the guard passes, `toString.apply(options)` returns normally, and the options are left as they were. `"__proto__"`, `"__defineGetter__"` and `"__defineSetter__"` raise a TypeError instead. | Every name that was never registered fails with "<name> is not a registered profile." | high, not executed | ConfigProfile.ApplyProfileAsWritten, ConfigProfile.InheritedNamePassesRegistryGuard | ConfigProfile.ApplyProfileResult, ConfigProfile.ConfigProfiles.ApplyProfile, ConfigProfile.UnregisterThenApply |
