/**
 * Assembly of the native view query request in `ViewExecutor.query`
 * (node_modules/couchbase/dist/viewexecutor.js): defaults for the timeout,
 * raw parameters and namespace, key serialisation, the range and id-range
 * bounds, and the precedence of `fullSet` over `full_set`.
 */
module ViewExecution {
  import opened Js
  import ViewIndexManagement

  /** The view query options.  `keys` is `None` when `undefined` or `null`;
      `range` is `{start, end, inclusiveEnd}` and `idRange` `{start, end}`,
      each `None` when absent. */
  datatype ViewQueryOptions = ViewQueryOptions(
    timeout: JsValue,
    raw: JsValue,
    namespace: JsValue,
    full_set: JsValue,
    fullSet: JsValue,
    limit: JsValue,
    skip: JsValue,
    scanConsistency: JsValue,
    keys: Option<seq<JsValue>>,
    key: JsValue,
    range: Option<JsObject>,
    idRange: Option<JsObject>,
    reduce: JsValue,
    group: JsValue,
    groupLevel: JsValue,
    order: JsValue)

  /** The native view query request. */
  datatype ViewQueryRequest = ViewQueryRequest(
    timeout: JsValue,
    bucket_name: JsValue,
    document_name: JsValue,
    view_name: JsValue,
    ns: JsValue,
    limit: JsValue,
    skip: JsValue,
    consistency: JsValue,
    keys: seq<JsValue>,
    key: JsValue,
    start_key: JsValue,
    end_key: JsValue,
    inclusive_end: JsValue,
    start_key_doc_id: JsValue,
    end_key_doc_id: JsValue,
    reduce: JsValue,
    group: JsValue,
    group_level: JsValue,
    order: JsValue,
    debug: bool,
    query_string: seq<JsValue>,
    raw: JsValue,
    full_set: JsValue)

  /** `fullSet` when it is not `undefined` (even when `null`), else `full_set`. */
  function FullSet(options: ViewQueryOptions): (r: JsValue)
    ensures options.fullSet != Undefined ==> r == options.fullSet
    ensures options.fullSet == Undefined ==> r == options.full_set
  {
    if options.fullSet != Undefined then options.fullSet else options.full_set
  }

  /** A bound of a range, serialised when it is truthy, else `undefined`. */
  function SerialisedBound(range: Option<JsObject>, bound: string, cv: Bindings): (r: JsValue)
    ensures range.None? || !Truthy(Get(range.value, bound)) ==> r == Undefined
    ensures range.Some? && Truthy(Get(range.value, bound)) ==> r == cv(JsonStringify, Get(range.value, bound))
  {
    if range.Some? && Truthy(Get(range.value, bound)) then cv(JsonStringify, Get(range.value, bound)) else Undefined
  }

  /** A bound of an id range, as given when it is truthy, else `undefined`. */
  function IdBound(idRange: Option<JsObject>, bound: string): (r: JsValue)
    ensures idRange.None? || !Truthy(Get(idRange.value, bound)) ==> r == Undefined
    ensures idRange.Some? && Truthy(Get(idRange.value, bound)) ==> r == Get(idRange.value, bound)
  {
    if idRange.Some? && Truthy(Get(idRange.value, bound)) then Get(idRange.value, bound) else Undefined
  }

  /** The request `ViewExecutor.query(designDoc, viewName, options)` sends for
      a bucket named `bucketName` on a cluster whose view timeout is
      `viewTimeout`. */
  function ViewQuery(
    bucketName: JsValue, viewTimeout: JsValue, designDoc: JsValue, viewName: JsValue,
    options: ViewQueryOptions, cv: Bindings)
    : (r: ViewQueryRequest)
    ensures r.timeout == if Truthy(options.timeout) then options.timeout else viewTimeout
    ensures r.raw == if Truthy(options.raw) then options.raw else EmptyObject
    ensures r.ns == cv(DesignDocumentNamespaceToCpp,
                       if Nullish(options.namespace) then ViewIndexManagement.Production else options.namespace)
    ensures r.full_set == FullSet(options)
    ensures r.bucket_name == bucketName && r.document_name == designDoc && r.view_name == viewName
    // paging and grouping are passed through, consistency and order through their converters
    ensures r.limit == options.limit && r.skip == options.skip
    ensures r.reduce == options.reduce && r.group == options.group && r.group_level == options.groupLevel
    ensures r.consistency == cv(ViewScanConsistencyToCpp, options.scanConsistency)
    ensures r.order == cv(ViewOrderingToCpp, options.order)
    ensures options.keys.None? ==> r.keys == []
    ensures options.keys.Some? ==>
              |r.keys| == |options.keys.value|
              && forall i :: 0 <= i < |options.keys.value| ==> r.keys[i] == cv(JsonStringify, options.keys.value[i])
    ensures r.key == cv(JsonStringify, options.key)
    ensures r.start_key == SerialisedBound(options.range, "start", cv)
    ensures r.end_key == SerialisedBound(options.range, "end", cv)
    ensures r.inclusive_end == if options.range.Some? then Get(options.range.value, "inclusiveEnd") else Undefined
    ensures r.start_key_doc_id == IdBound(options.idRange, "start")
    ensures r.end_key_doc_id == IdBound(options.idRange, "end")
    ensures !r.debug && r.query_string == []
  {
    ViewQueryRequest(
      Or(options.timeout, viewTimeout),
      bucketName,
      designDoc,
      viewName,
      cv(DesignDocumentNamespaceToCpp, Coalesce(options.namespace, ViewIndexManagement.Production)),
      options.limit,
      options.skip,
      cv(ViewScanConsistencyToCpp, options.scanConsistency),
      if options.keys.Some? then StringifyAll(options.keys.value, cv) else [],
      cv(JsonStringify, options.key),
      SerialisedBound(options.range, "start", cv),
      SerialisedBound(options.range, "end", cv),
      if options.range.Some? then Get(options.range.value, "inclusiveEnd") else Undefined,
      IdBound(options.idRange, "start"),
      IdBound(options.idRange, "end"),
      options.reduce,
      options.group,
      options.groupLevel,
      cv(ViewOrderingToCpp, options.order),
      false,
      [],
      Or(options.raw, EmptyObject),
      FullSet(options))
  }

  /** Once `fullSet` is given, `full_set` no longer affects the request. */
  lemma FullSetPrecedence(
    bucketName: JsValue, viewTimeout: JsValue, designDoc: JsValue, viewName: JsValue,
    options: ViewQueryOptions, legacy: JsValue, cv: Bindings)
    requires options.fullSet != Undefined
    ensures ViewQuery(bucketName, viewTimeout, designDoc, viewName, options.(full_set := legacy), cv) ==
            ViewQuery(bucketName, viewTimeout, designDoc, viewName, options, cv)
  {
    assert FullSet(options.(full_set := legacy)) == FullSet(options);
  }
}
