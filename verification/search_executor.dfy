/**
 * Assembly of the native search request in `SearchExecutor.query`
 * (node_modules/couchbase/dist/searchexecutor.js): the choice of query
 * text, the defaults of every option, and the properties added only for
 * vector searches and for scope-level indexes.
 */
module SearchExecution {
  import opened Js

  /** A vector search: its queries and its (possibly absent) options object. */
  datatype VectorSearch = VectorSearch(queries: JsValue, options: JsValue)

  /** The `query` argument: a `SearchQuery` instance, a `SearchRequest`
      instance (its `searchQuery` and, when set, its `vectorSearch`), or
      another object, of which only `searchQuery` is read. */
  datatype SearchQueryArg =
    | SearchQueryInstance(query: JsValue)
    | SearchRequestInstance(searchQuery: JsValue, vectorSearch: Option<VectorSearch>)
    | OtherQueryObject(searchQuery: JsValue)

  /** The search options.  Arrays and objects that are `undefined` or `null`
      are `None`; the highlight is `{style, fields}`. */
  datatype SearchOptions = SearchOptions(
    timeout: JsValue,
    limit: JsValue,
    skip: JsValue,
    explain: JsValue,
    disableScoring: JsValue,
    includeLocations: JsValue,
    highlight: Option<JsObject>,
    fields: JsValue,
    collections: JsValue,
    consistency: JsValue,
    consistentWith: JsValue,
    sort: Option<seq<JsValue>>,
    facets: Option<JsObject>,
    raw: Option<JsObject>,
    showRequest: JsValue,
    logRequest: JsValue,
    logResponse: JsValue)

  /** The properties of the native search request that are always present. */
  datatype BaseSearchRequest = BaseSearchRequest(
    timeout: JsValue,
    index_name: JsValue,
    query: JsValue,
    limit: JsValue,
    skip: JsValue,
    explain: JsValue,
    disable_scoring: JsValue,
    include_locations: JsValue,
    highlight_style: JsValue,
    highlight_fields: JsValue,
    fields: JsValue,
    collections: JsValue,
    scan_consistency: JsValue,
    mutation_state: JsValue,
    sort_specs: seq<JsValue>,
    facets: JsObject,
    raw: JsObject,
    body_str: string,
    show_request: JsValue,
    log_request: JsValue,
    log_response: JsValue)

  /** The native search request: the properties always present, and four
      that are present only when set (`Some`). */
  datatype SearchRequest = SearchRequest(
    base: BaseSearchRequest,
    vector_search: Option<JsValue>,
    vector_query_combination: Option<JsValue>,
    bucket_name: Option<JsValue>,
    scope_name: Option<JsValue>)

  /** `x || false`: a flag that is `false` unless set to something truthy. */
  function Flag(x: JsValue): (r: JsValue)
    ensures !Truthy(x) ==> r == Bool(false)
    ensures Truthy(x) ==> r == x
  {
    Or(x, Bool(false))
  }

  /** The serialised query text: the `SearchQuery` itself, else the
      request's `searchQuery` when truthy, else a match-none query. */
  function QueryText(query: SearchQueryArg, cv: Bindings): (r: JsValue)
    ensures query.SearchQueryInstance? ==> r == cv(JsonStringify, query.query)
    ensures !query.SearchQueryInstance? && Truthy(query.searchQuery) ==> r == cv(JsonStringify, query.searchQuery)
    ensures !query.SearchQueryInstance? && !Truthy(query.searchQuery) ==> r == cv(MatchNoneQueryJson, Undefined)
  {
    if query.SearchQueryInstance? then cv(JsonStringify, query.query)
    else if Truthy(query.searchQuery) then cv(JsonStringify, query.searchQuery)
    else cv(MatchNoneQueryJson, Undefined)
  }

  /** The `request` record as first built, before the conditional
      properties: the query text, the timeout defaulting to the cluster's,
      flags defaulting to false, lists and objects defaulting to empty, one
      serialised sort per entry, and facets and raw properties without the
      entries set to `undefined`. */
  function BaseRequest(indexName: JsValue, query: SearchQueryArg, options: SearchOptions, searchTimeout: JsValue, cv: Bindings)
    : (r: BaseSearchRequest)
    // the query text, the index and the timeout
    ensures r.query == QueryText(query, cv) && r.index_name == indexName
    ensures r.timeout == if Truthy(options.timeout) then options.timeout else searchTimeout
    // paging is passed through, consistency through its converters
    ensures r.limit == options.limit && r.skip == options.skip
    ensures r.scan_consistency == cv(SearchScanConsistencyToCpp, options.consistency)
    ensures r.mutation_state == cv(MutationStateTokensToCpp, options.consistentWith)
    // flags default to false
    ensures r.explain == Flag(options.explain) && r.disable_scoring == Flag(options.disableScoring)
            && r.include_locations == Flag(options.includeLocations)
            && r.show_request == Flag(options.showRequest) && r.log_request == Flag(options.logRequest)
            && r.log_response == Flag(options.logResponse)
    // highlighting, fields and collections
    ensures options.highlight.None? ==> r.highlight_style == Undefined && r.highlight_fields == EmptyArray
    ensures options.highlight.Some? ==>
              r.highlight_style == cv(SearchHighlightStyleToCpp, Get(options.highlight.value, "style"))
    ensures options.highlight.Some? && Truthy(Get(options.highlight.value, "fields")) ==>
              r.highlight_fields == Get(options.highlight.value, "fields")
    ensures options.highlight.Some? && !Truthy(Get(options.highlight.value, "fields")) ==>
              r.highlight_fields == EmptyArray
    ensures !Truthy(options.fields) ==> r.fields == EmptyArray
    ensures Truthy(options.fields) ==> r.fields == options.fields
    ensures !Truthy(options.collections) ==> r.collections == EmptyArray
    ensures Truthy(options.collections) ==> r.collections == options.collections
    // one serialised sort per sort entry, in order
    ensures options.sort.None? ==> r.sort_specs == []
    ensures options.sort.Some? ==>
              |r.sort_specs| == |options.sort.value|
              && forall i :: 0 <= i < |options.sort.value| ==>
                   r.sort_specs[i] == cv(JsonStringify, options.sort.value[i])
    // facets and raw properties: entries set to undefined are dropped
    ensures options.facets.None? ==> r.facets == map[]
    ensures options.facets.Some? ==>
              (forall k :: k in r.facets <==> k in options.facets.value && options.facets.value[k] != Undefined)
              && forall k :: k in r.facets ==> r.facets[k] == cv(JsonStringify, options.facets.value[k])
    ensures options.raw.None? ==> r.raw == map[]
    ensures options.raw.Some? ==>
              (forall k :: k in r.raw <==> k in options.raw.value && options.raw.value[k] != Undefined)
              && forall k :: k in r.raw ==> r.raw[k] == cv(JsonStringify, options.raw.value[k])
    ensures r.body_str == ""
  {
    BaseSearchRequest(
      Or(options.timeout, searchTimeout),
      indexName,
      QueryText(query, cv),
      options.limit,
      options.skip,
      Flag(options.explain),
      Flag(options.disableScoring),
      Flag(options.includeLocations),
      if options.highlight.Some? then cv(SearchHighlightStyleToCpp, Get(options.highlight.value, "style")) else Undefined,
      if options.highlight.Some? && Truthy(Get(options.highlight.value, "fields")) then Get(options.highlight.value, "fields")
      else EmptyArray,
      Or(options.fields, EmptyArray),
      Or(options.collections, EmptyArray),
      cv(SearchScanConsistencyToCpp, options.consistency),
      cv(MutationStateTokensToCpp, options.consistentWith),
      if options.sort.Some? then StringifyAll(options.sort.value, cv) else [],
      if options.facets.Some? then StringifyDefinedEntries(options.facets.value, cv) else map[],
      if options.raw.Some? then StringifyDefinedEntries(options.raw.value, cv) else map[],
      "",
      Flag(options.showRequest),
      Flag(options.logRequest),
      Flag(options.logResponse))
  }

  /** The request `SearchExecutor.query(indexName, query, options)` sends,
      for an executor bound to `bucketName`/`scopeName` (both falsy for a
      cluster-level index) on a cluster whose search timeout is
      `searchTimeout`. */
  method SearchQueryRequest(
    bucketName: JsValue, scopeName: JsValue, searchTimeout: JsValue,
    indexName: JsValue, query: SearchQueryArg, options: SearchOptions, cv: Bindings)
    returns (request: SearchRequest)
    ensures request.base == BaseRequest(indexName, query, options, searchTimeout, cv)
    // vector search, only for a search request that has one
    ensures request.vector_search.Some? <==> query.SearchRequestInstance? && query.vectorSearch.Some?
    ensures request.vector_search.Some? ==>
              request.vector_search.value == cv(JsonStringify, query.vectorSearch.value.queries)
    ensures request.vector_query_combination.Some? <==>
              query.SearchRequestInstance? && query.vectorSearch.Some?
              && Truthy(query.vectorSearch.value.options)
              && Truthy(Prop(query.vectorSearch.value.options, "vectorQueryCombination"))
    ensures request.vector_query_combination.Some? ==>
              request.vector_query_combination.value ==
                cv(VectorQueryCombinationToCpp, Prop(query.vectorSearch.value.options, "vectorQueryCombination"))
    // scope-level indexes
    ensures request.bucket_name.Some? <==> Truthy(bucketName) && Truthy(scopeName)
    ensures request.scope_name.Some? <==> Truthy(bucketName) && Truthy(scopeName)
    ensures request.bucket_name.Some? ==> request.bucket_name.value == bucketName && request.scope_name.value == scopeName
  {
    request := SearchRequest(BaseRequest(indexName, query, options, searchTimeout, cv), None, None, None, None);
    if query.SearchRequestInstance? {
      if query.vectorSearch.Some? {
        var vectorSearch := query.vectorSearch.value;
        request := request.(vector_search := Some(cv(JsonStringify, vectorSearch.queries)));
        if Truthy(vectorSearch.options) && Truthy(Prop(vectorSearch.options, "vectorQueryCombination")) {
          request := request.(vector_query_combination :=
                                Some(cv(VectorQueryCombinationToCpp, Prop(vectorSearch.options, "vectorQueryCombination"))));
        }
      }
    }
    if Truthy(bucketName) && Truthy(scopeName) {
      request := request.(bucket_name := Some(bucketName));
      request := request.(scope_name := Some(scopeName));
    }
  }
}
