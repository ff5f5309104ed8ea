/**
 * The slice of JavaScript's value model that the client's translation code
 * inspects: `undefined`/`null`, truthiness (`||`), nullish defaulting (`??`)
 * and property reads on plain objects.  Also the opaque helpers the client
 * calls but that are not part of this model (the `bindingutilities`
 * converters, two `utilities` helpers and `JSON.stringify`).
 */
module Js {

  /** A JavaScript value.  Numbers are integers here (no NaN, no fractions);
      a function is known only by an identity. */
  datatype JsValue =
    | Undefined
    | Null
    | Bool(b: bool)
    | Num(n: int)
    | Str(s: string)
    | Arr(items: seq<JsValue>)
    | Obj(fields: map<string, JsValue>)
    | Func(id: nat)

  /** A plain object: own enumerable properties by name. */
  type JsObject = map<string, JsValue>

  datatype Option<+T> = None | Some(value: T)

  /** The errors the modelled code raises. */
  datatype ClientError =
    | Error(message: string)                 // a plain `new Error(...)`
    | InvalidArgumentError(message: string)  // `errs.InvalidArgumentError` wrapping `new Error(message)`
    | TypeError(message: string)             // raised by the JavaScript engine

  datatype Result<+T> = Ok(value: T) | Err(error: ClientError)

  /** JavaScript truthiness: `undefined`, `null`, `false`, `0` and `''` are falsy. */
  predicate Truthy(v: JsValue)
  {
    match v
    case Undefined => false
    case Null => false
    case Bool(b) => b
    case Num(n) => n != 0
    case Str(s) => s != ""
    case _ => true
  }

  /** True for `undefined` and `null`, the values `??` replaces. */
  predicate Nullish(v: JsValue)
  {
    v == Undefined || v == Null
  }

  /** `a || b` */
  function Or(a: JsValue, b: JsValue): JsValue
  {
    if Truthy(a) then a else b
  }

  /** `a ?? b` */
  function Coalesce(a: JsValue, b: JsValue): JsValue
  {
    if Nullish(a) then b else a
  }

  /** `o[k]` on a plain object: a missing property reads as `undefined`. */
  function Get(o: JsObject, k: string): JsValue
  {
    if k in o then o[k] else Undefined
  }

  /** `v[k]` on a value that is not `null` or `undefined`: only plain
      objects have own properties here. */
  function Prop(v: JsValue, k: string): JsValue
  {
    if v.Obj? then Get(v.fields, k) else Undefined
  }

  /** The empty object literal `{}` and the empty array literal `[]`. */
  const EmptyObject: JsValue := Obj(map[])
  const EmptyArray: JsValue := Arr([])

  /** The helpers of `bindingutilities`, `utilities` and `JSON` that the
      modelled code calls.  Their definitions are not part of this model. */
  datatype Conversion =
    | JsonStringify
    | MatchNoneQueryJson                       // JSON.stringify(new MatchNoneSearchQuery())
    | DesignDocumentNamespaceToCpp
    | DesignDocumentNamespaceFromCpp
    | ViewScanConsistencyToCpp
    | ViewOrderingToCpp
    | SearchHighlightStyleToCpp
    | SearchScanConsistencyToCpp
    | MutationStateTokensToCpp                 // mutationStateToCpp(x).tokens
    | VectorQueryCombinationToCpp
    | BucketTypeToCpp
    | BucketTypeFromCpp
    | BucketCompressionModeToCpp
    | BucketCompressionModeFromCpp
    | BucketEvictionPolicyToCpp
    | BucketEvictionPolicyFromCpp
    | BucketStorageBackendToCpp
    | BucketStorageBackendFromCpp
    | BucketConflictResolutionTypeToCpp
    | DurabilityToCpp
    | DurabilityFromCpp
    | DuraLevelToNsServerStr
    | NsServerStrToDuraLevel
    | EventingBucketBindingAccessToCpp
    | EventingBucketBindingAccessFromCpp
    | EventingFunctionDcpBoundaryToCpp
    | EventingFunctionDcpBoundaryFromCpp
    | EventingFunctionDeploymentStatusToCpp
    | EventingFunctionDeploymentStatusFromCpp
    | EventingFunctionProcessingStatusToCpp
    | EventingFunctionProcessingStatusFromCpp
    | EventingFunctionLogLevelToCpp
    | EventingFunctionLogLevelFromCpp
    | EventingFunctionLanguageCompatibilityToCpp
    | EventingFunctionLanguageCompatibilityFromCpp
    | QueryScanConsistencyToCpp
    | QueryScanConsistencyFromCpp

  /** Every modelled operation that calls one of the helpers takes their
      behaviour as this parameter, so what is proved holds for any of them. */
  type Bindings = (Conversion, JsValue) -> JsValue

  /** `xs.map(f)` for an `f` that may throw: the results in order when
      every call succeeds, otherwise the error of the first call that fails
      (the later calls are never made). */
  function MapResult<A, B>(f: A -> Result<B>, xs: seq<A>): (r: Result<seq<B>>)
    ensures r.Ok? <==> forall i :: 0 <= i < |xs| ==> f(xs[i]).Ok?
    ensures r.Ok? ==> |r.value| == |xs| && forall i :: 0 <= i < |xs| ==> f(xs[i]) == Ok(r.value[i])
    ensures r.Err? ==> exists i :: 0 <= i < |xs| && f(xs[i]) == Err(r.error)
                                   && forall j :: 0 <= j < i ==> f(xs[j]).Ok?
  {
    if xs == [] then Ok([])
    else
      match f(xs[0])
      case Err(e) => Err(e)
      case Ok(y) =>
        match MapResult(f, xs[1..])
        case Err(e) =>
          var i :| 0 <= i < |xs| - 1 && f(xs[1..][i]) == Err(e) && forall j :: 0 <= j < i ==> f(xs[1..][j]).Ok?;
          assert f(xs[i + 1]) == Err(e);
          assert forall j :: 1 <= j < i + 1 ==> xs[j] == xs[1..][j - 1];
          Err(e)
        case Ok(ys) =>
          assert forall i :: 1 <= i < |xs| ==> xs[i] == xs[1..][i - 1];
          Ok([y] + ys)
  }

  /** `JSON.stringify` applied to each element, in order (`items.map(JSON.stringify)`). */
  function StringifyAll(items: seq<JsValue>, cv: Bindings): (r: seq<JsValue>)
    ensures |r| == |items|
    ensures forall i :: 0 <= i < |items| ==> r[i] == cv(JsonStringify, items[i])
  {
    if items == [] then [] else [cv(JsonStringify, items[0])] + StringifyAll(items[1..], cv)
  }

  /** An object's entries with every `undefined` value dropped and every
      other value serialised, under the same keys. */
  function StringifyDefinedEntries(o: JsObject, cv: Bindings): (r: JsObject)
    ensures forall k :: k in r <==> k in o && o[k] != Undefined
    ensures forall k :: k in r ==> r[k] == cv(JsonStringify, o[k])
  {
    map k | k in o && o[k] != Undefined :: cv(JsonStringify, o[k])
  }
}
