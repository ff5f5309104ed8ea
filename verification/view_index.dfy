/**
 * Design documents and the namespace rules of the view index manager
 * (node_modules/couchbase/dist/viewindexmanager.js): the constructors'
 * defaulting, the translation of a design document's views to and from the
 * native record, the overloaded-argument dispatch of the manager methods,
 * and the `dev_` prefix rule that selects the development namespace.
 */
module ViewIndexManagement {
  import opened Js

  /** The two `DesignDocumentNamespace` values. */
  const Production: JsValue := Str("production")
  const Development: JsValue := Str("development")

  /** `args[i]`, reading `undefined` past the end. */
  function Arg(args: seq<JsValue>, i: nat): JsValue
  {
    if i < |args| then args[i] else Undefined
  }

  // ---------------------------------------------------------------------
  // Views
  // ---------------------------------------------------------------------

  /** `DesignDocumentView`: the map and reduce functions, as source text. */
  datatype DesignDocumentView = DesignDocumentView(mapCode: JsValue, reduceCode: JsValue)

  /** The native view record `{name, map, reduce}`. */
  datatype CppView = CppView(name: string, mapCode: JsValue, reduceCode: JsValue)

  /** The `DesignDocumentView` constructor: a string or function first
      argument is the map function and the second the reduce function;
      otherwise the first argument is an object holding both. */
  function NewDesignDocumentView(args: seq<JsValue>): (v: DesignDocumentView)
    requires |args| > 0 && (args[0].Str? || args[0].Func? || args[0].Obj?)
    ensures args[0].Str? || args[0].Func? ==> v.mapCode == args[0] && v.reduceCode == Arg(args, 1)
    ensures args[0].Obj? ==> v.mapCode == Get(args[0].fields, "map") && v.reduceCode == Get(args[0].fields, "reduce")
  {
    var data := if args[0].Str? || args[0].Func? then map["map" := args[0], "reduce" := Arg(args, 1)]
                else args[0].fields;
    DesignDocumentView(Get(data, "map"), Get(data, "reduce"))
  }

  /** `DesignDocumentView._toCppData(name, view)` */
  function ViewToCpp(name: string, v: DesignDocumentView): (c: CppView)
    ensures c.name == name && c.mapCode == v.mapCode && c.reduceCode == v.reduceCode
  {
    CppView(name, v.mapCode, v.reduceCode)
  }

  /** `DesignDocumentView._fromCppData`: the constructor, given `{map, reduce}`. */
  function ViewFromCpp(c: CppView): (v: DesignDocumentView)
    ensures v.mapCode == c.mapCode && v.reduceCode == c.reduceCode
  {
    NewDesignDocumentView([Obj(map["map" := c.mapCode, "reduce" := c.reduceCode])])
  }

  /** The native views of a design document: one entry per view, under the
      same name, whose `name` is that name. */
  function ViewsToCpp(views: map<string, DesignDocumentView>): (r: map<string, CppView>)
    ensures r.Keys == views.Keys
    ensures forall k :: k in r ==> r[k].name == k && r[k].mapCode == views[k].mapCode
                                   && r[k].reduceCode == views[k].reduceCode
  {
    map k | k in views :: ViewToCpp(k, views[k])
  }

  /** The views rebuilt from native views, one per native entry. */
  function ViewsFromCpp(views: map<string, CppView>): (r: map<string, DesignDocumentView>)
    ensures r.Keys == views.Keys
    ensures forall k :: k in r ==> r[k].mapCode == views[k].mapCode && r[k].reduceCode == views[k].reduceCode
  {
    map k | k in views :: ViewFromCpp(views[k])
  }

  /** Views come back unchanged from their native form. */
  lemma ViewsRoundTrip(views: map<string, DesignDocumentView>)
    ensures ViewsFromCpp(ViewsToCpp(views)) == views
  {
    var back := ViewsFromCpp(ViewsToCpp(views));
    assert back.Keys == views.Keys;
    forall k | k in views
      ensures back[k] == views[k]
    {
    }
  }

  /** Native views whose names agree with their keys come back unchanged
      from their client form. */
  lemma CppViewsRoundTrip(views: map<string, CppView>)
    requires forall k :: k in views ==> views[k].name == k
    ensures ViewsToCpp(ViewsFromCpp(views)) == views
  {
    var back := ViewsToCpp(ViewsFromCpp(views));
    assert back.Keys == views.Keys;
    forall k | k in views
      ensures back[k] == views[k]
    {
    }
  }

  // ---------------------------------------------------------------------
  // Design documents
  // ---------------------------------------------------------------------

  /** The state of a `DesignDocument`. */
  datatype DesignDocumentValue = DesignDocumentValue(
    name: string,
    views: map<string, DesignDocumentView>,
    namespace: JsValue,
    rev: JsValue)

  /** The two ways to call the `DesignDocument` constructor: a name with its
      views, or one object holding name, views, namespace and revision.
      Views that are `undefined` or `null` are `None`. */
  datatype DesignDocumentArgs =
    | NameAndViews(name: string, views: Option<map<string, DesignDocumentView>>)
    | FromData(name: string, views: Option<map<string, DesignDocumentView>>, namespace: JsValue, rev: JsValue)

  /** The `DesignDocument` constructor's defaulting: missing views become no
      views, a falsy namespace becomes Production, and the positional form
      has no revision. */
  function DesignDocumentFromArgs(args: DesignDocumentArgs): (d: DesignDocumentValue)
    ensures d.name == args.name
    ensures d.views == if args.views.Some? then args.views.value else map[]
    ensures Truthy(d.namespace)
    ensures d.namespace == if args.FromData? && Truthy(args.namespace) then args.namespace else Production
    ensures d.rev == if args.FromData? then args.rev else Undefined
  {
    var namespace := if args.FromData? then args.namespace else Undefined;
    var rev := if args.FromData? then args.rev else Undefined;
    DesignDocumentValue(
      args.name,
      if args.views.Some? then args.views.value else map[],
      Or(namespace, Production),
      rev)
  }

  /** A design document, whose name `upsertDesignDocument` rewrites in place. */
  class DesignDocument {
    var name: string
    var views: map<string, DesignDocumentView>
    var namespace: JsValue
    var rev: JsValue

    function Value(): DesignDocumentValue
      reads this
    {
      DesignDocumentValue(name, views, namespace, rev)
    }

    constructor(args: DesignDocumentArgs)
      ensures Value() == DesignDocumentFromArgs(args)
    {
      var d := DesignDocumentFromArgs(args);
      name, views, namespace, rev := d.name, d.views, d.namespace, d.rev;
    }
  }

  /** The native design document `{rev, name, ns, views}`. */
  datatype CppDesignDocument = CppDesignDocument(rev: JsValue, name: string, ns: JsValue, views: map<string, CppView>)

  /** What `DesignDocument._toCppData(d, namespace)` returns: the namespace
      passed in (not the document's own), converted, and the views keyed
      and named by view name. */
  function DesignDocumentToCppSpec(d: DesignDocumentValue, namespace: JsValue, cv: Bindings): (c: CppDesignDocument)
    ensures c.rev == d.rev && c.name == d.name && c.ns == cv(DesignDocumentNamespaceToCpp, namespace)
    ensures c.views == ViewsToCpp(d.views)
  {
    CppDesignDocument(d.rev, d.name, cv(DesignDocumentNamespaceToCpp, namespace), ViewsToCpp(d.views))
  }

  /** What `DesignDocument._fromCppData(c)` builds: the constructor applied
      to the native fields, the namespace converted back. */
  function DesignDocumentFromCppSpec(c: CppDesignDocument, cv: Bindings): (d: DesignDocumentValue)
    ensures d.name == c.name && d.rev == c.rev && d.views == ViewsFromCpp(c.views)
    ensures d.namespace == Or(cv(DesignDocumentNamespaceFromCpp, c.ns), Production)
  {
    DesignDocumentFromArgs(FromData(c.name, Some(ViewsFromCpp(c.views)), cv(DesignDocumentNamespaceFromCpp, c.ns), c.rev))
  }

  /** `DesignDocument._toCppData`: fills the native views one entry at a time. */
  method DesignDocumentToCpp(d: DesignDocument, namespace: JsValue, cv: Bindings) returns (c: CppDesignDocument)
    ensures c == DesignDocumentToCppSpec(d.Value(), namespace, cv)
  {
    var cppViews: map<string, CppView> := map[];
    var remaining := d.views.Keys;
    while remaining != {}
      invariant remaining <= d.views.Keys
      invariant cppViews.Keys == d.views.Keys - remaining
      invariant forall k :: k in cppViews ==> cppViews[k] == ViewToCpp(k, d.views[k])
      decreases remaining
    {
      var k :| k in remaining;
      cppViews := cppViews[k := ViewToCpp(k, d.views[k])];
      remaining := remaining - {k};
    }
    assert cppViews == ViewsToCpp(d.views);
    c := CppDesignDocument(d.rev, d.name, cv(DesignDocumentNamespaceToCpp, namespace), cppViews);
  }

  /** `DesignDocument._fromCppData`: rebuilds the views one entry at a time
      and constructs a new design document from them. */
  method DesignDocumentFromCpp(c: CppDesignDocument, cv: Bindings) returns (d: DesignDocument)
    ensures fresh(d)
    ensures d.Value() == DesignDocumentFromCppSpec(c, cv)
  {
    var views: map<string, DesignDocumentView> := map[];
    var remaining := c.views.Keys;
    while remaining != {}
      invariant remaining <= c.views.Keys
      invariant views.Keys == c.views.Keys - remaining
      invariant forall k :: k in views ==> views[k] == ViewFromCpp(c.views[k])
      decreases remaining
    {
      var k :| k in remaining;
      views := views[k := ViewFromCpp(c.views[k])];
      remaining := remaining - {k};
    }
    assert views == ViewsFromCpp(c.views);
    d := new DesignDocument(FromData(c.name, Some(views), cv(DesignDocumentNamespaceFromCpp, c.ns), c.rev));
  }

  /** A design document read back from its native form keeps its name,
      revision and views (names, map and reduce); its namespace comes back
      as the converters return it, or Production when that is falsy. */
  lemma DesignDocumentRoundTrip(d: DesignDocumentValue, namespace: JsValue, cv: Bindings)
    ensures var back := DesignDocumentFromCppSpec(DesignDocumentToCppSpec(d, namespace, cv), cv);
            && back.name == d.name && back.rev == d.rev && back.views == d.views
            && back.namespace == Or(cv(DesignDocumentNamespaceFromCpp, cv(DesignDocumentNamespaceToCpp, namespace)), Production)
  {
    ViewsRoundTrip(d.views);
  }

  // ---------------------------------------------------------------------
  // Manager methods: argument dispatch and the `dev_` rule
  // ---------------------------------------------------------------------

  /** `typeof v === 'object'` */
  predicate IsObjectType(v: JsValue)
  {
    v.Null? || v.Arr? || v.Obj?
  }

  /** What the manager methods make of their trailing arguments. */
  datatype Dispatched = Dispatched(namespace: JsValue, options: JsValue, callback: JsValue, timeout: JsValue)

  /** The overloaded-argument dispatch shared by the manager methods,
      starting at `args[at]`: an object there is the options (no
      namespace), a function the callback (no namespace, no options);
      anything else is the namespace, followed by either the callback or
      the options and then the callback.  Falsy options become `{}`, and
      the timeout is the options' when truthy, else the management timeout. */
  function Dispatch(args: seq<JsValue>, at: nat, managementTimeout: JsValue): (r: Dispatched)
    ensures IsObjectType(Arg(args, at)) ==>
              r.namespace == Undefined && r.options == Or(Arg(args, at), EmptyObject)
              && r.callback == Arg(args, at + 1)
    ensures Arg(args, at).Func? ==>
              r.namespace == Undefined && r.options == EmptyObject && r.callback == Arg(args, at)
    ensures !IsObjectType(Arg(args, at)) && !Arg(args, at).Func? ==>
              r.namespace == Arg(args, at)
              && (Arg(args, at + 1).Func? ==> r.options == EmptyObject && r.callback == Arg(args, at + 1))
              && (!Arg(args, at + 1).Func? ==>
                    r.options == Or(Arg(args, at + 1), EmptyObject) && r.callback == Arg(args, at + 2))
    ensures Truthy(r.options)
    ensures r.timeout == Or(Prop(r.options, "timeout"), managementTimeout)
  {
    var first := Arg(args, at);
    var (namespace, options, callback) :=
      if IsObjectType(first) then (Undefined, first, Arg(args, at + 1))
      else if first.Func? then (Undefined, Undefined, first)
      else if Arg(args, at + 1).Func? then (first, Undefined, Arg(args, at + 1))
      else (first, Arg(args, at + 1), Arg(args, at + 2));
    var options := Or(options, EmptyObject);
    Dispatched(namespace, options, callback, Or(Prop(options, "timeout"), managementTimeout))
  }

  /** The dispatch as the manager methods write it, one assignment at a time. */
  method DispatchArguments(args: seq<JsValue>, at: nat, managementTimeout: JsValue) returns (r: Dispatched)
    ensures r == Dispatch(args, at, managementTimeout)
  {
    var namespace, options, callback;
    if IsObjectType(Arg(args, at)) {
      namespace := Undefined;
      options := Arg(args, at);
      callback := Arg(args, at + 1);
    } else if Arg(args, at).Func? {
      namespace := Undefined;
      options := Undefined;
      callback := Arg(args, at);
    } else {
      namespace := Arg(args, at);
      if Arg(args, at + 1).Func? {
        callback := Arg(args, at + 1);
        options := Undefined;
      } else {
        options := Arg(args, at + 1);
        callback := Arg(args, at + 2);
      }
    }
    if !Truthy(options) {
      options := EmptyObject;
    }
    var timeout := Or(Prop(options, "timeout"), managementTimeout);
    r := Dispatched(namespace, options, callback, timeout);
  }

  /** Only a first trailing argument that is neither an object, a function
      nor nullish names a namespace; in every other form the namespace is
      left to the default. */
  lemma DispatchedNamespace(args: seq<JsValue>, at: nat, managementTimeout: JsValue)
    ensures Coalesce(Dispatch(args, at, managementTimeout).namespace, Production) ==
              if IsObjectType(Arg(args, at)) || Arg(args, at).Func? || Nullish(Arg(args, at)) then Production
              else Arg(args, at)
  {
  }

  const DevPrefix: string := "dev_"

  /** The `dev_` rule: a name with that prefix loses its first four
      characters and forces the development namespace, whatever namespace
      was passed; otherwise the name is kept and a nullish namespace
      becomes Production. */
  method NormaliseDesignDocName(designDocName: string, namespace: JsValue) returns (name: string, ns: JsValue)
    ensures |designDocName| >= 4 && designDocName[..4] == DevPrefix ==>
              ns == Development && DevPrefix + name == designDocName
    ensures !(|designDocName| >= 4 && designDocName[..4] == DevPrefix) ==>
              name == designDocName && ns == Coalesce(namespace, Production)
    ensures !Nullish(ns)
  {
    name := designDocName;
    var chosen := namespace;
    if |name| >= 4 && name[..4] == DevPrefix {
      chosen := Development;
      name := name[4..];
    }
    ns := Coalesce(chosen, Production);
  }

  /** The native request of `getDesignDocument` and `dropDesignDocument`. */
  datatype DesignDocumentNameRequest = DesignDocumentNameRequest(
    bucket_name: string, document_name: string, ns: JsValue, timeout: JsValue)

  /** The request `getDesignDocument(designDocName, ...args)` sends (and
      `dropDesignDocument`, which builds the same record): the name after
      the `dev_` rule, the namespace it selects, and the dispatched timeout. */
  method DesignDocumentNameRequestFor(
    bucketName: string, designDocName: string, args: seq<JsValue>, managementTimeout: JsValue, cv: Bindings)
    returns (req: DesignDocumentNameRequest)
    ensures req.bucket_name == bucketName
    ensures |designDocName| >= 4 && designDocName[..4] == DevPrefix ==>
              req.document_name == designDocName[4..] && req.ns == cv(DesignDocumentNamespaceToCpp, Development)
    ensures !(|designDocName| >= 4 && designDocName[..4] == DevPrefix) ==>
              req.document_name == designDocName
              && req.ns == cv(DesignDocumentNamespaceToCpp, Coalesce(Dispatch(args, 0, managementTimeout).namespace, Production))
    ensures req.timeout == Dispatch(args, 0, managementTimeout).timeout
  {
    var d := DispatchArguments(args, 0, managementTimeout);
    var name, ns := NormaliseDesignDocName(designDocName, d.namespace);
    req := DesignDocumentNameRequest(bucketName, name, cv(DesignDocumentNamespaceToCpp, ns), d.timeout);
  }

  /** The native request of `getAllDesignDocuments`. */
  datatype GetAllRequest = GetAllRequest(bucket_name: string, ns: JsValue, timeout: JsValue)

  /** The request `getAllDesignDocuments(...args)` sends: without a
      namespace argument, the Production namespace. */
  method GetAllDesignDocumentsRequest(bucketName: string, args: seq<JsValue>, managementTimeout: JsValue, cv: Bindings)
    returns (req: GetAllRequest)
    ensures req.bucket_name == bucketName
    ensures req.ns == cv(DesignDocumentNamespaceToCpp, Coalesce(Dispatch(args, 0, managementTimeout).namespace, Production))
    ensures req.timeout == Dispatch(args, 0, managementTimeout).timeout
  {
    var d := DispatchArguments(args, 0, managementTimeout);
    var ns := Coalesce(d.namespace, Production);
    req := GetAllRequest(bucketName, cv(DesignDocumentNamespaceToCpp, ns), d.timeout);
  }

  /** The native request of `upsertDesignDocument`. */
  datatype UpsertRequest = UpsertRequest(bucket_name: string, document: CppDesignDocument, timeout: JsValue)

  /** `upsertDesignDocument(designDoc, ...args)`: applies the `dev_` rule by
      renaming the caller's design document in place, then sends it in the
      namespace selected by the rule or the arguments (the document's own
      `namespace` property is not consulted). */
  method UpsertDesignDocumentRequest(
    bucketName: string, designDoc: DesignDocument, args: seq<JsValue>, managementTimeout: JsValue, cv: Bindings)
    returns (req: UpsertRequest)
    modifies designDoc`name
    ensures old(|designDoc.name| >= 4 && designDoc.name[..4] == DevPrefix) ==>
              designDoc.name == old(designDoc.name)[4..]
              && req.document == DesignDocumentToCppSpec(designDoc.Value(), Development, cv)
    ensures !old(|designDoc.name| >= 4 && designDoc.name[..4] == DevPrefix) ==>
              designDoc.name == old(designDoc.name)
              && req.document == DesignDocumentToCppSpec(
                                   designDoc.Value(),
                                   Coalesce(Dispatch(args, 0, managementTimeout).namespace, Production), cv)
    ensures req.bucket_name == bucketName
    ensures req.timeout == Dispatch(args, 0, managementTimeout).timeout
  {
    var d := DispatchArguments(args, 0, managementTimeout);
    var name, ns := NormaliseDesignDocName(designDoc.name, d.namespace);
    designDoc.name := name;
    var document := DesignDocumentToCpp(designDoc, ns, cv);
    req := UpsertRequest(bucketName, document, d.timeout);
  }
}
