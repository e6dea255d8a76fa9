/**
 * The 29 operations of the registry client, each reduced to the constants its
 * method body fixes, and the shared steps every method runs on them before
 * calling `createRequest`: copy the bag, check the required names, route each
 * value to the path, the query, the body or (for `xAuthResourceGroup`) the
 * `X-Auth-Resource-Group` header under its wire name, and merge the headers.
 */
module Operations {
  import opened Wrappers
  import opened Requests

  datatype Op =
    | GetAuth | UpdateAuth
    | ListImages | BulkDeleteImages | ListImageDigests | TagImage
    | DeleteImage | InspectImage | GetImageManifest
    | GetMessages
    | ListNamespaces | ListNamespaceDetails | CreateNamespace | AssignNamespace | DeleteNamespace
    | GetPlans | UpdatePlans
    | GetQuota | UpdateQuota
    | ListRetentionPolicies | SetRetentionPolicy | AnalyzeRetentionPolicy | GetRetentionPolicy
    | GetSettings | UpdateSettings
    | DeleteImageTag
    | ListDeletedImages | RestoreTags | RestoreImage

  /** How an operation fills its body: not at all, with an object literal, or with one parameter's value as it is. */
  datatype BodyRoute = NoBodySent | FieldsBody(routes: seq<Route>) | WholeParam(param: string)

  /**
   * The constants of one operation method: URL template, verb, required
   * names, where each parameter goes, and which default headers it sets
   * (`Accept` and `Content-Type` to JSON, `Account` to the client's account,
   * `X-Auth-Resource-Group` to the `xAuthResourceGroup` parameter).
   */
  datatype Endpoint = Endpoint(
    url: Template,
    verb: Method,
    required: seq<string>,
    path: seq<Route>,
    query: seq<Route>,
    body: BodyRoute,
    accept: bool,
    contentType: bool,
    account: bool,
    resourceGroup: bool)

  const JsonMedia := "application/json"
  const ResourceGroupParam := "xAuthResourceGroup"

  /** A parameter sent under its own name. */
  function Same(name: string): Route { Route(name, name) }

  function ParamNames(routes: seq<Route>): seq<string>
  {
    if routes == [] then [] else [routes[0].param] + ParamNames(routes[1..])
  }

  function BodyParams(b: BodyRoute): seq<string>
  {
    match b
    case NoBodySent => []
    case FieldsBody(routes) => ParamNames(routes)
    case WholeParam(param) => [param]
  }

  /** Every parameter name an operation reads, wherever it sends it. */
  function Routed(e: Endpoint): seq<string>
  {
    ParamNames(e.path) + ParamNames(e.query) + BodyParams(e.body)
      + (if e.resourceGroup then [ResourceGroupParam] else [])
  }

  predicate Distinct(s: seq<string>)
  {
    forall i, j :: 0 <= i < j < |s| ==> s[i] != s[j]
  }

  /**
   * The shape every operation method has: each parameter goes to exactly one
   * place, no wire name is reused within a location, every required name is
   * routed somewhere, and `Content-Type` is set exactly when a body is sent.
   */
  predicate WellFormed(e: Endpoint)
  {
    && Distinct(Routed(e))
    && DistinctWires(e.path)
    && DistinctWires(e.query)
    && (e.body.FieldsBody? ==> DistinctWires(e.body.routes))
    && (forall n :: n in e.required ==> n in Routed(e))
    && (e.contentType <==> !e.body.NoBodySent?)
  }

  /** The operations whose required list is empty. */
  predicate RequiresNothing(op: Op)
  {
    op in {GetAuth, UpdateAuth, ListImages, ListImageDigests, GetMessages, ListNamespaces,
           ListNamespaceDetails, GetPlans, UpdatePlans, GetQuota, UpdateQuota, ListRetentionPolicies,
           GetSettings, UpdateSettings, ListDeletedImages}
  }

  /** The routing table: what each of the 29 methods fixes. */
  function EndpointOf(op: Op): (e: Endpoint)
    ensures e.account <==> op != GetMessages
    ensures e.contentType <==> !e.body.NoBodySent?
    ensures e.resourceGroup <==> op == CreateNamespace || op == AssignNamespace
    ensures !e.accept && !e.contentType <==> op == TagImage || op == DeleteNamespace || op == RestoreImage
    ensures e.body.WholeParam? ==> op == BulkDeleteImages && e.body.param in e.required
    ensures e.required == [] <==> RequiresNothing(op)
  {
    // Each row: URL template, verb, required names, path, query and body routes,
    // then whether Accept, Content-Type, Account and X-Auth-Resource-Group are set.
    match op
    case GetAuth =>
      Endpoint([Text("/api/v1/auth")], GET, [], [], [], NoBodySent, true, false, true, false)
    case UpdateAuth =>
      Endpoint([Text("/api/v1/auth")], PATCH, [], [], [],
               FieldsBody([Route("iamAuthz", "iam_authz"), Route("privateOnly", "private_only")]),
               false, true, true, false)
    case ListImages =>
      Endpoint([Text("/api/v1/images")], GET, [], [],
               [Same("namespace"), Route("includeIbm", "includeIBM"), Same("includePrivate"),
                Same("includeManifestLists"), Same("vulnerabilities"), Same("repository")],
               NoBodySent, true, false, true, false)
    case BulkDeleteImages =>
      Endpoint([Text("/api/v1/images/bulkdelete")], POST, ["bulkDelete"], [], [],
               WholeParam("bulkDelete"), true, true, true, false)
    case ListImageDigests =>
      Endpoint([Text("/api/v1/images/digests")], POST, [], [], [],
               FieldsBody([Route("excludeTagged", "exclude_tagged"), Route("excludeVa", "exclude_va"),
                           Route("includeIbm", "include_ibm"), Same("repositories")]),
               true, true, true, false)
    case TagImage =>
      Endpoint([Text("/api/v1/images/tags")], POST, ["fromimage", "toimage"], [],
               [Same("fromimage"), Same("toimage")], NoBodySent, false, false, true, false)
    case DeleteImage =>
      Endpoint([Text("/api/v1/images/"), Param("image")],
               DELETE, ["image"], [Same("image")], [],
               NoBodySent, true, false, true, false)
    case InspectImage =>
      Endpoint([Text("/api/v1/images/"), Param("image"), Text("/json")],
               GET, ["image"], [Same("image")], [],
               NoBodySent, true, false, true, false)
    case GetImageManifest =>
      Endpoint([Text("/api/v1/images/"), Param("image"), Text("/manifest")],
               GET, ["image"], [Same("image")], [],
               NoBodySent, true, false, true, false)
    case GetMessages =>
      Endpoint([Text("/api/v1/messages")], GET, [], [], [], NoBodySent, true, false, false, false)
    case ListNamespaces =>
      Endpoint([Text("/api/v1/namespaces")], GET, [], [], [], NoBodySent, true, false, true, false)
    case ListNamespaceDetails =>
      Endpoint([Text("/api/v1/namespaces/details")], GET, [], [], [], NoBodySent, true, false, true, false)
    case CreateNamespace =>
      Endpoint([Text("/api/v1/namespaces/"), Param("name")],
               PUT, ["name"], [Same("name")], [],
               NoBodySent, true, false, true, true)
    case AssignNamespace =>
      Endpoint([Text("/api/v1/namespaces/"), Param("name")],
               PATCH, [ResourceGroupParam, "name"], [Same("name")], [],
               NoBodySent, true, false, true, true)
    case DeleteNamespace =>
      Endpoint([Text("/api/v1/namespaces/"), Param("name")],
               DELETE, ["name"], [Same("name")], [],
               NoBodySent, false, false, true, false)
    case GetPlans =>
      Endpoint([Text("/api/v1/plans")], GET, [], [], [], NoBodySent, true, false, true, false)
    case UpdatePlans =>
      Endpoint([Text("/api/v1/plans")], PATCH, [], [], [], FieldsBody([Same("plan")]), false, true, true, false)
    case GetQuota =>
      Endpoint([Text("/api/v1/quotas")], GET, [], [], [], NoBodySent, true, false, true, false)
    case UpdateQuota =>
      Endpoint([Text("/api/v1/quotas")], PATCH, [], [], [],
               FieldsBody([Route("storageMegabytes", "storage_megabytes"),
                           Route("trafficMegabytes", "traffic_megabytes")]),
               false, true, true, false)
    case ListRetentionPolicies =>
      Endpoint([Text("/api/v1/retentions")], GET, [], [], [], NoBodySent, true, false, true, false)
    case SetRetentionPolicy =>
      Endpoint([Text("/api/v1/retentions")], POST, ["namespace"], [], [], RetentionBody(), false, true, true, false)
    case AnalyzeRetentionPolicy =>
      Endpoint([Text("/api/v1/retentions/analyze")], POST, ["namespace"], [], [],
               RetentionBody(), true, true, true, false)
    case GetRetentionPolicy =>
      Endpoint([Text("/api/v1/retentions/"), Param("namespace")],
               GET, ["namespace"], [Same("namespace")], [],
               NoBodySent, true, false, true, false)
    case GetSettings =>
      Endpoint([Text("/api/v1/settings")], GET, [], [], [], NoBodySent, true, false, true, false)
    case UpdateSettings =>
      Endpoint([Text("/api/v1/settings")], PATCH, [], [], [],
               FieldsBody([Route("platformMetrics", "platform_metrics")]), false, true, true, false)
    case DeleteImageTag =>
      Endpoint([Text("/api/v1/tags/"), Param("image")],
               DELETE, ["image"], [Same("image")], [],
               NoBodySent, true, false, true, false)
    case ListDeletedImages =>
      Endpoint([Text("/api/v1/trash")], GET, [], [], [Same("namespace")], NoBodySent, true, false, true, false)
    case RestoreTags =>
      Endpoint([Text("/api/v1/trash/"), Param("digest"), Text("/restoretags")],
               POST, ["digest"], [Same("digest")], [],
               NoBodySent, true, false, true, false)
    case RestoreImage =>
      Endpoint([Text("/api/v1/trash/"), Param("image"), Text("/restore")],
               POST, ["image"], [Same("image")], [],
               NoBodySent, false, false, true, false)
  }

  /** The body both retention-policy operations build. */
  function RetentionBody(): BodyRoute
  {
    FieldsBody([Same("namespace"), Route("imagesPerRepo", "images_per_repo"),
                Route("retainUntagged", "retain_untagged")])
  }

  /** Every operation has the common shape: each parameter in one place, required names all routed. */
  lemma EndpointsWellFormed(op: Op)
    ensures WellFormed(EndpointOf(op))
  {
    match op
    case GetAuth | GetMessages | ListNamespaces | ListNamespaceDetails | GetPlans | GetQuota
       | ListRetentionPolicies | GetSettings =>
      AccountEndpointsWellFormed(op);
    case UpdateAuth | UpdatePlans | UpdateQuota | UpdateSettings => AccountUpdatesWellFormed(op);
    case ListImages => ListImagesWellFormed();
    case BulkDeleteImages | TagImage => ImageEndpointsWellFormed(op);
    case ListImageDigests => ListImageDigestsWellFormed();
    case DeleteImage | InspectImage | GetImageManifest | DeleteImageTag => SingleParameterEndpointsWellFormed(op);
    case RestoreTags | RestoreImage | GetRetentionPolicy => RestoreEndpointsWellFormed(op);
    case ListDeletedImages => ListDeletedImagesWellFormed();
    case CreateNamespace | AssignNamespace | DeleteNamespace => NamespaceEndpointsWellFormed(op);
    case SetRetentionPolicy | AnalyzeRetentionPolicy => RetentionEndpointsWellFormed(op);
  }

  lemma AccountEndpointsWellFormed(op: Op)
    requires op in {GetAuth, GetMessages, ListNamespaces, ListNamespaceDetails, GetPlans, GetQuota,
                    ListRetentionPolicies, GetSettings}
    ensures WellFormed(EndpointOf(op))
  {
    NoParameterWellFormed(EndpointOf(op));
  }

  /** An endpoint that reads no parameter at all and sends no body. */
  lemma NoParameterWellFormed(e: Endpoint)
    requires e.path == [] && e.query == [] && e.body == NoBodySent && !e.resourceGroup && !e.contentType
    requires e.required == []
    ensures WellFormed(e)
  {
    assert Routed(e) == [];
  }

  lemma AccountUpdatesWellFormed(op: Op)
    requires op in {UpdateAuth, UpdatePlans, UpdateQuota, UpdateSettings}
    ensures WellFormed(EndpointOf(op))
  {
    var e := EndpointOf(op);
    if op == UpdateAuth {
      assert Routed(e) == ["iamAuthz", "privateOnly"];
    } else if op == UpdateQuota {
      assert Routed(e) == ["storageMegabytes", "trafficMegabytes"];
    } else {
      SingleFieldUpdateWellFormed(op);
    }
  }

  lemma SingleFieldUpdateWellFormed(op: Op)
    requires op in {UpdatePlans, UpdateSettings}
    ensures WellFormed(EndpointOf(op))
  {
    var e := EndpointOf(op);
    assert |Routed(e)| == 1;
  }

  lemma ListImagesWellFormed()
    ensures WellFormed(EndpointOf(ListImages))
  {
    ListImagesRouted();
    ListImagesWiresDistinct();
    assert Distinct(["namespace", "includeIbm", "includePrivate", "includeManifestLists", "vulnerabilities", "repository"]);
  }

  lemma ListImagesWiresDistinct()
    ensures DistinctWires(EndpointOf(ListImages).query)
  {
  }

  lemma ListImagesRouted()
    ensures Routed(EndpointOf(ListImages))
            == ["namespace", "includeIbm", "includePrivate", "includeManifestLists", "vulnerabilities", "repository"]
  {
    var e := EndpointOf(ListImages);
    assert ParamNames(e.query) == Routed(e);
  }

  lemma ImageEndpointsWellFormed(op: Op)
    requires op in {BulkDeleteImages, TagImage}
    ensures WellFormed(EndpointOf(op))
  {
    var e := EndpointOf(op);
    if op == BulkDeleteImages {
      assert Routed(e) == ["bulkDelete"];
    } else {
      assert Routed(e) == ["fromimage", "toimage"];
    }
  }

  lemma ListImageDigestsWellFormed()
    ensures WellFormed(EndpointOf(ListImageDigests))
  {
    var e := EndpointOf(ListImageDigests);
    ListImageDigestsRouted();
    assert Distinct(Routed(e));
    assert DistinctWires(e.body.routes);
  }

  lemma ListImageDigestsRouted()
    ensures Routed(EndpointOf(ListImageDigests)) == ["excludeTagged", "excludeVa", "includeIbm", "repositories"]
  {
  }

  lemma SingleParameterEndpointsWellFormed(op: Op)
    requires op in {DeleteImage, InspectImage, GetImageManifest, DeleteImageTag}
    ensures WellFormed(EndpointOf(op))
  {
    PathOnlyWellFormed(EndpointOf(op));
  }

  lemma RestoreEndpointsWellFormed(op: Op)
    requires op in {RestoreTags, RestoreImage, GetRetentionPolicy}
    ensures WellFormed(EndpointOf(op))
  {
    PathOnlyWellFormed(EndpointOf(op));
  }

  lemma ListDeletedImagesWellFormed()
    ensures WellFormed(EndpointOf(ListDeletedImages))
  {
    assert Routed(EndpointOf(ListDeletedImages)) == ["namespace"];
  }

  /** An endpoint whose only parameter is one required path placeholder, without a body. */
  lemma PathOnlyWellFormed(e: Endpoint)
    requires |e.path| == 1 && e.query == [] && e.body == NoBodySent && !e.resourceGroup && !e.contentType
    requires e.required == [e.path[0].param]
    ensures WellFormed(e)
  {
    assert e.path[1..] == [];
    assert Routed(e) == [e.path[0].param];
  }

  lemma NamespaceEndpointsWellFormed(op: Op)
    requires op in {CreateNamespace, AssignNamespace, DeleteNamespace}
    ensures WellFormed(EndpointOf(op))
  {
    var e := EndpointOf(op);
    if op == DeleteNamespace {
      assert Routed(e) == ["name"];
    } else {
      assert Routed(e) == ["name", ResourceGroupParam];
    }
  }

  lemma RetentionEndpointsWellFormed(op: Op)
    requires op in {SetRetentionPolicy, AnalyzeRetentionPolicy}
    ensures WellFormed(EndpointOf(op))
  {
    RetentionShapeWellFormed(EndpointOf(op));
  }

  /** An endpoint that sends the retention body and nothing else, requiring only `namespace`. */
  lemma RetentionShapeWellFormed(e: Endpoint)
    requires e.path == [] && e.query == [] && e.body == RetentionBody() && !e.resourceGroup && e.contentType
    requires e.required == ["namespace"]
    ensures WellFormed(e)
  {
    RetentionBodyParams();
    assert Routed(e) == ["namespace", "imagesPerRepo", "retainUntagged"];
  }

  lemma RetentionBodyParams()
    ensures ParamNames(RetentionBody().routes) == ["namespace", "imagesPerRepo", "retainUntagged"]
    ensures DistinctWires(RetentionBody().routes)
  {
  }

  /** The client state an operation reads: `this.account` and the base options. */
  datatype Config = Config(account: string, serviceUrl: string, headers: Headers)

  /**
   * The operation's own header object: `Accept` and `Content-Type` set to JSON,
   * `Account` to the client's account and `X-Auth-Resource-Group` to the
   * `xAuthResourceGroup` parameter, each only where the method lists it. An
   * absent `xAuthResourceGroup` is `undefined`, which the merge skips.
   */
  function DefaultHeaders(e: Endpoint, account: string, fields: map<string, Value>): (h: Headers)
    ensures "Accept" in h <==> e.accept
    ensures "Content-Type" in h <==> e.contentType
    ensures "Account" in h <==> e.account
    ensures "X-Auth-Resource-Group" in h <==> e.resourceGroup && ResourceGroupParam in fields
    ensures forall k :: k in h ==> k in {"Accept", "Content-Type", "Account", "X-Auth-Resource-Group"}
    ensures forall k :: k in h && k != "Account" && k != "X-Auth-Resource-Group" ==> h[k] == Str(JsonMedia)
    ensures "Account" in h ==> h["Account"] == Str(account)
    ensures "X-Auth-Resource-Group" in h ==> h["X-Auth-Resource-Group"] == fields[ResourceGroupParam]
  {
    (if e.accept then map["Accept" := Str(JsonMedia)] else map[])
    + (if e.contentType then map["Content-Type" := Str(JsonMedia)] else map[])
    + (if e.account then map["Account" := Str(account)] else map[])
    + (if e.resourceGroup && ResourceGroupParam in fields
       then map["X-Auth-Resource-Group" := fields[ResourceGroupParam]] else map[])
  }

  /** The body an operation sends: none, its object literal, or one parameter's value unwrapped. */
  function BodyOf(b: BodyRoute, fields: map<string, Value>): (r: Body)
    ensures b.NoBodySent? ==> r == NoBody
    ensures b.FieldsBody? ==> r == Object(Place(b.routes, fields))
    ensures b.WholeParam? ==> (r.Raw? <==> b.param in fields) && (r.Raw? ==> r.value == fields[b.param])
  {
    match b
    case NoBodySent => NoBody
    case FieldsBody(routes) => Object(Place(routes, fields))
    case WholeParam(param) => if param in fields then Raw(fields[param]) else NoBody
  }

  /**
   * The header merge of every operation: the base options' headers, then the
   * SDK headers, then the operation's defaults, then the caller's headers; a
   * later layer replaces an earlier one key by key.
   */
  function MergeHeaders(base: Headers, sdk: Headers, defaults: Headers, caller: Headers): (h: Headers)
    ensures h.Keys == base.Keys + sdk.Keys + defaults.Keys + caller.Keys
    ensures forall k :: k in caller ==> h[k] == caller[k]
    ensures forall k :: k !in caller && k in defaults ==> h[k] == defaults[k]
    ensures forall k :: k !in caller && k !in defaults && k in sdk ==> h[k] == sdk[k]
    ensures forall k :: k !in caller && k !in defaults && k !in sdk && k in base ==> h[k] == base[k]
  {
    Extend(base, Extend(Extend(sdk, defaults), caller))
  }

  /**
   * The steps every operation method runs, on that method's constants `e`.
   * `sdk` stands for what `getSdkHeaders` returns for the operation. A bag
   * that lacks a required name is rejected, naming the missing ones, and no
   * descriptor is built; otherwise the descriptor carries the URL template
   * and verb, each value under its wire name, and the headers merged as base
   * options, SDK headers, the operation's defaults, then the caller's
   * headers, a later layer replacing an earlier one.
   */
  function Assemble(e: Endpoint, p: Params, cfg: Config, sdk: Headers): (r: Result<Descriptor, ValidationError>)
    ensures r.Failure? <==> exists n :: n in e.required && n !in p.fields
    ensures r.Failure? ==>
      && r.error.names != []
      && forall n :: n in r.error.names <==> n in e.required && n !in p.fields
    ensures r.Success? ==>
      var d := r.value;
      && d.serviceUrl == cfg.serviceUrl && d.url == e.url && d.verb == e.verb
      && d.body == BodyOf(e.body, p.fields)
      && (DistinctWires(e.path) ==> forall i :: 0 <= i < |e.path| && e.path[i].param in p.fields ==>
           e.path[i].wire in d.path && d.path[e.path[i].wire] == p.fields[e.path[i].param])
      && (forall w :: w in d.path ==> exists i :: 0 <= i < |e.path| && e.path[i].wire == w && e.path[i].param in p.fields)
      && (DistinctWires(e.query) ==> forall i :: 0 <= i < |e.query| && e.query[i].param in p.fields ==>
           e.query[i].wire in d.qs && d.qs[e.query[i].wire] == p.fields[e.query[i].param])
      && (forall w :: w in d.qs ==> exists i :: 0 <= i < |e.query| && e.query[i].wire == w && e.query[i].param in p.fields)
    ensures r.Success? ==> r.value.headers == MergeHeaders(cfg.headers, sdk, DefaultHeaders(e, cfg.account, p.fields), p.headers)
  {
    var missing := Missing(e.required, p.fields);
    if missing != [] then
      Failure(MissingRequiredParameters(missing))
    else
      var defaults := DefaultHeaders(e, cfg.account, p.fields);
      Success(Descriptor(
        cfg.serviceUrl, e.url, e.verb,
        Place(e.path, p.fields), Place(e.query, p.fields), BodyOf(e.body, p.fields),
        MergeHeaders(cfg.headers, sdk, defaults, p.headers)))
  }

  /** One call of operation `op`, up to the point where it calls `createRequest`. */
  function Build(op: Op, p: Params, cfg: Config, sdk: Headers): (r: Result<Descriptor, ValidationError>)
    ensures r.Failure? <==> exists n :: n in EndpointOf(op).required && n !in p.fields
  {
    Assemble(EndpointOf(op), p, cfg, sdk)
  }
}
