/**
 * What the operation methods promise their callers, stated about `Build`
 * for one operation or for all of them.
 */
module Properties {
  import opened Wrappers
  import opened Requests
  import opened Operations

  /** With distinct wire names, route `i` gives an entry exactly when its parameter is present, holding that value. */
  lemma PlacedUnder(routes: seq<Route>, fields: map<string, Value>, i: nat)
    requires DistinctWires(routes) && i < |routes|
    ensures routes[i].wire in Place(routes, fields) <==> routes[i].param in fields
    ensures routes[i].param in fields ==> Place(routes, fields)[routes[i].wire] == fields[routes[i].param]
  {
  }

  /** A wire name no route uses never appears. */
  lemma NeverPlaced(routes: seq<Route>, fields: map<string, Value>, w: string)
    requires forall i :: 0 <= i < |routes| ==> routes[i].wire != w
    ensures w !in Place(routes, fields)
  {
  }

  /** The empty bag is accepted exactly by the operations that require nothing; those accept every bag. */
  lemma EmptyBagBuildsExactlyWhenNothingRequired(op: Op, cfg: Config, sdk: Headers)
    ensures Build(op, Params(map[], map[]), cfg, sdk).Success? <==> RequiresNothing(op)
    ensures RequiresNothing(op) ==> forall p :: Build(op, p, cfg, sdk).Success?
  {
    var e := EndpointOf(op);
    assert Build(op, Params(map[], map[]), cfg, sdk) == Assemble(e, Params(map[], map[]), cfg, sdk);
    if !RequiresNothing(op) {
      assert e.required[0] in e.required;
    } else {
      forall p | true ensures Build(op, p, cfg, sdk).Success? {
        assert Build(op, p, cfg, sdk) == Assemble(e, p, cfg, sdk);
      }
    }
  }

  /** `tagImage` needs both images; missing ones are named in the listed order. */
  lemma TagImageNeedsBothImages(p: Params, cfg: Config, sdk: Headers)
    ensures Build(TagImage, p, cfg, sdk).Success? <==> "fromimage" in p.fields && "toimage" in p.fields
    ensures "fromimage" !in p.fields && "toimage" !in p.fields ==>
      Build(TagImage, p, cfg, sdk) == Failure(MissingRequiredParameters(["fromimage", "toimage"]))
  {
    var e := EndpointOf(TagImage);
    assert e.required == ["fromimage", "toimage"];
    assert Build(TagImage, p, cfg, sdk) == Assemble(e, p, cfg, sdk);
    if "fromimage" !in p.fields && "toimage" !in p.fields {
      assert Missing(e.required, p.fields) == ["fromimage", "toimage"];
    }
  }

  /** `assignNamespace` needs the resource group and the name. */
  lemma AssignNamespaceNeedsGroupAndName(p: Params, cfg: Config, sdk: Headers)
    ensures Build(AssignNamespace, p, cfg, sdk).Success? <==> ResourceGroupParam in p.fields && "name" in p.fields
    ensures ResourceGroupParam !in p.fields && "name" !in p.fields ==>
      Build(AssignNamespace, p, cfg, sdk) == Failure(MissingRequiredParameters([ResourceGroupParam, "name"]))
  {
    var e := EndpointOf(AssignNamespace);
    assert e.required == [ResourceGroupParam, "name"];
    assert Build(AssignNamespace, p, cfg, sdk) == Assemble(e, p, cfg, sdk);
    if ResourceGroupParam !in p.fields && "name" !in p.fields {
      assert Missing(e.required, p.fields) == [ResourceGroupParam, "name"];
    }
  }

  /** Caller headers replace whatever the client, the SDK or the operation would send under the same name. */
  lemma CallerHeadersTakePrecedence(op: Op, p: Params, cfg: Config, sdk: Headers)
    requires Build(op, p, cfg, sdk).Success?
    ensures forall k :: k in p.headers ==> Build(op, p, cfg, sdk).value.headers[k] == p.headers[k]
  {
  }

  /** Every operation but `getMessages` sends the client's account, unless the caller overrides it. */
  lemma AccountHeader(op: Op, p: Params, cfg: Config, sdk: Headers)
    ensures var r := Build(op, p, cfg, sdk);
      r.Success? && "Account" !in p.headers ==>
        && (op != GetMessages ==> "Account" in r.value.headers && r.value.headers["Account"] == Str(cfg.account))
        && (op == GetMessages ==> ("Account" in r.value.headers <==> "Account" in sdk || "Account" in cfg.headers))
  {
    var r := Build(op, p, cfg, sdk);
    if r.Success? && "Account" !in p.headers {
      assert r == Assemble(EndpointOf(op), p, cfg, sdk);
    }
  }

  /** `getMessages` sets `Accept` and nothing else. */
  lemma GetMessagesSetsOnlyAccept(account: string, fields: map<string, Value>)
    ensures DefaultHeaders(EndpointOf(GetMessages), account, fields) == map["Accept" := Str(JsonMedia)]
  {
  }

  /** The operation's `Content-Type` default is present exactly when a body is sent. */
  lemma ContentTypeExactlyWithBody(op: Op, p: Params, cfg: Config, sdk: Headers)
    requires Build(op, p, cfg, sdk).Success?
    ensures "Content-Type" in DefaultHeaders(EndpointOf(op), cfg.account, p.fields)
            <==> Build(op, p, cfg, sdk).value.body != NoBody
  {
    var e := EndpointOf(op);
    if e.body.WholeParam? {
      assert e.body.param in e.required;
    }
  }

  /** `tagImage`, `deleteNamespace` and `restoreImage` get no media header unless someone else supplies it. */
  lemma NoMediaHeaders(op: Op, p: Params, cfg: Config, sdk: Headers)
    requires op == TagImage || op == DeleteNamespace || op == RestoreImage
    requires Build(op, p, cfg, sdk).Success?
    ensures var h := Build(op, p, cfg, sdk).value.headers;
      && ("Accept" in h <==> "Accept" in p.headers || "Accept" in sdk || "Accept" in cfg.headers)
      && ("Content-Type" in h <==> "Content-Type" in p.headers || "Content-Type" in sdk || "Content-Type" in cfg.headers)
  {
  }

  /**
   * The namespace create and assign operations put `xAuthResourceGroup` into
   * `X-Auth-Resource-Group`; no other operation sets that header itself.
   */
  lemma ResourceGroupHeader(op: Op, p: Params, cfg: Config, sdk: Headers)
    requires Build(op, p, cfg, sdk).Success?
    requires "X-Auth-Resource-Group" !in p.headers
    ensures var h := Build(op, p, cfg, sdk).value.headers;
      && ((op == CreateNamespace || op == AssignNamespace) && ResourceGroupParam in p.fields ==>
            h["X-Auth-Resource-Group"] == p.fields[ResourceGroupParam])
      && (op == AssignNamespace ==> "X-Auth-Resource-Group" in h)
      && (op != CreateNamespace && op != AssignNamespace ==>
            ("X-Auth-Resource-Group" in h <==> "X-Auth-Resource-Group" in sdk || "X-Auth-Resource-Group" in cfg.headers))
  {
  }

  /** `updateAuth` sends `iamAuthz` and `privateOnly` as `iam_authz` and `private_only`, values unchanged. */
  lemma UpdateAuthBodyRenames(p: Params, cfg: Config, sdk: Headers)
    ensures Build(UpdateAuth, p, cfg, sdk).Success?
    ensures var b := Build(UpdateAuth, p, cfg, sdk).value.body;
      && b.Object?
      && b.members.Keys <= {"iam_authz", "private_only"}
      && ("iam_authz" in b.members <==> "iamAuthz" in p.fields)
      && ("private_only" in b.members <==> "privateOnly" in p.fields)
      && ("iamAuthz" in p.fields ==> b.members["iam_authz"] == p.fields["iamAuthz"])
      && ("privateOnly" in p.fields ==> b.members["private_only"] == p.fields["privateOnly"])
  {
    var routes := [Route("iamAuthz", "iam_authz"), Route("privateOnly", "private_only")];
    FieldsBodyOf(UpdateAuth, routes, p, cfg, sdk);
    RenamedPair(routes, p.fields);
  }

  /** `updateQuota` sends the two limits as `storage_megabytes` and `traffic_megabytes`, values unchanged. */
  lemma UpdateQuotaBodyRenames(p: Params, cfg: Config, sdk: Headers)
    ensures Build(UpdateQuota, p, cfg, sdk).Success?
    ensures var b := Build(UpdateQuota, p, cfg, sdk).value.body;
      && b.Object?
      && b.members.Keys <= {"storage_megabytes", "traffic_megabytes"}
      && ("storage_megabytes" in b.members <==> "storageMegabytes" in p.fields)
      && ("traffic_megabytes" in b.members <==> "trafficMegabytes" in p.fields)
      && ("storageMegabytes" in p.fields ==> b.members["storage_megabytes"] == p.fields["storageMegabytes"])
      && ("trafficMegabytes" in p.fields ==> b.members["traffic_megabytes"] == p.fields["trafficMegabytes"])
  {
    var routes := [Route("storageMegabytes", "storage_megabytes"), Route("trafficMegabytes", "traffic_megabytes")];
    FieldsBodyOf(UpdateQuota, routes, p, cfg, sdk);
    RenamedPair(routes, p.fields);
  }

  /** An operation that requires nothing and sends a body built from `routes`. */
  lemma FieldsBodyOf(op: Op, routes: seq<Route>, p: Params, cfg: Config, sdk: Headers)
    requires EndpointOf(op).body == FieldsBody(routes) && EndpointOf(op).required == []
    ensures Build(op, p, cfg, sdk).Success?
    ensures Build(op, p, cfg, sdk).value.body == Object(Place(routes, p.fields))
  {
    assert Build(op, p, cfg, sdk) == Assemble(EndpointOf(op), p, cfg, sdk);
  }

  /**
   * Every operation that sends an object literal renames each route's
   * parameter to its wire name: the member is there exactly when the
   * parameter is, holds its value unchanged, and no other member appears.
   */
  lemma EveryFieldsBodyRenames(op: Op, p: Params, cfg: Config, sdk: Headers, i: nat)
    requires EndpointOf(op).body.FieldsBody? && i < |EndpointOf(op).body.routes|
    requires Build(op, p, cfg, sdk).Success?
    ensures var routes, b := EndpointOf(op).body.routes, Build(op, p, cfg, sdk).value.body;
      && b.Object?
      && (routes[i].wire in b.members <==> routes[i].param in p.fields)
      && (routes[i].param in p.fields ==> b.members[routes[i].wire] == p.fields[routes[i].param])
      && (forall w :: w in b.members ==>
            exists j :: 0 <= j < |routes| && routes[j].wire == w && routes[j].param in p.fields)
  {
    var e := EndpointOf(op);
    EndpointsWellFormed(op);
    assert Build(op, p, cfg, sdk) == Assemble(e, p, cfg, sdk);
    PlacedUnder(e.body.routes, p.fields, i);
  }

  /** Two routes with different wire names rename exactly the parameters present. */
  lemma RenamedPair(routes: seq<Route>, fields: map<string, Value>)
    requires |routes| == 2 && routes[0].wire != routes[1].wire
    ensures var m := Place(routes, fields);
      && m.Keys <= {routes[0].wire, routes[1].wire}
      && (routes[0].wire in m <==> routes[0].param in fields)
      && (routes[1].wire in m <==> routes[1].param in fields)
      && (routes[0].param in fields ==> m[routes[0].wire] == fields[routes[0].param])
      && (routes[1].param in fields ==> m[routes[1].wire] == fields[routes[1].param])
  {
    PlacedUnder(routes, fields, 0);
    PlacedUnder(routes, fields, 1);
  }

  /**
   * Setting and analysing a retention policy accept the same bags and send
   * the same body: `namespace`, `images_per_repo`, `retain_untagged`.
   */
  lemma RetentionBodiesAgree(p: Params, cfg: Config, sdk: Headers)
    ensures Build(SetRetentionPolicy, p, cfg, sdk).Success? <==> "namespace" in p.fields
    ensures Build(AnalyzeRetentionPolicy, p, cfg, sdk).Success? <==> "namespace" in p.fields
    ensures "namespace" in p.fields ==>
      && Build(SetRetentionPolicy, p, cfg, sdk).value.body == BodyOf(RetentionBody(), p.fields)
      && Build(AnalyzeRetentionPolicy, p, cfg, sdk).value.body == BodyOf(RetentionBody(), p.fields)
  {
    RetentionBuild(SetRetentionPolicy, p, cfg, sdk);
    RetentionBuild(AnalyzeRetentionPolicy, p, cfg, sdk);
  }

  /** Either retention operation needs `namespace` and sends the retention body. */
  lemma RetentionBuild(op: Op, p: Params, cfg: Config, sdk: Headers)
    requires op == SetRetentionPolicy || op == AnalyzeRetentionPolicy
    ensures Build(op, p, cfg, sdk).Success? <==> "namespace" in p.fields
    ensures "namespace" in p.fields ==> Build(op, p, cfg, sdk).value.body == BodyOf(RetentionBody(), p.fields)
  {
    var e := EndpointOf(op);
    assert e.body == RetentionBody() && e.required == ["namespace"];
    assert Build(op, p, cfg, sdk) == Assemble(e, p, cfg, sdk);
  }

  /** The retention body renames `imagesPerRepo` and `retainUntagged` and keeps every value. */
  lemma RetentionBodyMembers(fields: map<string, Value>)
    ensures var m := Place(RetentionBody().routes, fields);
      && BodyOf(RetentionBody(), fields) == Object(m)
      && m.Keys <= {"namespace", "images_per_repo", "retain_untagged"}
      && ("namespace" in m <==> "namespace" in fields)
      && ("images_per_repo" in m <==> "imagesPerRepo" in fields)
      && ("retain_untagged" in m <==> "retainUntagged" in fields)
      && ("namespace" in fields ==> m["namespace"] == fields["namespace"])
      && ("imagesPerRepo" in fields ==> m["images_per_repo"] == fields["imagesPerRepo"])
      && ("retainUntagged" in fields ==> m["retain_untagged"] == fields["retainUntagged"])
  {
    var routes := RetentionBody().routes;
    assert routes[0] == Route("namespace", "namespace");
    assert routes[1] == Route("imagesPerRepo", "images_per_repo");
    assert routes[2] == Route("retainUntagged", "retain_untagged");
    PlacedUnder(routes, fields, 0);
    PlacedUnder(routes, fields, 1);
    PlacedUnder(routes, fields, 2);
  }

  /** `listImages` always builds, and its query is the six query routes applied to the bag. */
  lemma ListImagesBuild(p: Params, cfg: Config, sdk: Headers)
    ensures Build(ListImages, p, cfg, sdk).Success?
    ensures Build(ListImages, p, cfg, sdk).value.qs == Place(EndpointOf(ListImages).query, p.fields)
  {
    var e := EndpointOf(ListImages);
    assert e.required == [];
    assert Build(ListImages, p, cfg, sdk) == Assemble(e, p, cfg, sdk);
  }

  /** `listImages` sends `includeIbm` under the query key `includeIBM` and never under its own name. */
  lemma ListImagesIncludeIbmQueryKey(p: Params, cfg: Config, sdk: Headers)
    ensures Build(ListImages, p, cfg, sdk).Success?
    ensures var qs := Build(ListImages, p, cfg, sdk).value.qs;
      && ("includeIBM" in qs <==> "includeIbm" in p.fields)
      && ("includeIbm" in p.fields ==> qs["includeIBM"] == p.fields["includeIbm"])
      && "includeIbm" !in qs
  {
    ListImagesBuild(p, cfg, sdk);
    IncludeIbmRoute(p.fields);
  }

  lemma IncludeIbmRoute(fields: map<string, Value>)
    ensures var qs := Place(EndpointOf(ListImages).query, fields);
      && ("includeIBM" in qs <==> "includeIbm" in fields)
      && ("includeIbm" in fields ==> qs["includeIBM"] == fields["includeIbm"])
      && "includeIbm" !in qs
  {
    var routes := EndpointOf(ListImages).query;
    assert routes[1] == Route("includeIbm", "includeIBM");
    assert forall i :: 0 <= i < |routes| ==> routes[i].wire != "includeIbm";
    PlacedUnder(routes, fields, 1);
    NeverPlaced(routes, fields, "includeIbm");
  }

  /** `bulkDeleteImages` sends the `bulkDelete` list itself as the body, not an object holding it. */
  lemma BulkDeleteSendsListUnwrapped(p: Params, cfg: Config, sdk: Headers)
    ensures "bulkDelete" in p.fields ==>
      Build(BulkDeleteImages, p, cfg, sdk).Success? &&
      Build(BulkDeleteImages, p, cfg, sdk).value.body == Raw(p.fields["bulkDelete"])
    ensures "bulkDelete" !in p.fields ==>
      Build(BulkDeleteImages, p, cfg, sdk) == Failure(MissingRequiredParameters(["bulkDelete"]))
  {
    var e := EndpointOf(BulkDeleteImages);
    assert e.required == ["bulkDelete"] && e.body == WholeParam("bulkDelete");
    var r := Build(BulkDeleteImages, p, cfg, sdk);
    assert r == Assemble(e, p, cfg, sdk);
    if "bulkDelete" !in p.fields {
      assert Missing(e.required, p.fields) == ["bulkDelete"];
    }
  }

  /** The operations whose URL template has a placeholder. */
  predicate PathOperation(op: Op)
  {
    op in {DeleteImage, InspectImage, GetImageManifest, CreateNamespace, AssignNamespace, DeleteNamespace,
           GetRetentionPolicy, DeleteImageTag, RestoreTags, RestoreImage}
  }

  /**
   * The URL template of a path operation names exactly one parameter, under
   * its own name, as a placeholder; the operation sends no query and no body.
   */
  lemma PathTemplate(op: Op)
    requires PathOperation(op)
    ensures var e := EndpointOf(op);
      && |e.path| == 1 && e.path[0].wire == e.path[0].param && e.path[0].param in e.required
      && Param(e.path[0].param) in e.url
      && e.query == [] && e.body == NoBodySent
  {
  }

  /**
   * A path operation puts its one required value under its own key in `path`,
   * sends no query and no body, and leaves the matching placeholder in the
   * URL template for the transport to fill.
   */
  lemma PathParameterPlacement(op: Op, p: Params, cfg: Config, sdk: Headers)
    requires PathOperation(op)
    requires Build(op, p, cfg, sdk).Success?
    ensures var d := Build(op, p, cfg, sdk).value;
      && |d.path| == 1
      && (forall k :: k in d.path ==> k in p.fields && d.path[k] == p.fields[k] && HasPlaceholder(Render(d.url), k))
      && d.qs == map[] && d.body == NoBody
    ensures var d, e := Build(op, p, cfg, sdk).value, EndpointOf(op);
      && |e.path| == 1 && e.path[0].param in p.fields
      && d.path == map[e.path[0].param := p.fields[e.path[0].param]]
      && d.url == e.url
  {
    var e := EndpointOf(op);
    PathTemplate(op);
    assert Build(op, p, cfg, sdk) == Assemble(e, p, cfg, sdk);
    SinglePath(e, p, cfg, sdk);
  }

  /** Assembling a request whose one route is a path parameter named by a placeholder of the template. */
  lemma SinglePath(e: Endpoint, p: Params, cfg: Config, sdk: Headers)
    requires |e.path| == 1 && e.path[0].wire == e.path[0].param && e.path[0].param in e.required
    requires Param(e.path[0].param) in e.url
    requires e.query == [] && e.body == NoBodySent
    requires Assemble(e, p, cfg, sdk).Success?
    ensures var d := Assemble(e, p, cfg, sdk).value;
      && |d.path| == 1
      && (forall k :: k in d.path ==> k in p.fields && d.path[k] == p.fields[k] && HasPlaceholder(Render(d.url), k))
      && d.qs == map[] && d.body == NoBody
    ensures var d, key := Assemble(e, p, cfg, sdk).value, e.path[0].param;
      key in p.fields && d.path == map[key := p.fields[key]] && d.url == e.url
  {
    var key := e.path[0].param;
    assert e.path == [Same(key)];
    var d := Assemble(e, p, cfg, sdk).value;
    assert d.path == Place([Same(key)], p.fields);
    assert d.path == map[key := p.fields[key]];
    RenderedPlaceholder(e.url, key);
  }

  /** Every other operation sends an empty `path`. */
  lemma NoPathParameter(op: Op, p: Params, cfg: Config, sdk: Headers)
    requires !PathOperation(op)
    requires Build(op, p, cfg, sdk).Success?
    ensures Build(op, p, cfg, sdk).value.path == map[]
  {
    assert EndpointOf(op).path == [];
    assert Build(op, p, cfg, sdk) == Assemble(EndpointOf(op), p, cfg, sdk);
  }
}
