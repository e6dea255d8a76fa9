# IBM Cloud Container Registry client, request building

This project models the `ContainerRegistryV1` client of the IBM Cloud Container
Registry Node SDK. It covers what the client does before any network traffic.

- **Region table.** A static map from region key to registry host, with the lookup
  `getServiceUrlForRegion`.
- **Construction.** `account` is required. The service URL is the caller's
  `serviceUrl` when it is truthy, and `https://icr.io` otherwise. The `newInstance`
  factory fills in the service name and authenticator in place, then lets the
  external configuration, and after that an explicit `serviceUrl`, set the URL.
- **The 29 operation methods.** Each method copies its parameter bag and checks a
  fixed list of required names. It then places every parameter in exactly one of
  the URL path, the query, the JSON body or, for `xAuthResourceGroup`, the
  `X-Auth-Resource-Group` header, under a fixed wire name. Finally it
  merges headers in a fixed order: the client's default options, then the SDK
  headers, then the operation's defaults (`Accept`, `Content-Type`, `Account`,
  `X-Auth-Resource-Group`), then the caller's `headers`. Later layers win. The result
  is the request descriptor handed to `createRequest`.

The modules:

- **Wrappers** holds `Option` and `Result`.
- **Regions** holds the region table and its lookup.
- **Requests** holds the shared shapes:
  - the parameter bag, header maps and URL templates;
  - the descriptor;
  - the required-parameter check (`Missing`);
  - the right-biased header merge (`Extend`);
  - wire-name placement (`Place`).
- **Operations** holds the routing table. `EndpointOf` has one row per method. The
  generic `Assemble` performs the shared steps, and `Build` is one call of one
  operation.
- **Properties** states what the operations promise.
- **Service** models the client as a class with a constructor, the factory, and a
  per-client `Request` entry point.

Conventions:

- An optional parameter the caller leaves out creates no entry. An undefined
  member disappears when the body is serialised or when the header objects are
  merged, so this follows the code. The query object handed to `createRequest`
  does keep its undefined members; they are treated as absent here because the
  transport drops them when it builds the query string.
- A method that builds no query or path object gets an empty map.
- A URL template is a sequence of literal text and `{name}` placeholder segments.
  `Render` turns it back into the string the source writes.

## Model

| member | source | states |
|---|---|---|
| Regions.MapOf | container-registry/v1.ts:43-57 | The `Map` built from the entry list has exactly the listed keys. With distinct keys, each key maps to the host its entry gives. |
| Regions.MapOfSize | container-registry/v1.ts:43-57 | With distinct keys, the map has one entry per listed pair. |
| Regions.RegionKeysDistinct | container-registry/v1.ts:43-57 | No region key is listed twice, so every entry can be reached by its key. |
| Regions.RegionTableSize | container-registry/v1.ts:43-57 | The region map has thirteen keys. |
| Regions.ServiceUrlForRegion | container-registry/v1.ts:65-67 | The lookup is absent exactly when no entry has the key. Otherwise it returns that entry's host. It never fails. |
| Regions.RegionHosts | container-registry/v1.ts:43-67 | Each of the thirteen keys resolves to its listed host. |
| Regions.RegionAliases | container-registry/v1.ts:45-53 | `uk-south`/`eu-gb`, `eu-central`/`eu-de`, `ap-north`/`jp-tok` and `ap-south`/`au-syd` share a host. |
| Regions.UnknownRegionIsAbsent | container-registry/v1.ts:65-67 | Any key outside the thirteen gives absent, not an error. |
| Requests.Missing | container-registry/v1.ts:148-153 | The names reported missing are exactly the required names absent from the bag. The list is empty exactly when every required name is present, and never longer than the required list. |
| Requests.MissingInListedOrder | container-registry/v1.ts:148-153 | The missing names sit at strictly increasing positions of the required list: they are reported in the order the method lists them, each listing once. |
| Requests.Extend | container-registry/v1.ts:162-172 | The merged header keys are the union of both key sets. The overriding map wins on shared keys, and the base survives elsewhere. |
| Requests.Place | container-registry/v1.ts:270-277 | A present parameter appears under its wire name. Every wire name present comes from a route whose parameter is present. With distinct wire names, the value is the parameter's value, unchanged. |
| Requests.RenderedPlaceholder | container-registry/v1.ts:492 | A placeholder segment of a template shows up as `{name}` in the rendered URL string. |
| Operations.EndpointOf | container-registry/v1.ts:144-1596 | The routing table. `Account` is a default on every method except `getMessages`. `Content-Type` is a default exactly when a body is sent. `X-Auth-Resource-Group` is a default exactly on `createNamespace` and `assignNamespace`. Only `tagImage`, `deleteNamespace` and `restoreImage` lack both media headers. Only `bulkDeleteImages` sends a whole parameter as the body, and that parameter is required. The 15 methods with an empty required list are listed. |
| Operations.EndpointsWellFormed | container-registry/v1.ts:144-1596 | In every method, each parameter goes to exactly one place and no wire name repeats within a location. Every required name is routed, and `Content-Type` is set exactly when a body is sent. |
| Operations.DefaultHeaders | container-registry/v1.ts:165-169 | Each default header is present exactly when the method sets it, and no other header is. `X-Auth-Resource-Group` also needs the parameter to be present. The media headers are `application/json`, `Account` is the client's account, and the resource-group header carries the parameter's value. |
| Operations.BodyOf | container-registry/v1.ts:201-204 | No body; or an object whose members are the routes placed over the bag, each present parameter under its wire name; or the parameter itself. An absent whole-body parameter gives no body. |
| Properties.EveryFieldsBodyRenames | container-registry/v1.ts:377-382 | For every method that sends an object literal (`updateAuth`, `listImageDigests`, `updatePlans`, `updateQuota`, `updateSettings`, the retention methods), each route's wire member is present exactly when its parameter is and holds its value; no other member appears. |
| Operations.MergeHeaders | container-registry/v1.ts:162-172 | The final header keys are the union of the four layers. Per key, the caller wins over the defaults, the defaults win over the SDK headers, and those win over the client's default options. |
| Operations.Assemble | container-registry/v1.ts:147-175 | It fails exactly when a required name is missing, and then reports exactly the missing names. On success the descriptor carries the client's URL, the template, the verb and the body. Its path and query map each routed parameter that is present, and nothing else. Its headers are the four-layer merge. |
| Operations.Build | container-registry/v1.ts:144-1596 | A call of one operation fails exactly when one of that operation's required names is absent. |
| Properties.PlacedUnder | container-registry/v1.ts:270-277 | With distinct wire names, a route's wire entry is present exactly when its parameter is, and holds the parameter's value. |
| Properties.NeverPlaced | container-registry/v1.ts:270-277 | A wire name no route uses never appears. |
| Properties.EmptyBagBuildsExactlyWhenNothingRequired | container-registry/v1.ts:148-153 | The empty bag is accepted exactly by the 15 methods with no required names. Those methods accept every bag. |
| Properties.TagImageNeedsBothImages | container-registry/v1.ts:427-432 | `tagImage` builds exactly when both `fromimage` and `toimage` are present. With both absent, the error names both, in that order. |
| Properties.AssignNamespaceNeedsGroupAndName | container-registry/v1.ts:812-817 | `assignNamespace` builds exactly when `xAuthResourceGroup` and `name` are present. With both absent, the error names both, in that order. |
| Properties.CallerHeadersTakePrecedence | test/unit/container-registry.v1.test.js:151-164 | Every header the caller passes reaches the descriptor unchanged, replacing any default of the same name. |
| Properties.AccountHeader | container-registry/v1.ts:642-650 | For every call that builds and whose caller headers lack `Account`: `Account` is the client's account on every method except `getMessages`. There it is present only when the SDK or client headers supply it. |
| Properties.GetMessagesSetsOnlyAccept | container-registry/v1.ts:642-650 | The only default `getMessages` sets is `Accept: application/json`. |
| Properties.ContentTypeExactlyWithBody | container-registry/v1.ts:218-221 | The `Content-Type` default is present exactly when the built descriptor has a body. |
| Properties.NoMediaHeaders | container-registry/v1.ts:886-888 | On `tagImage`, `deleteNamespace` and `restoreImage`, `Accept` and `Content-Type` are present only when the caller, the SDK or the client's defaults supply them. |
| Properties.ResourceGroupHeader | container-registry/v1.ts:838 | `createNamespace` and `assignNamespace` send `xAuthResourceGroup` as `X-Auth-Resource-Group`, and `assignNamespace` always does. No other method sets it itself. |
| Properties.UpdateAuthBodyRenames | container-registry/v1.ts:201-204 | The `updateAuth` body has at most `iam_authz` and `private_only`. Each is present exactly when `iamAuthz` or `privateOnly` is, with the same value. |
| Properties.UpdateQuotaBodyRenames | container-registry/v1.ts:1060-1063 | The `updateQuota` body has at most `storage_megabytes` and `traffic_megabytes`. Each is present exactly when the camel-case input is, with the same value. |
| Properties.FieldsBodyOf | container-registry/v1.ts:1058-1063 | A method that requires nothing and sends an object body always builds, and its body is its routes applied to the bag. |
| Properties.RenamedPair | container-registry/v1.ts:201-204 | Two routes with different wire names yield at most those two members. Each is present exactly when its parameter is, with the same value. |
| Properties.RetentionBodiesAgree | container-registry/v1.ts:1161-1165 | `setRetentionPolicy` and `analyzeRetentionPolicy` accept the same bags, exactly those holding `namespace`, and send the same body. |
| Properties.RetentionBuild | container-registry/v1.ts:1217-1221 | Either retention method builds exactly when `namespace` is present and sends the retention body. |
| Properties.RetentionBodyMembers | container-registry/v1.ts:1161-1165 | The retention body has at most `namespace`, `images_per_repo` and `retain_untagged`. Each is present exactly when its input is, with the same value. |
| Properties.ListImagesBuild | container-registry/v1.ts:262-277 | `listImages` always builds, and its query is its six query routes applied to the bag. |
| Properties.ListImagesIncludeIbmQueryKey | container-registry/v1.ts:272 | `listImages` sends `includeIbm` under the query key `includeIBM`, unchanged, and never under `includeIbm`. |
| Properties.IncludeIbmRoute | container-registry/v1.ts:270-277 | The `listImages` query routes map `includeIbm` to `includeIBM` and use no `includeIbm` key. |
| Properties.BulkDeleteSendsListUnwrapped | container-registry/v1.ts:318-325 | With `bulkDelete` present, the body is that value itself. Without it, the call fails naming `bulkDelete`. |
| Properties.PathTemplate | container-registry/v1.ts:492 | Each path method routes its one required parameter, under its own name, to the path. Its template holds that placeholder, and it sends no query and no body. |
| Properties.PathParameterPlacement | container-registry/v1.ts:484-494 | A built path method's path map is exactly its one parameter, keyed by the parameter's name and holding the caller's value; the URL is the method's template, unchanged. The rendered URL template still contains the matching placeholder. There is no query and no body. |
| Properties.SinglePath | container-registry/v1.ts:484-494 | Assembling a request with one same-named path route gives a path map holding exactly that parameter under its own name, the template unchanged, no query and no body. |
| Properties.NoPathParameter | container-registry/v1.ts:159 | Every method without a placeholder sends an empty path map. |
| Service.ContainerRegistryV1.constructor | container-registry/v1.ts:114-129 | The stored account is the option's. The service URL is the option's when truthy, `https://icr.io` otherwise. The headers, service name and authenticator are the options'. |
| Service.ContainerRegistryV1.Create | container-registry/v1.ts:114-121 | Construction fails with a missing-`account` error exactly when `account` is absent. Otherwise the new client holds the account and the service-URL choice. |
| Service.ContainerRegistryV1.SetServiceUrl | container-registry/v1.ts:123-127 | Sets the service URL and leaves the account, headers, name and authenticator alone. |
| Service.ContainerRegistryV1.ConfigureService | container-registry/v1.ts:92 | The external configuration's URL, when there is one, replaces the service URL. Nothing else changes. |
| Service.ContainerRegistryV1.Request | container-registry/v1.ts:162-172 | A call on the client fails exactly when a required name is missing. Otherwise it targets the client's service URL, and unless the caller overrides it, every method but `getMessages` sends the client's account. |
| Service.NewInstance | container-registry/v1.ts:83-99 | A falsy service name becomes `container_registry`, and a missing authenticator comes from the environment for that name; both are written back into the options. When neither the options nor the environment supply an authenticator, the factory fails with `NoCredentials` before constructing anything. Otherwise construction fails exactly when `account` is absent. On success the URL is the truthy `serviceUrl` option, else the externally configured URL, else `https://icr.io`. |

## Left out

- Transport: `createRequest`, `BaseService`, retries, authentication token handling and the response types. The model ends at the descriptor.
- Foreign library calls stand in as parameters:
  - `getSdkHeaders` is the `sdk` header map;
  - `configureService`'s external configuration lookup is `configuredUrl`;
  - `getAuthenticatorFromEnvironment` is `environment`, which yields nothing when no credentials are configured; that case stands for the exception the library raises.
- `lib/common` and the sdk-core library are not part of this model.
- `validateParams` is modelled only as the required-name check, with "missing" meaning absent from the bag. Its rejection of names outside `_validParams`, and the text of its error message, are not part of this model.
- The header merge is modelled as a flat right-biased union. A deep merge of nested header values is not modelled.
- Numbers are modelled as unbounded integers; JavaScript floating point is not modelled.
- Promises and asynchronous rejection become `Result` values.
- `options || {}` with a null options object: an options object whose fields are all absent plays that role.
- Whatever `BaseService` itself does with the service URL and the authenticator at construction is not part of this model. The constructor here stores both as given, including an absent authenticator.
- The retry enable/disable toggle is not modelled.
- `PathParameterPlacement` speaks of the URL template as a sequence of segments. Each table row writes the template the source writes as a string; `Render` gives that string back.
- Several body-sending methods set no `Accept` header: `setRetentionPolicy`, `updateAuth` and the other update methods send `Content-Type` and `Account` only.
