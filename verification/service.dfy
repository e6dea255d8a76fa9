/**
 * The client object: its construction from user options, the `newInstance`
 * factory, and the per-operation entry point that builds a request descriptor
 * from the client's account, service URL and default headers.
 */
module Service {
  import opened Wrappers
  import opened Requests
  import opened Operations
  import opened Properties

  const DefaultServiceUrl := "https://icr.io"
  const DefaultServiceName := "container_registry"

  /** The authenticator a client carries; the client only stores it. */
  datatype Authenticator = Authenticator(kind: string)

  /**
   * Why `newInstance` produced no client: the constructor rejected the
   * options, or the environment held no credentials for the service name.
   */
  datatype SetupError = Rejected(error: ValidationError) | NoCredentials(serviceName: string)

  /** JavaScript truthiness of an optional string: present and not empty. */
  predicate Truthy(s: Option<string>)
  {
    s.Some? && s.value != ""
  }

  /** The options object callers pass; `newInstance` fills two of its fields in place. */
  class UserOptions {
    var account: Option<string>
    var serviceUrl: Option<string>
    var serviceName: Option<string>
    var authenticator: Option<Authenticator>
    var headers: Headers

    constructor (account: Option<string>, serviceUrl: Option<string>, serviceName: Option<string>,
                 authenticator: Option<Authenticator>, headers: Headers)
      ensures this.account == account && this.serviceUrl == serviceUrl && this.serviceName == serviceName
      ensures this.authenticator == authenticator && this.headers == headers
    {
      this.account := account;
      this.serviceUrl := serviceUrl;
      this.serviceName := serviceName;
      this.authenticator := authenticator;
      this.headers := headers;
    }
  }

  class ContainerRegistryV1 {
    var account: string
    var serviceUrl: string
    var serviceName: Option<string>
    var authenticator: Option<Authenticator>
    var headers: Headers

    /**
     * The constructor once the `account` check has passed: the caller's
     * service URL when it is truthy, the global registry otherwise.
     */
    constructor (options: UserOptions)
      requires options.account.Some?
      ensures account == options.account.value
      ensures serviceUrl == if Truthy(options.serviceUrl) then options.serviceUrl.value else DefaultServiceUrl
      ensures serviceName == options.serviceName && authenticator == options.authenticator
      ensures headers == options.headers
    {
      account := options.account.value;
      serviceName := options.serviceName;
      authenticator := options.authenticator;
      headers := options.headers;
      if Truthy(options.serviceUrl) {
        serviceUrl := options.serviceUrl.value;
      } else {
        serviceUrl := DefaultServiceUrl;
      }
    }

    /** `new ContainerRegistryV1(options)`: rejects options without an account, before anything is built. */
    static method Create(options: UserOptions) returns (r: Result<ContainerRegistryV1, ValidationError>)
      ensures r.Failure? <==> options.account.None?
      ensures r.Failure? ==> r.error == MissingRequiredParameters(["account"])
      ensures r.Success? ==> fresh(r.value) && r.value.account == options.account.value
      ensures r.Success? ==> r.value.serviceUrl == if Truthy(options.serviceUrl) then options.serviceUrl.value
                                                  else DefaultServiceUrl
      ensures r.Success? ==> r.value.serviceName == options.serviceName
      ensures r.Success? ==> r.value.authenticator == options.authenticator && r.value.headers == options.headers
    {
      if options.account.None? {
        return Failure(MissingRequiredParameters(["account"]));
      }
      var service := new ContainerRegistryV1(options);
      return Success(service);
    }

    method SetServiceUrl(url: string)
      modifies this
      ensures serviceUrl == url
      ensures account == old(account) && serviceName == old(serviceName)
      ensures authenticator == old(authenticator) && headers == old(headers)
    {
      serviceUrl := url;
    }

    /**
     * `configureService`: takes the URL the external configuration holds
     * for this service name, when it holds one.
     */
    method ConfigureService(configuredUrl: Option<string>)
      modifies this
      ensures serviceUrl == if configuredUrl.Some? then configuredUrl.value else old(serviceUrl)
      ensures account == old(account) && serviceName == old(serviceName)
      ensures authenticator == old(authenticator) && headers == old(headers)
    {
      if configuredUrl.Some? {
        SetServiceUrl(configuredUrl.value);
      }
    }

    /**
     * Operation `op` called on this client: the descriptor its method hands
     * to `createRequest`, carrying this client's URL and account.
     */
    function Request(op: Op, p: Params, sdk: Headers): (r: Result<Descriptor, ValidationError>)
      reads this
      ensures r.Failure? <==> exists n :: n in EndpointOf(op).required && n !in p.fields
      ensures r.Success? ==> r.value.serviceUrl == serviceUrl
      ensures r.Success? && op != GetMessages && "Account" !in p.headers ==>
        "Account" in r.value.headers && r.value.headers["Account"] == Str(account)
    {
      var cfg := Config(account, serviceUrl, headers);
      var r := Build(op, p, cfg, sdk);
      assert r.Success? ==> r == Assemble(EndpointOf(op), p, cfg, sdk);
      AccountHeader(op, p, cfg, sdk);
      r
    }
  }

  /**
   * `newInstance`: fills in the default service name and an authenticator
   * from the environment when the options lack them (in place), constructs
   * the client, applies the external configuration, and lets a truthy
   * `serviceUrl` option win over both. The environment lookup yields nothing
   * when no credentials are configured for the service name; the factory
   * then fails before the constructor runs.
   */
  method NewInstance(options: UserOptions, environment: string -> Option<Authenticator>,
                     configuredUrl: string -> Option<string>)
    returns (r: Result<ContainerRegistryV1, SetupError>)
    modifies options
    ensures options.serviceName == if Truthy(old(options.serviceName)) then old(options.serviceName)
                                   else Some(DefaultServiceName)
    ensures options.authenticator == if old(options.authenticator).Some? then old(options.authenticator)
                                     else environment(options.serviceName.value)
    ensures options.account == old(options.account) && options.serviceUrl == old(options.serviceUrl)
    ensures options.headers == old(options.headers)
    ensures r.Failure? <==> options.authenticator.None? || options.account.None?
    ensures options.authenticator.None? ==> r == Failure(NoCredentials(options.serviceName.value))
    ensures options.authenticator.Some? && options.account.None? ==>
              r == Failure(Rejected(MissingRequiredParameters(["account"])))
    ensures r.Success? ==> fresh(r.value)
    ensures r.Success? ==> r.value.account == options.account.value
    ensures r.Success? ==> r.value.authenticator.Some? && r.value.authenticator == options.authenticator
    ensures r.Success? ==> r.value.serviceName == options.serviceName && r.value.headers == options.headers
    ensures r.Success? ==>
              r.value.serviceUrl ==
                if Truthy(options.serviceUrl) then options.serviceUrl.value
                else if configuredUrl(options.serviceName.value).Some? then configuredUrl(options.serviceName.value).value
                else DefaultServiceUrl
  {
    if !Truthy(options.serviceName) {
      options.serviceName := Some(DefaultServiceName);
    }
    if options.authenticator.None? {
      var found := environment(options.serviceName.value);
      if found.None? {
        return Failure(NoCredentials(options.serviceName.value));
      }
      options.authenticator := found;
    }
    var created := ContainerRegistryV1.Create(options);
    if created.Failure? {
      return Failure(Rejected(created.error));
    }
    var service := created.value;
    service.ConfigureService(configuredUrl(options.serviceName.value));
    if Truthy(options.serviceUrl) {
      service.SetServiceUrl(options.serviceUrl.value);
    }
    r := Success(service);
  }
}
