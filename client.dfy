/**
 * The client's public operations: apply the caller's options, check the
 * required ones, resolve the node's endpoint and configuration, and build
 * the request to post there. Posting is not modelled; what an operation
 * yields is the request and the endpoint it goes to, together with the
 * calls it made to the endpoint and configuration services.
 */
module DidClient {
  import opened Wrappers
  import opened Types
  import opened Options
  import opened Endpoints
  import opened Builders

  /** A call to one of the client's services. */
  datatype ServiceCall = Discover(domain: string) | FetchConfig(url: string)

  /** A request ready to be posted to `<endpoint>/operations`. */
  datatype Dispatch = Dispatch(endpoint: string, request: Bytes)

  datatype Submission = Submission(outcome: Result<Dispatch>, calls: seq<ServiceCall>)

  /** The recover options are checked in a fixed order: next recovery key, next update key, signing key. */
  function ValidateRecoverReq(opts: RecoverOpts): (r: Outcome)
    ensures opts.nextRecoveryPublicKey.None? ==> r == Fail("next recovery public key is required")
    ensures opts.nextRecoveryPublicKey.Some? && opts.nextUpdatePublicKey.None? ==>
      r == Fail("next update public key is required")
    ensures opts.nextRecoveryPublicKey.Some? && opts.nextUpdatePublicKey.Some? && opts.signingKey.None? ==>
      r == Fail("signing key is required")
    ensures r.Pass? <==>
      opts.nextRecoveryPublicKey.Some? && opts.nextUpdatePublicKey.Some? && opts.signingKey.Some?
  {
    if opts.nextRecoveryPublicKey.None? then Fail("next recovery public key is required")
    else if opts.nextUpdatePublicKey.None? then Fail("next update public key is required")
    else if opts.signingKey.None? then Fail("signing key is required")
    else Pass
  }

  /**
   * The discovery call `GetEndpoint` makes: one exactly when a domain is
   * given. The trace is written down from the domain, not observed from
   * `GetEndpoint`; that the endpoint service is indeed not consulted without
   * a domain is `Endpoints.NoDiscoveryWithoutDomain`.
   */
  function LookupCalls(domain: string): seq<ServiceCall>
  {
    if domain != "" then [Discover(domain)] else []
  }

  /**
   * What happens once the options are accepted: resolve the endpoint, fetch
   * its configuration, build the request with it; the first failure is the
   * outcome, and a build failure is wrapped with the operation's context.
   */
  function Submit(client: Client, domain: string, endpoints: seq<Endpoint>,
                  build: SidetreeConfig -> Result<Bytes>, context: string): (s: Submission)
    ensures domain == "" ==> forall c <- s.calls :: !c.Discover?
    ensures domain != "" ==> |s.calls| > 0 && s.calls[0] == Discover(domain)
    ensures GetEndpoint(client, domain, endpoints).Err? ==>
      s == Submission(Err(GetEndpoint(client, domain, endpoints).error), LookupCalls(domain))
    ensures s.outcome.Ok? ==>
      var url := s.outcome.value.endpoint;
      && GetEndpoint(client, domain, endpoints) == Ok(url)
      && client.configService(url).Ok?
      && build(client.configService(url).value) == Ok(s.outcome.value.request)
      && s.calls == LookupCalls(domain) + [FetchConfig(url)]
    ensures GetEndpoint(client, domain, endpoints).Ok? ==>
      var url := GetEndpoint(client, domain, endpoints).value;
      var config := client.configService(url);
      && s.calls == LookupCalls(domain) + [FetchConfig(url)]
      && (config.Err? ==> s.outcome == Err(config.error))
      && (config.Ok? && build(config.value).Err? ==> s.outcome == Err(context + build(config.value).error))
      && (config.Ok? && build(config.value).Ok? ==> s.outcome == Ok(Dispatch(url, build(config.value).value)))
  {
    match GetEndpoint(client, domain, endpoints)
    case Err(e) => Submission(Err(e), LookupCalls(domain))
    case Ok(url) =>
      var calls := LookupCalls(domain) + [FetchConfig(url)];
      match client.configService(url)
      case Err(e) => Submission(Err(e), calls)
      case Ok(config) =>
        match build(config)
        case Err(e) => Submission(Err(context + e), calls)
        case Ok(request) => Submission(Ok(Dispatch(url, request)), calls)
  }

  /** Update a DID: a missing signing key or next update key fails before any service is called. */
  method UpdateDID(client: Client, lib: Library, did: string, domain: string, options: seq<UpdateOpts -> UpdateOpts>)
    returns (r: Result<Dispatch>, calls: seq<ServiceCall>)
    ensures
      var opts := Applied(NoUpdateOpts, options);
      && (opts.signingKey.None? ==> r == Err("signing public key is required") && calls == [])
      && (opts.signingKey.Some? && opts.nextUpdatePublicKey.None? ==>
            r == Err("next update public key is required") && calls == [])
      && (opts.signingKey.Some? && opts.nextUpdatePublicKey.Some? ==>
            Submission(r, calls) ==
              Submit(client, domain, opts.sidetreeEndpoints,
                     config => UpdateRequestOf(lib, did, config, opts), "failed to build update request: "))
  {
    var opts := ApplyOptions(NoUpdateOpts, options);
    calls := [];
    if opts.signingKey.None? {
      return Err("signing public key is required"), calls;
    }
    if opts.nextUpdatePublicKey.None? {
      return Err("next update public key is required"), calls;
    }

    var sidetreeEndpoint := GetEndpoint(client, domain, opts.sidetreeEndpoints);
    calls := LookupCalls(domain);
    if sidetreeEndpoint.Err? {
      return Err(sidetreeEndpoint.error), calls;
    }
    calls := calls + [FetchConfig(sidetreeEndpoint.value)];
    var sidetreeConfig := client.configService(sidetreeEndpoint.value);
    if sidetreeConfig.Err? {
      return Err(sidetreeConfig.error), calls;
    }
    var req := BuildUpdateRequest(lib, did, sidetreeConfig.value, opts);
    if req.Err? {
      return Err("failed to build update request: " + req.error), calls;
    }
    r := Ok(Dispatch(sidetreeEndpoint.value, req.value));
  }

  /** Recover a DID: the recover options are validated before any service is called. */
  method RecoverDID(client: Client, lib: Library, did: string, domain: string, options: seq<RecoverOpts -> RecoverOpts>)
    returns (r: Result<Dispatch>, calls: seq<ServiceCall>)
    ensures
      var opts := Applied(NoRecoverOpts, options);
      && (ValidateRecoverReq(opts).Fail? ==> r == Err(ValidateRecoverReq(opts).error) && calls == [])
      && (ValidateRecoverReq(opts).Pass? ==>
            Submission(r, calls) ==
              Submit(client, domain, opts.sidetreeEndpoints,
                     config => RecoverRequestOf(lib, did, config, opts), "failed to build sidetree request: "))
  {
    var opts := ApplyOptions(NoRecoverOpts, options);
    calls := [];
    var valid := ValidateRecoverReq(opts);
    if valid.Fail? {
      return Err(valid.error), calls;
    }

    var sidetreeEndpoint := GetEndpoint(client, domain, opts.sidetreeEndpoints);
    calls := LookupCalls(domain);
    if sidetreeEndpoint.Err? {
      return Err(sidetreeEndpoint.error), calls;
    }
    calls := calls + [FetchConfig(sidetreeEndpoint.value)];
    var sidetreeConfig := client.configService(sidetreeEndpoint.value);
    if sidetreeConfig.Err? {
      return Err(sidetreeConfig.error), calls;
    }
    var req := BuildRecoverRequest(lib, did, sidetreeConfig.value, opts);
    if req.Err? {
      return Err("failed to build sidetree request: " + req.error), calls;
    }
    r := Ok(Dispatch(sidetreeEndpoint.value, req.value));
  }

  /** Deactivate a DID: a missing signing key fails before any service is called. */
  method DeactivateDID(client: Client, lib: Library, did: string, domain: string,
                       options: seq<DeactivateOpts -> DeactivateOpts>)
    returns (r: Result<Dispatch>, calls: seq<ServiceCall>)
    ensures
      var opts := Applied(NoDeactivateOpts, options);
      && (opts.signingKey.None? ==> r == Err("signing key is required") && calls == [])
      && (opts.signingKey.Some? ==>
            Submission(r, calls) ==
              Submit(client, domain, opts.sidetreeEndpoints,
                     config => BuildDeactivateRequest(lib, did, config, opts), "failed to build sidetree request: "))
  {
    var opts := ApplyOptions(NoDeactivateOpts, options);
    calls := [];
    if opts.signingKey.None? {
      return Err("signing key is required"), calls;
    }

    var sidetreeEndpoint := GetEndpoint(client, domain, opts.sidetreeEndpoints);
    calls := LookupCalls(domain);
    if sidetreeEndpoint.Err? {
      return Err(sidetreeEndpoint.error), calls;
    }
    calls := calls + [FetchConfig(sidetreeEndpoint.value)];
    var sidetreeConfig := client.configService(sidetreeEndpoint.value);
    if sidetreeConfig.Err? {
      return Err(sidetreeConfig.error), calls;
    }
    var req := BuildDeactivateRequest(lib, did, sidetreeConfig.value, opts);
    if req.Err? {
      return Err("failed to build sidetree request: " + req.error), calls;
    }
    r := Ok(Dispatch(sidetreeEndpoint.value, req.value));
  }
}
