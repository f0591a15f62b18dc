/** Choosing the Sidetree node: from the caller's endpoint list, or by discovery for a domain. */
module Endpoints {
  import opened Wrappers
  import opened Types

  /** The endpoint list a call uses: discovered when a domain is given, the caller's otherwise. */
  function EndpointsInEffect(client: Client, domain: string, explicit: seq<Endpoint>): Result<seq<Endpoint>>
  {
    if domain == "" then Ok(explicit) else client.endpointService(domain)
  }

  /**
   * The URL of the first endpoint of the list in effect. Errors: both inputs
   * empty; discovery failing (wrapped); discovery finding nothing.
   */
  function GetEndpoint(client: Client, domain: string, explicit: seq<Endpoint>): (r: Result<string>)
    ensures domain == "" && |explicit| == 0 ==> r == Err("domain is empty and sidetree endpoints is empty")
    ensures domain != "" && client.endpointService(domain).Err? ==>
      r == Err("failed to get endpoints: " + client.endpointService(domain).error)
    ensures domain != "" && client.endpointService(domain) == Ok([]) ==> r == Err("list of endpoints is empty")
    ensures r.Ok? <==> EndpointsInEffect(client, domain, explicit).Ok? && |EndpointsInEffect(client, domain, explicit).value| > 0
    ensures r.Ok? ==> r.value == EndpointsInEffect(client, domain, explicit).value[0].url
  {
    if domain == "" && |explicit| == 0 then
      Err("domain is empty and sidetree endpoints is empty")
    else
      var endpoints :-
        if domain != "" then
          var discovered :- Wrap("failed to get endpoints: ", client.endpointService(domain));
          if |discovered| == 0 then Err("list of endpoints is empty") else Ok(discovered)
        else Ok(explicit);
      Ok(endpoints[0].url)
  }

  /** Without a domain the endpoint service is never consulted: any two clients agree. */
  lemma NoDiscoveryWithoutDomain(c1: Client, c2: Client, explicit: seq<Endpoint>)
    ensures GetEndpoint(c1, "", explicit) == GetEndpoint(c2, "", explicit)
    ensures |explicit| > 0 ==> GetEndpoint(c1, "", explicit) == Ok(explicit[0].url)
  {
  }

  /** With a domain the caller's endpoint list is ignored. */
  lemma DomainOverridesExplicit(client: Client, domain: string, e1: seq<Endpoint>, e2: seq<Endpoint>)
    requires domain != ""
    ensures GetEndpoint(client, domain, e1) == GetEndpoint(client, domain, e2)
  {
  }
}
