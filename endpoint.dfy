/**
 * The host lookup of set_globus_endpoint and the command that sets the
 * default Globus endpoint.  The hostname, which the Python code reads from
 * socket.gethostname(), is a parameter.
 */
module Endpoint {
  import opened Common
  import opened PyStrings
  import opened DataFed

  /** The machines whose endpoint is known by name. */
  const HostToUuid: map<string, string> := map[
    "mac109728" := "1646e89e-f4f0-11e9-9944-0a8c187e8c12",
    "DESKTOP-LMIGRMD" := "407beeb6-fa7c-11e9-8a5d-0e35e66293c2"]

  /** The endpoint shared by the CADES condo login and compute nodes. */
  const CadesUuid := "57230a10-7ba2-11e7-8c3b-22000b9923ef"

  const CadesPrefixes: seq<string> := ["or-slurm-login", "or-condo-login", "or-slurm-c"]
  const CadesSuffix := ".ornl.gov"

  /** any(hostname.startswith(x) for x in prefixes) */
  function AnyPrefix(hostname: string, prefixes: seq<string>): bool {
    prefixes != [] && (StartsWith(hostname, prefixes[0]) || AnyPrefix(hostname, prefixes[1..]))
  }

  lemma {:induction false} AnyPrefixIff(hostname: string, prefixes: seq<string>)
    ensures AnyPrefix(hostname, prefixes) <==> exists k :: 0 <= k < |prefixes| && StartsWith(hostname, prefixes[k])
  {
    if prefixes != [] {
      AnyPrefixIff(hostname, prefixes[1..]);
      if exists k :: 0 <= k < |prefixes| && StartsWith(hostname, prefixes[k]) {
        var k :| 0 <= k < |prefixes| && StartsWith(hostname, prefixes[k]);
        if k > 0 {
          assert prefixes[1..][k - 1] == prefixes[k];
        }
      }
      if AnyPrefix(hostname, prefixes[1..]) {
        var k :| 0 <= k < |prefixes[1..]| && StartsWith(hostname, prefixes[1..][k]);
        assert prefixes[k + 1] == prefixes[1..][k];
      }
    }
  }

  /** A CADES condo node: one of the node prefixes and the ORNL domain. */
  predicate IsCadesHost(hostname: string) {
    AnyPrefix(hostname, CadesPrefixes) && EndsWith(hostname, CadesSuffix)
  }

  function UnknownHostMsg(hostname: string): string {
    "Globus Endpoint for Hostname: " + hostname + " is not known. Please enter into set_globus_endpoint()"
  }

  /**
   * The endpoint for a host: the table entry when there is one, the CADES
   * endpoint for a condo node, and a ValueError otherwise.
   */
  function ResolveEndpoint(hostname: string): (r: Result<string>)
    ensures hostname in HostToUuid ==> r == Ok(HostToUuid[hostname])
    ensures r.Ok? <==> hostname in HostToUuid || IsCadesHost(hostname)
    ensures r.Err? ==> r.error == ValueError(UnknownHostMsg(hostname))
  {
    if hostname in HostToUuid then Ok(HostToUuid[hostname])
    else if IsCadesHost(hostname) then Ok(CadesUuid)
    else Err(ValueError(UnknownHostMsg(hostname)))
  }

  /** A resolved endpoint is always one of the three known endpoints. */
  lemma ResolvedIsKnown(hostname: string)
    requires ResolveEndpoint(hostname).Ok?
    ensures ResolveEndpoint(hostname).value in HostToUuid.Values + {CadesUuid}
  {
  }

  /**
   * Off the table, a host resolves to CADES exactly when its name starts with
   * one of the condo prefixes and ends with ".ornl.gov".
   */
  lemma CadesFallback(hostname: string)
    requires hostname !in HostToUuid
    ensures ResolveEndpoint(hostname) == Ok(CadesUuid) <==>
              (exists k :: 0 <= k < |CadesPrefixes| && StartsWith(hostname, CadesPrefixes[k]))
              && EndsWith(hostname, CadesSuffix)
  {
    AnyPrefixIff(hostname, CadesPrefixes);
  }

  /** The named machines are not condo nodes, so the table and the fallback never disagree. */
  lemma TableHostsAreNotCades()
    ensures forall h :: h in HostToUuid ==> !IsCadesHost(h)
  {
    assert !EndsWith("mac109728", CadesSuffix);
    assert !EndsWith("DESKTOP-LMIGRMD", CadesSuffix);
  }

  function SetEndpointCommand(uuid: string): string {
    "ep default set " + uuid
  }

  /**
   * The calls set_globus_endpoint makes: nothing when the host is unknown,
   * otherwise one command whose exception, if any, passes through.  Its
   * reply is not inspected.
   */
  function EndpointRun(respond: seq<string> -> Response, log: seq<string>, hostname: string): (run: Run<()>)
    ensures ResolveEndpoint(hostname).Err? ==> run == Run(log, Err(ResolveEndpoint(hostname).error))
    ensures ResolveEndpoint(hostname).Ok? ==>
              run.log == log + [SetEndpointCommand(ResolveEndpoint(hostname).value)]
              && (run.result.Ok? <==> respond(run.log).Answered?)
  {
    match ResolveEndpoint(hostname)
    case Err(e) => Run(log, Err(e))
    case Ok(uuid) =>
      var l := log + [SetEndpointCommand(uuid)];
      match respond(l)
      case Raised(m) => Run(l, Err(GatewayError(m)))
      case Answered(_) => Run(l, Ok(()))
  }

  /** set_globus_endpoint(hostname) */
  method SetGlobusEndpoint(gw: Gateway, hostname: string) returns (r: Result<()>)
    modifies gw
    ensures Run(gw.log, r) == EndpointRun(gw.respond, old(gw.log), hostname)
  {
    var uuid := ResolveEndpoint(hostname);
    if uuid.Err? {
      return Err(uuid.error);
    }
    var com := "ep default set " + uuid.value;
    var resp := gw.Command(com);
    if resp.Raised? {
      return Err(GatewayError(resp.msg));
    }
    return Ok(());
  }

  /** Setting the endpoint issues at most one command, and only the endpoint command. */
  lemma EndpointSendsAtMostOne(respond: seq<string> -> Response, log: seq<string>, hostname: string)
    ensures var run := EndpointRun(respond, log, hostname);
            |log| <= |run.log| <= |log| + 1 && run.log[..|log|] == log
            && (|run.log| == |log| + 1 <==> ResolveEndpoint(hostname).Ok?)
  {
    var run := EndpointRun(respond, log, hostname);
    assert run.log[..|log|] == log;
  }
}
