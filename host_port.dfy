/** Endpoint specifications of the form `host[:port]`, as `get_host_port`
    and `_parse_options` read them. */
module HostPort {
  import opened PyBuiltins

  /** `SSH_PORT`: the default port of the server and of the destination. */
  const SshPort: int := 22

  datatype Endpoint = Endpoint(host: string, port: int)

  /** The index of the first colon of `s`, or `|s|` when it has none. */
  function FirstColon(s: string): (i: nat)
    ensures i <= |s|
    ensures forall j :: 0 <= j < i ==> s[j] != ':'
    ensures i < |s| ==> s[i] == ':'
  {
    if s == [] || s[0] == ':' then 0 else 1 + FirstColon(s[1..])
  }

  /** `get_host_port(spec, default_port)`: split at the first colon
      (`split(':', 1)`), fall back to the default port when there is none,
      and put the port text through `int()`, whose `ValueError` escapes. */
  function GetHostPort(spec: string, defaultPort: int): (r: Result<Endpoint>)
    ensures r.Err? ==> r.error == ValueError && ':' in spec
    ensures r.Ok? ==> ':' !in r.value.host && r.value.host <= spec
  {
    var i := FirstColon(spec);
    if i == |spec| then Ok(Endpoint(spec, defaultPort))
    else
      match IntOfStr(spec[i + 1..])
      case Some(p) => Ok(Endpoint(spec[..i], p))
      case None => Err(ValueError)
  }

  /** `"%s:%d" % (host, port)`, the form the tunnel prints endpoints in. */
  function FormatEndpoint(e: Endpoint): string {
    e.host + ":" + DecimalString(e.port)
  }

  /** Without a colon the whole text is the host and the port is the
      default. */
  lemma GetHostPortNoColon(spec: string, defaultPort: int)
    requires ':' !in spec
    ensures GetHostPort(spec, defaultPort) == Ok(Endpoint(spec, defaultPort))
  {
  }

  /** With a colon, the host is the text before the first one and the port
      is `int()` of everything after it; the call fails exactly when that
      text is not an integer literal. */
  lemma GetHostPortSplit(host: string, portText: string, defaultPort: int)
    requires ':' !in host
    ensures GetHostPort(host + ":" + portText, defaultPort) ==
            match IntOfStr(portText)
            case Some(p) => Ok(Endpoint(host, p))
            case None => Err(ValueError)
  {
    var spec := host + ":" + portText;
    var i := FirstColon(spec);
    assert spec[|host|] == ':';
    assert i == |host|;
    assert spec[..i] == host;
    assert spec[i + 1..] == portText;
  }

  /** A second colon lands in the port text, which `int()` then rejects. */
  lemma GetHostPortSecondColon(host: string, middle: string, tail: string, defaultPort: int)
    requires ':' !in host
    ensures GetHostPort(host + ":" + middle + ":" + tail, defaultPort) == Err(ValueError)
  {
    var portText := middle + ":" + tail;
    assert host + ":" + middle + ":" + tail == host + ":" + portText;
    GetHostPortSplit(host, portText, defaultPort);
    assert portText[|middle|] == ':';
    ColonIsNotInt(portText);
  }

  /** Parsing a formatted endpoint gives it back, whatever the default. */
  lemma GetHostPortRoundTrip(e: Endpoint, defaultPort: int)
    requires ':' !in e.host
    ensures GetHostPort(FormatEndpoint(e), defaultPort) == Ok(e)
  {
    GetHostPortSplit(e.host, DecimalString(e.port), defaultPort);
    IntOfStrRoundTrip(e.port);
  }

  /** `_parse_options`: the server and the destination are both read with
      `SSH_PORT` as their default port; the server is parsed first. */
  function ParseOptions(server: string, remote: string): (r: Result<(Endpoint, Endpoint)>)
    ensures r.Ok? <==> GetHostPort(server, SshPort).Ok? && GetHostPort(remote, SshPort).Ok?
    ensures r.Ok? ==> r.value.0 == GetHostPort(server, SshPort).value
    ensures r.Ok? ==> r.value.1 == GetHostPort(remote, SshPort).value
  {
    match GetHostPort(server, SshPort)
    case Err(e) => Err(e)
    case Ok(s) =>
      match GetHostPort(remote, SshPort)
      case Err(e) => Err(e)
      case Ok(d) => Ok((s, d))
  }

  /** Endpoints written without a port both get port 22. */
  lemma ParseOptionsDefaults(server: string, remote: string)
    requires ':' !in server && ':' !in remote
    ensures ParseOptions(server, remote) == Ok((Endpoint(server, 22), Endpoint(remote, 22)))
  {
    GetHostPortNoColon(server, SshPort);
    GetHostPortNoColon(remote, SshPort);
  }
}
