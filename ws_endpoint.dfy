/**
 * `parse_ws_url`, the minimal `ws://host:port/path` parser shared, word for
 * word, by the C++ SDK and the command-line toolbox client.
 */
module WsEndpoint {
  import opened Wrappers

  /** The parts a client connects with. */
  datatype Endpoint = Endpoint(host: string, port: string, target: string)

  const PREFIX: string := "ws://"
  const DEFAULT_PORT: string := "80"

  /** `s.find(c)`: the first position of `c`, or none. */
  function Find(s: string, c: char): (r: Option<nat>)
    ensures r.None? <==> c !in s
    ensures r.Some? ==> r.value < |s| && s[r.value] == c && c !in s[..r.value]
  {
    if s == [] then None
    else if s[0] == c then Some(0)
    else match Find(s[1..], c)
      case None => None
      case Some(i) =>
        assert s[..i + 1] == [s[0]] + s[1..][..i];
        Some(i + 1)
  }

  /**
   * `parse_ws_url(url, out)`: the verdict and `out` afterwards. A URL without
   * the `ws://` prefix fails and leaves `out` as it was; otherwise every field
   * is written and the verdict is whether the host is non-empty.
   */
  function ParseWsUrl(url: string, out: Endpoint): (r: (bool, Endpoint))
    ensures !(|url| >= |PREFIX| && url[..|PREFIX|] == PREFIX) ==> r == (false, out)
    ensures r.0 <==> r.1.host != "" && |url| >= |PREFIX| && url[..|PREFIX|] == PREFIX
    ensures r.0 ==> ':' !in r.1.host && '/' !in r.1.host && r.1.port != "" && '/' !in r.1.port
    ensures r.0 ==> r.1.target != [] && r.1.target[0] == '/'
  {
    if !(|url| >= |PREFIX| && url[..|PREFIX|] == PREFIX) then (false, out)
    else
      var s := url[|PREFIX|..];
      var slash := Find(s, '/');
      if slash.None? then SplitHostPort(s, "/")
      else SplitHostPort(s[..slash.value], s[slash.value..])
  }

  /** The host and port halves of `parse_ws_url`, once the target is split off. */
  function SplitHostPort(hostport: string, target: string): (r: (bool, Endpoint))
    requires '/' !in hostport
    ensures r.0 <==> r.1.host != ""
    ensures ':' !in r.1.host && '/' !in r.1.host && r.1.port != "" && '/' !in r.1.port
    ensures r.1.target == target
  {
    var colon := Find(hostport, ':');
    var host := if colon.None? then hostport else hostport[..colon.value];
    var port := if colon.None? then DEFAULT_PORT else hostport[colon.value + 1..];
    var port' := if port == "" then DEFAULT_PORT else port;
    (host != "", Endpoint(host, port', target))
  }

  /** The URL of an endpoint, with its port written out. */
  function Render(e: Endpoint): (url: string)
    ensures |url| >= |PREFIX| && url[..|PREFIX|] == PREFIX
  {
    PREFIX + e.host + ":" + e.port + e.target
  }

  /** The target is everything from the first slash after the prefix. */
  lemma SplitPath(hostport: string, target: string, out: Endpoint)
    requires '/' !in hostport && target != [] && target[0] == '/'
    ensures ParseWsUrl(PREFIX + hostport + target, out) == SplitHostPort(hostport, target)
  {
    var url := PREFIX + hostport + target;
    var s := url[|PREFIX|..];
    assert s == hostport + target;
    var i := |hostport|;
    assert s[..i] == hostport && s[i] == '/';
    FindFirst(s, '/', i);
    assert s[i..] == target;
  }

  /** The host is the text before the first colon, the port the text after it, or 80 when that is empty. */
  lemma SplitColon(host: string, port: string, target: string)
    requires ':' !in host && '/' !in host && '/' !in port
    ensures SplitHostPort(host + ":" + port, target)
            == (host != "", Endpoint(host, if port == "" then DEFAULT_PORT else port, target))
  {
    var hp := host + ":" + port;
    var i := |host|;
    assert hp[..i] == host && hp[i] == ':';
    FindFirst(hp, ':', i);
    assert hp[i + 1..] == port;
  }

  /** The URL a well-formed endpoint renders to parses back to that endpoint. */
  lemma ParseRender(e: Endpoint, out: Endpoint)
    requires e.host != "" && ':' !in e.host && '/' !in e.host
    requires e.port != "" && '/' !in e.port
    requires e.target != [] && e.target[0] == '/'
    ensures ParseWsUrl(Render(e), out) == (true, e)
  {
    var hp := e.host + ":" + e.port;
    assert Render(e) == PREFIX + hp + e.target;
    SplitPath(hp, e.target, out);
    SplitColon(e.host, e.port, e.target);
  }

  /** Without a port the client connects to port 80, and without a path to "/". */
  lemma ParseDefaults(host: string, out: Endpoint)
    requires host != "" && ':' !in host && '/' !in host
    ensures ParseWsUrl(PREFIX + host, out) == (true, Endpoint(host, DEFAULT_PORT, "/"))
  {
    var url := PREFIX + host;
    assert url[|PREFIX|..] == host;
  }

  /** An empty port after the colon also falls back to port 80. */
  lemma ParseEmptyPort(host: string, target: string, out: Endpoint)
    requires host != "" && ':' !in host && '/' !in host
    requires target != [] && target[0] == '/'
    ensures ParseWsUrl(PREFIX + host + ":" + target, out) == (true, Endpoint(host, DEFAULT_PORT, target))
  {
    var hp := host + ":" + "";
    assert PREFIX + host + ":" + target == PREFIX + hp + target;
    SplitPath(hp, target, out);
    SplitColon(host, "", target);
  }

  /** `Find` is pinned down by the first occurrence. */
  lemma FindFirst(s: string, c: char, i: nat)
    requires i < |s| && s[i] == c && c !in s[..i]
    ensures Find(s, c) == Some(i)
  {
    var r := Find(s, c);
    assert r.Some?;
    assert r.value <= i by {
      assert s[i] == c;
    }
  }
}
