/** Port links: the clickable `http://host:port` URLs built from a
    container's published ports. Pure; the parse of the daemon URL and the
    Host header of the incoming request are parameters. */
module Links {
  import opened Wrappers
  import opened Discovery

  /** One entry of a port's mapping list, as the daemon reports it. */
  datatype Binding = Binding(hostIp: Option<string>, hostPort: string)

  /** One key of `NetworkSettings.Ports`: a container port such as "80/tcp"
      and its mapping list, which the daemon reports as null for exposed but
      unpublished ports. */
  datatype PortEntry = PortEntry(containerPort: string, mappings: Option<seq<Binding>>)

  /** One `{container_port, host_port, link}` record. */
  datatype PortLink = PortLink(containerPort: string, hostPort: string, link: string)

  /** The hostname component of a URL, `urlparse(url).hostname`. */
  type UrlHostname = string -> Option<string>

  const WildcardIp := "0.0.0.0"
  const LoopbackIp := "127.0.0.1"
  const DefaultLinkHostname := "localhost"
  const Scheme := "http://"

  /** Python truthiness of an optional string: present and non-empty. */
  predicate Truthy(s: Option<string>) {
    s.Some? && s.value != ""
  }

  /** `s.split(":")[0]`: `s` up to, not including, its first colon. */
  function BeforeFirstColon(s: string): (r: string)
    ensures r <= s
    ensures ':' !in r
    ensures |r| < |s| ==> s[|r|] == ':'
  {
    if |s| == 0 || s[0] == ':' then "" else [s[0]] + BeforeFirstColon(s[1..])
  }

  /** The hostname a link to a port published by `host` points at.
      On host "local" the binding's address decides, and a wildcard or
      loopback address is replaced by the host the browser used to reach this
      service; its public hostname is not consulted. On other hosts the
      public hostname wins, then the hostname of the daemon URL, then
      "localhost". */
  function LinkHostname(host: Host, hostIp: Option<string>, urlHostname: UrlHostname, requestHost: string): (r: string)
    ensures host.name == LocalName && hostIp.GetOr(WildcardIp) in {WildcardIp, LoopbackIp} ==>
              r <= requestHost && ':' !in r && (|r| < |requestHost| ==> requestHost[|r|] == ':')
    ensures host.name == LocalName && hostIp.GetOr(WildcardIp) !in {WildcardIp, LoopbackIp} ==>
              r == hostIp.value
    ensures host.name != LocalName ==> r != ""
    ensures host.name != LocalName && Truthy(host.publicHostname) ==> r == host.publicHostname.value
    ensures host.name != LocalName && !Truthy(host.publicHostname) && Truthy(urlHostname(host.url)) ==>
              r == urlHostname(host.url).value
    ensures host.name != LocalName && !Truthy(host.publicHostname) && !Truthy(urlHostname(host.url)) ==>
              r == DefaultLinkHostname
  {
    if host.name == LocalName then
      var ip := hostIp.GetOr(WildcardIp);
      if ip == WildcardIp || ip == LoopbackIp then BeforeFirstColon(requestHost) else ip
    else if Truthy(host.publicHostname) then host.publicHostname.value
    else if Truthy(urlHostname(host.url)) then urlHostname(host.url).value
    else DefaultLinkHostname
  }

  /** `f"http://{hostname}:{port}"`: the link always names its port explicitly,
      and both parts can be read back from it. */
  function MakeLink(hostname: string, port: string): (link: string)
    ensures |link| == |Scheme| + |hostname| + 1 + |port|
    ensures link[..|Scheme|] == Scheme
    ensures link[|Scheme|..|Scheme| + |hostname|] == hostname
    ensures link[|Scheme| + |hostname|] == ':'
    ensures link[|Scheme| + |hostname| + 1..] == port
  {
    Scheme + hostname + ":" + port
  }

  /** `if mappings:` - the port has at least one mapping. */
  predicate Published(e: PortEntry) {
    e.mappings.Some? && |e.mappings.value| > 0
  }

  /** The record for a published port, built from its first mapping only. */
  function LinkOf(host: Host, e: PortEntry, urlHostname: UrlHostname, requestHost: string): PortLink
    requires Published(e)
  {
    var m := e.mappings.value[0];
    PortLink(e.containerPort, m.hostPort, MakeLink(LinkHostname(host, m.hostIp, urlHostname, requestHost), m.hostPort))
  }

  /** The records for the published entries of a port map, in its order. */
  function EntryLinks(host: Host, es: seq<PortEntry>, urlHostname: UrlHostname, requestHost: string): (links: seq<PortLink>)
    ensures |links| <= |es|
    ensures forall l :: l in links ==>
              exists i :: 0 <= i < |es| && Published(es[i]) && l == LinkOf(host, es[i], urlHostname, requestHost)
  {
    if |es| == 0 then []
    else
      var rest := EntryLinks(host, es[1..], urlHostname, requestHost);
      assert forall i :: 1 <= i < |es| ==> es[i] == es[1..][i - 1];
      (if Published(es[0]) then [LinkOf(host, es[0], urlHostname, requestHost)] else []) + rest
  }

  /** The `port_map` of one container: empty when `Ports` is null or empty. */
  function PortLinks(host: Host, ports: Option<seq<PortEntry>>, urlHostname: UrlHostname, requestHost: string): (links: seq<PortLink>)
    ensures ports.None? || ports == Some([]) ==> links == []
    ensures ports.Some? ==> |links| <= |ports.value|
    ensures forall l :: l in links ==> ports.Some? && exists e :: e in ports.value && Published(e) && l == LinkOf(host, e, urlHostname, requestHost)
  {
    match ports
    case None => []
    case Some(es) => EntryLinks(host, es, urlHostname, requestHost)
  }

  /** Every published port gets its record: no published entry is dropped. */
  lemma {:induction false} EntryLinksComplete(host: Host, es: seq<PortEntry>, urlHostname: UrlHostname, requestHost: string, i: nat)
    requires i < |es| && Published(es[i])
    ensures LinkOf(host, es[i], urlHostname, requestHost) in EntryLinks(host, es, urlHostname, requestHost)
  {
    if i > 0 {
      assert es[i] == es[1..][i - 1];
      EntryLinksComplete(host, es[1..], urlHostname, requestHost, i - 1);
    }
  }

  /** Records follow the order of the port map: the records of a split map
      are the records of each part, concatenated. */
  lemma {:induction false} EntryLinksAppend(host: Host, a: seq<PortEntry>, b: seq<PortEntry>, urlHostname: UrlHostname, requestHost: string)
    ensures EntryLinks(host, a + b, urlHostname, requestHost)
            == EntryLinks(host, a, urlHostname, requestHost) + EntryLinks(host, b, urlHostname, requestHost)
  {
    if |a| > 0 {
      assert (a + b)[1..] == a[1..] + b;
      EntryLinksAppend(host, a[1..], b, urlHostname, requestHost);
    } else {
      assert a + b == b;
    }
  }

  /** Ports without mappings contribute nothing. */
  lemma {:induction false} EntryLinksUnpublished(host: Host, es: seq<PortEntry>, urlHostname: UrlHostname, requestHost: string)
    requires forall i :: 0 <= i < |es| ==> !Published(es[i])
    ensures EntryLinks(host, es, urlHostname, requestHost) == []
  {
    if |es| > 0 {
      assert forall i :: 1 <= i < |es| ==> es[1..][i - 1] == es[i];
      EntryLinksUnpublished(host, es[1..], urlHostname, requestHost);
    }
  }

  /** When every port is published there is exactly one record per port, in
      port-map order. */
  lemma {:induction false} EntryLinksAllPublished(host: Host, es: seq<PortEntry>, urlHostname: UrlHostname, requestHost: string)
    requires forall i :: 0 <= i < |es| ==> Published(es[i])
    ensures |EntryLinks(host, es, urlHostname, requestHost)| == |es|
    ensures forall i :: 0 <= i < |es| ==> EntryLinks(host, es, urlHostname, requestHost)[i] == LinkOf(host, es[i], urlHostname, requestHost)
  {
    if |es| > 0 {
      var tail := es[1..];
      assert forall i :: 1 <= i < |es| ==> tail[i - 1] == es[i];
      EntryLinksAllPublished(host, tail, urlHostname, requestHost);
      var first := [LinkOf(host, es[0], urlHostname, requestHost)];
      var rest := EntryLinks(host, tail, urlHostname, requestHost);
      assert EntryLinks(host, es, urlHostname, requestHost) == first + rest;
      forall i | 1 <= i < |es|
        ensures (first + rest)[i] == LinkOf(host, es[i], urlHostname, requestHost)
      {
        assert (first + rest)[i] == rest[i - 1];
      }
    }
  }

  /** Every link of a container is `http://<hostname>:<host port>` for the
      hostname its host's rule gives and the port it records. */
  lemma PortLinkShape(host: Host, ports: Option<seq<PortEntry>>, urlHostname: UrlHostname, requestHost: string)
    ensures forall l :: l in PortLinks(host, ports, urlHostname, requestHost) ==>
              exists e :: e in ports.value && Published(e)
                          && l.containerPort == e.containerPort
                          && l.hostPort == e.mappings.value[0].hostPort
                          && l.link == MakeLink(LinkHostname(host, e.mappings.value[0].hostIp, urlHostname, requestHost), l.hostPort)
  {
  }
}
