/** Host discovery: which Docker daemons a data request talks to, rebuilt
    from the environment on every request. Connecting to a daemon and pinging
    it is abstracted as a success/failure oracle on its URL. */
module Discovery {
  import opened Wrappers
  import opened Sequences
  import opened Environment
  import opened HostKeys

  /** One connected daemon: its display name, connection URL and optional
      public hostname used when building links. */
  datatype Host = Host(name: string, url: string, publicHostname: Option<string>)

  const LocalName := "local"
  const PrimaryUrlKey := "DOCKER_HOST"
  const PrimaryPublicHostnameKey := "DOCKER_HOST_PUBLIC_HOSTNAME"
  const DefaultNamePrefix := "server"
  const SocketUrl := "unix:///var/run/docker.sock"

  /** The daemon reached through the local socket when nothing configured answers. */
  const FallbackHost := Host(LocalName, SocketUrl, Some("localhost"))

  /** Whether creating a client for a URL and pinging it succeeds within the timeout. */
  type Probe = string -> bool

  /** The `DOCKER_HOST` entry, if configured, as host "local". */
  function PrimaryCandidates(env: Env): (hs: seq<Host>)
    ensures |hs| <= 1
    ensures |hs| == 1 <==> exists i :: 0 <= i < |env| && env[i].0 == PrimaryUrlKey
    ensures |hs| == 1 ==> hs[0].name == LocalName
    ensures |hs| == 1 ==> exists i :: 0 <= i < |env| && env[i] == (PrimaryUrlKey, hs[0].url)
  {
    match Lookup(env, PrimaryUrlKey)
    case None => []
    case Some(url) => [Host(LocalName, url, Lookup(env, PrimaryPublicHostnameKey))]
  }

  /** Host number `num` with connection URL `url`: named by `DOCKER_HOST_<num>_NAME`
      when that entry exists (even if empty), otherwise `server<num>`. */
  function NumberedHost(env: Env, num: string, url: string): (h: Host)
    ensures h.url == url
    ensures (exists i :: 0 <= i < |env| && env[i] == (NameKey(num), h.name))
            || (h.name == DefaultNamePrefix + num && forall i :: 0 <= i < |env| ==> env[i].0 != NameKey(num))
    ensures forall i :: 0 <= i < |env| && env[i].0 == NameKey(num) && (forall j :: 0 <= j < i ==> env[j].0 != NameKey(num)) ==>
                          h.name == env[i].1
    ensures h.publicHostname.Some? <==> exists i :: 0 <= i < |env| && env[i].0 == PublicHostnameKey(num)
    ensures h.publicHostname.Some? ==>
              exists i :: 0 <= i < |env| && env[i] == (PublicHostnameKey(num), h.publicHostname.value)
    ensures forall i :: 0 <= i < |env| && env[i].0 == PublicHostnameKey(num)
                          && (forall j :: 0 <= j < i ==> env[j].0 != PublicHostnameKey(num)) ==>
                          h.publicHostname == Some(env[i].1)
  {
    Host(Lookup(env, NameKey(num)).GetOr(DefaultNamePrefix + num), url, Lookup(env, PublicHostnameKey(num)))
  }

  /** The numbered host one environment entry configures, if its name is a `_URL` key. */
  function EntryCandidates(env: Env, entry: (string, string)): seq<Host> {
    match ParseUrlKey(entry.0)
    case None => []
    case Some(num) => [NumberedHost(env, num, entry.1)]
  }

  /** The numbered hosts configured by `entries`, in their order; names and
      public hostnames are looked up in the whole environment `env`. */
  function NumberedFrom(env: Env, entries: Env): seq<Host> {
    if |entries| == 0 then []
    else EntryCandidates(env, entries[0]) + NumberedFrom(env, entries[1..])
  }

  /** Every host the environment configures, before probing: `DOCKER_HOST`
      first, then the numbered hosts in environment order. */
  function Candidates(env: Env): seq<Host> {
    PrimaryCandidates(env) + NumberedFrom(env, env)
  }

  /** The hosts whose probe succeeds, in order; a failed probe drops only that host. */
  function Connected(hosts: seq<Host>, probe: Probe): (live: seq<Host>)
    ensures |live| <= |hosts|
    ensures forall h :: h in live <==> h in hosts && probe(h.url)
  {
    if |hosts| == 0 then []
    else (if probe(hosts[0].url) then [hosts[0]] else []) + Connected(hosts[1..], probe)
  }

  predicate NoneConnected(env: Env, probe: Probe) {
    Connected(Candidates(env), probe) == []
  }

  /** `discover_docker_clients`: the configured hosts that answered, or the
      local socket alone when none did and it answers. */
  function Discover(env: Env, probe: Probe, socketOk: bool): (hosts: seq<Host>)
    ensures forall h :: h in hosts <==>
                          || (h in Candidates(env) && probe(h.url))
                          || (h == FallbackHost && socketOk && NoneConnected(env, probe))
    ensures NoneConnected(env, probe) ==> |hosts| <= 1
    ensures |hosts| <= |Candidates(env)| || hosts == [FallbackHost]
    ensures FallbackHost in hosts && FallbackHost !in Candidates(env) ==> hosts == [FallbackHost]
  {
    var live := Connected(Candidates(env), probe);
    if |live| == 0 then (if socketOk then [FallbackHost] else []) else live
  }

  /** A numbered host is configured exactly for each `DOCKER_HOST_<n>_URL` entry. */
  lemma {:induction false} NumberedFromMembers(env: Env, entries: Env, h: Host)
    ensures h in NumberedFrom(env, entries) <==>
              exists i :: 0 <= i < |entries| && ParseUrlKey(entries[i].0).Some?
                          && h == NumberedHost(env, ParseUrlKey(entries[i].0).value, entries[i].1)
  {
    if |entries| > 0 {
      NumberedFromMembers(env, entries[1..], h);
      assert forall i :: 1 <= i < |entries| ==> entries[i] == entries[1..][i - 1];
      if h in NumberedFrom(env, entries[1..]) {
        var i :| 0 <= i < |entries[1..]| && ParseUrlKey(entries[1..][i].0).Some?
                 && h == NumberedHost(env, ParseUrlKey(entries[1..][i].0).value, entries[1..][i].1);
        assert entries[i + 1] == entries[1..][i];
      }
    }
  }

  /** Numbered hosts of consecutive stretches of the environment concatenate. */
  lemma {:induction false} NumberedFromAppend(env: Env, a: Env, b: Env)
    ensures NumberedFrom(env, a + b) == NumberedFrom(env, a) + NumberedFrom(env, b)
  {
    if |a| > 0 {
      assert (a + b)[1..] == a[1..] + b;
      NumberedFromAppend(env, a[1..], b);
    } else {
      assert a + b == b;
    }
  }

  /** Probing is done host by host: the survivors of a concatenation are the
      survivors of each part, in order. */
  lemma {:induction false} ConnectedAppend(a: seq<Host>, b: seq<Host>, probe: Probe)
    ensures Connected(a + b, probe) == Connected(a, probe) + Connected(b, probe)
  {
    if |a| > 0 {
      assert (a + b)[1..] == a[1..] + b;
      ConnectedAppend(a[1..], b, probe);
    } else {
      assert a + b == b;
    }
  }

  /** Unless the fallback is used, the answering `DOCKER_HOST` comes first and
      the answering numbered hosts follow in environment order. */
  lemma DiscoverOrder(env: Env, probe: Probe, socketOk: bool)
    requires !(NoneConnected(env, probe) && socketOk)
    ensures Discover(env, probe, socketOk)
            == Connected(PrimaryCandidates(env), probe) + Connected(NumberedFrom(env, env), probe)
  {
    ConnectedAppend(PrimaryCandidates(env), NumberedFrom(env, env), probe);
  }

  /** An answering `DOCKER_HOST` is the first discovered host, named "local",
      carrying `DOCKER_HOST_PUBLIC_HOSTNAME`. */
  lemma PrimaryComesFirst(env: Env, probe: Probe, socketOk: bool)
    requires Lookup(env, PrimaryUrlKey).Some?
    requires probe(Lookup(env, PrimaryUrlKey).value)
    ensures var hosts := Discover(env, probe, socketOk);
            |hosts| > 0
            && hosts[0] == Host(LocalName, Lookup(env, PrimaryUrlKey).value, Lookup(env, PrimaryPublicHostnameKey))
  {
  }

  /** One more environment entry adds at most its own answering host. */
  lemma DiscoverStep(env: Env, i: nat, probe: Probe, clients: seq<Host>, found: seq<Host>)
    requires i < |env|
    requires clients + Connected(NumberedFrom(env, env[i..]), probe) == Connected(Candidates(env), probe)
    requires found == Connected(EntryCandidates(env, env[i]), probe)
    ensures clients + found + Connected(NumberedFrom(env, env[i + 1..]), probe) == Connected(Candidates(env), probe)
  {
    var rest := env[i..];
    assert rest[0] == env[i];
    assert rest[1..] == env[i + 1..];
    ConnectedAppend(EntryCandidates(env, env[i]), NumberedFrom(env, env[i + 1..]), probe);
    AppendAssociative(clients, found, Connected(NumberedFrom(env, env[i + 1..]), probe));
  }

  lemma ConnectedSingle(h: Host, probe: Probe)
    ensures Connected([h], probe) == if probe(h.url) then [h] else []
  {
    assert [h][1..] == [];
  }

  /** One iteration of the discovery loop: the host a `DOCKER_HOST_<n>_URL`
      entry configures, kept only when its probe succeeds. */
  method ProbeEntry(env: Env, entry: (string, string), probe: Probe) returns (found: seq<Host>)
    ensures found == Connected(EntryCandidates(env, entry), probe)
  {
    var (key, url) := entry;
    found := [];
    match ParseUrlKey(key) {
      case Some(num) =>
        var host := NumberedHost(env, num, url);
        ConnectedSingle(host, probe);
        if probe(url) {
          found := [host];
        }
      case None =>
    }
  }

  /** The imperative discovery loop computes `Discover`. */
  method DiscoverClients(env: Env, probe: Probe, socketOk: bool) returns (clients: seq<Host>)
    ensures clients == Discover(env, probe, socketOk)
  {
    clients := [];
    var primaryUrl := Lookup(env, PrimaryUrlKey);
    if primaryUrl.Some? {
      var host := Host(LocalName, primaryUrl.value, Lookup(env, PrimaryPublicHostnameKey));
      assert PrimaryCandidates(env) == [host];
      ConnectedSingle(host, probe);
      if probe(host.url) {
        clients := [host];
      }
    } else {
      assert PrimaryCandidates(env) == [];
    }
    ConnectedAppend(PrimaryCandidates(env), NumberedFrom(env, env), probe);
    assert env[0..] == env;
    var i := 0;
    while i < |env|
      invariant 0 <= i <= |env|
      invariant clients + Connected(NumberedFrom(env, env[i..]), probe) == Connected(Candidates(env), probe)
    {
      var found := ProbeEntry(env, env[i], probe);
      DiscoverStep(env, i, probe, clients, found);
      clients := clients + found;
      i := i + 1;
    }
    assert env[i..] == [];
    if |clients| == 0 && socketOk {
      clients := [FallbackHost];
    }
  }
}
