/** `get_container_data`: one pass over the discovered hosts that lists each
    host's containers and turns them into flat records. A host whose listing
    fails part-way keeps the records made before the failure, and the pass
    continues with the next host. */
module Aggregation {
  import opened Wrappers
  import opened Sequences
  import opened Environment
  import opened Discovery
  import opened Links

  /** What the daemon reports about one container. */
  datatype Container = Container(
    name: string,
    shortId: string,
    status: string,
    tags: seq<string>,
    ports: Option<seq<PortEntry>>)

  /** The outcome of listing one host: its containers, and the index of the
      container whose processing raised, if one did. `Some(0)` also stands for
      a failure of the listing call itself. */
  datatype Listing = Listing(items: seq<Container>, failAt: Option<nat>)

  /** One record of the response. */
  datatype Record = Record(
    server: string,
    name: string,
    id: string,
    status: string,
    image: string,
    ports: seq<PortLink>)

  const NoImage := "none"

  /** The image shown for a container: its first tag, or "none" when untagged. */
  function ImageOf(tags: seq<string>): (image: string)
    ensures |tags| > 0 ==> image == tags[0]
    ensures image in tags || (|tags| == 0 && image == NoImage)
  {
    if |tags| > 0 then tags[0] else NoImage
  }

  /** The record for container `c` listed on `host`. */
  function ToRecord(host: Host, c: Container, urlHostname: UrlHostname, requestHost: string): Record {
    Record(host.name, c.name, c.shortId, c.status, ImageOf(c.tags), PortLinks(host, c.ports, urlHostname, requestHost))
  }

  /** How many containers of a listing are turned into records before it fails. */
  function Kept(l: Listing): (n: nat)
    ensures n <= |l.items|
    ensures l.failAt.None? ==> n == |l.items|
    ensures l.failAt.Some? ==> n == l.failAt.value || (n == |l.items| && l.failAt.value >= n)
  {
    match l.failAt
    case None => |l.items|
    case Some(k) => if k < |l.items| then k else |l.items|
  }

  /** The records of a run of containers on one host, one per container, in order. */
  function RecordsOf(host: Host, cs: seq<Container>, urlHostname: UrlHostname, requestHost: string): (rs: seq<Record>)
    ensures |rs| == |cs|
    ensures forall k :: 0 <= k < |cs| ==> rs[k] == ToRecord(host, cs[k], urlHostname, requestHost)
  {
    if |cs| == 0 then []
    else
      var rest := RecordsOf(host, cs[1..], urlHostname, requestHost);
      assert forall k :: 1 <= k < |cs| ==> cs[1..][k - 1] == cs[k];
      [ToRecord(host, cs[0], urlHostname, requestHost)] + rest
  }

  /** What one host contributes. */
  function HostRecords(host: Host, l: Listing, urlHostname: UrlHostname, requestHost: string): seq<Record> {
    RecordsOf(host, l.items[..Kept(l)], urlHostname, requestHost)
  }

  /** The records of all hosts, host after host. */
  function AllRecords(hosts: seq<Host>, listing: Host -> Listing, urlHostname: UrlHostname, requestHost: string): (rs: seq<Record>)
    ensures forall r :: r in rs ==> exists h :: h in hosts && r.server == h.name
  {
    if |hosts| == 0 then []
    else
      var last := hosts[|hosts| - 1];
      var earlier := AllRecords(hosts[..|hosts| - 1], listing, urlHostname, requestHost);
      earlier + HostRecords(last, listing(last), urlHostname, requestHost)
  }

  /** The response for one request: nothing when no daemon answered,
      otherwise the records of every discovered host. */
  function ContainerData(env: Env, probe: Probe, socketOk: bool, listing: Host -> Listing,
                         urlHostname: UrlHostname, requestHost: string): (rs: seq<Record>)
    ensures Discover(env, probe, socketOk) == [] ==> rs == []
    ensures forall r :: r in rs ==>
              exists h: Host :: r.server == h.name
                          && ((h in Candidates(env) && probe(h.url)) || (h == FallbackHost && socketOk))
  {
    var clients := Discover(env, probe, socketOk);
    if |clients| == 0 then [] else AllRecords(clients, listing, urlHostname, requestHost)
  }

  /** A host whose listing fails contributes exactly the records of the
      containers before the failing one: a prefix of what it would have
      contributed without the failure. */
  lemma FailureKeepsPrefix(host: Host, items: seq<Container>, k: nat, urlHostname: UrlHostname, requestHost: string)
    ensures var partial := HostRecords(host, Listing(items, Some(k)), urlHostname, requestHost);
            var full := HostRecords(host, Listing(items, None), urlHostname, requestHost);
            |partial| == (if k < |items| then k else |items|) && partial == full[..|partial|]
  {
  }

  /** The pass over hosts is a concatenation: hosts after any point are
      processed just as if the earlier ones had not been there. */
  lemma {:induction false} AllRecordsAppend(a: seq<Host>, b: seq<Host>, listing: Host -> Listing,
                                            urlHostname: UrlHostname, requestHost: string)
    ensures AllRecords(a + b, listing, urlHostname, requestHost)
            == AllRecords(a, listing, urlHostname, requestHost) + AllRecords(b, listing, urlHostname, requestHost)
  {
    if |b| == 0 {
      assert a + b == a;
    } else {
      var n := |b| - 1;
      var ab := a + b;
      assert ab[..|ab| - 1] == a + b[..n];
      assert ab[|ab| - 1] == b[n];
      AllRecordsAppend(a, b[..n], listing, urlHostname, requestHost);
      AllRecordsLast(ab, listing, urlHostname, requestHost);
      AllRecordsLast(b, listing, urlHostname, requestHost);
      AppendAssociative(AllRecords(a, listing, urlHostname, requestHost),
                        AllRecords(b[..n], listing, urlHostname, requestHost),
                        HostRecords(b[n], listing(b[n]), urlHostname, requestHost));
    }
  }

  lemma AllRecordsLast(hosts: seq<Host>, listing: Host -> Listing, urlHostname: UrlHostname, requestHost: string)
    requires |hosts| > 0
    ensures AllRecords(hosts, listing, urlHostname, requestHost)
            == AllRecords(hosts[..|hosts| - 1], listing, urlHostname, requestHost)
               + HostRecords(hosts[|hosts| - 1], listing(hosts[|hosts| - 1]), urlHostname, requestHost)
  {
  }

  /** The records depend only on the listings of the hosts in the pass. */
  lemma {:induction false} AllRecordsOnlyListedHosts(hosts: seq<Host>, l1: Host -> Listing, l2: Host -> Listing,
                                                     urlHostname: UrlHostname, requestHost: string)
    requires forall h :: h in hosts ==> l1(h) == l2(h)
    ensures AllRecords(hosts, l1, urlHostname, requestHost) == AllRecords(hosts, l2, urlHostname, requestHost)
  {
    if |hosts| > 0 {
      var n := |hosts| - 1;
      assert hosts[n] in hosts;
      assert forall h :: h in hosts[..n] ==> h in hosts;
      AllRecordsOnlyListedHosts(hosts[..n], l1, l2, urlHostname, requestHost);
    }
  }

  /** Fault isolation: whatever happens while listing one host, the other
      hosts contribute exactly what they would have, in place. */
  lemma FailureIsolated(before: seq<Host>, h: Host, after: seq<Host>, listing: Host -> Listing, failing: Listing,
                        urlHostname: UrlHostname, requestHost: string)
    requires h !in before && h !in after
    ensures var changed := (g: Host) => if g == h then failing else listing(g);
            AllRecords(before + [h] + after, changed, urlHostname, requestHost)
            == AllRecords(before, listing, urlHostname, requestHost)
               + HostRecords(h, failing, urlHostname, requestHost)
               + AllRecords(after, listing, urlHostname, requestHost)
  {
    var changed := (g: Host) => if g == h then failing else listing(g);
    AllRecordsAppend(before + [h], after, changed, urlHostname, requestHost);
    AllRecordsAppend(before, [h], changed, urlHostname, requestHost);
    AllRecordsOnlyListedHosts(before, changed, listing, urlHostname, requestHost);
    AllRecordsOnlyListedHosts(after, changed, listing, urlHostname, requestHost);
    assert [h][..0] == [];
  }

  /** One container step of the inner loop. */
  lemma ContainerStep(host: Host, items: seq<Container>, j: nat, done: seq<Record>, all: seq<Record>,
                      urlHostname: UrlHostname, requestHost: string)
    requires j < |items|
    requires all == done + RecordsOf(host, items[..j], urlHostname, requestHost)
    ensures all + [ToRecord(host, items[j], urlHostname, requestHost)]
            == done + RecordsOf(host, items[..j + 1], urlHostname, requestHost)
  {
    var next := RecordsOf(host, items[..j], urlHostname, requestHost) + [ToRecord(host, items[j], urlHostname, requestHost)];
    assert next == RecordsOf(host, items[..j + 1], urlHostname, requestHost);
  }

  /** One host step of the outer loop. */
  lemma HostStep(hosts: seq<Host>, i: nat, listing: Host -> Listing, all: seq<Record>,
                 urlHostname: UrlHostname, requestHost: string)
    requires i < |hosts|
    requires all == AllRecords(hosts[..i], listing, urlHostname, requestHost)
                    + HostRecords(hosts[i], listing(hosts[i]), urlHostname, requestHost)
    ensures all == AllRecords(hosts[..i + 1], listing, urlHostname, requestHost)
  {
    assert hosts[..i + 1][..i] == hosts[..i];
  }

  /** The loop over hosts and containers computes `AllRecords`. */
  method CollectRecords(hosts: seq<Host>, listing: Host -> Listing, urlHostname: UrlHostname, requestHost: string)
    returns (all: seq<Record>)
    ensures all == AllRecords(hosts, listing, urlHostname, requestHost)
  {
    all := [];
    var i := 0;
    while i < |hosts|
      invariant 0 <= i <= |hosts|
      invariant all == AllRecords(hosts[..i], listing, urlHostname, requestHost)
    {
      var host := hosts[i];
      var l := listing(host);
      ghost var done := all;
      var j: nat := 0;
      while j < |l.items| && l.failAt != Some(j)
        invariant j <= Kept(l)
        invariant all == done + RecordsOf(host, l.items[..j], urlHostname, requestHost)
      {
        ContainerStep(host, l.items, j, done, all, urlHostname, requestHost);
        all := all + [ToRecord(host, l.items[j], urlHostname, requestHost)];
        j := j + 1;
      }
      HostStep(hosts, i, listing, all, urlHostname, requestHost);
      i := i + 1;
    }
    assert hosts[..i] == hosts;
  }

  /** `get_container_data` with discovery, listing and the request abstracted. */
  method GetContainerData(env: Env, probe: Probe, socketOk: bool, listing: Host -> Listing,
                          urlHostname: UrlHostname, requestHost: string)
    returns (data: seq<Record>)
    ensures data == ContainerData(env, probe, socketOk, listing, urlHostname, requestHost)
  {
    var clients := DiscoverClients(env, probe, socketOk);
    if |clients| == 0 {
      return [];
    }
    data := CollectRecords(clients, listing, urlHostname, requestHost);
  }
}
