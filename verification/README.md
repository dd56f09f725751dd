# dockpeek container aggregation, modelled in Dafny

dockpeek is a small web dashboard that lists the containers of one or more
Docker daemons. This project models the decision logic of its `app.py`
behind the web layer, and proves properties of it:

- **host discovery** (`discover_docker_clients`): which daemons a data
  request talks to, read from the environment on every request;
- **port links** (the port-map loop in `get_container_data`): the
  `{container_port, host_port, link}` records built from a container's
  published ports;
- **aggregation** (`get_container_data`): the pass over the discovered
  hosts, isolating each host's failures.

Modules, in dependency order:

| file | module | models |
|---|---|---|
| `wrappers.dfy` | `Wrappers` | `Option`, standing for Python's `None` |
| `environment.dfy` | `Environment` | the environment as an ordered list of entries; `os.environ.get` |
| `hostkeys.dfy` | `HostKeys` | the key pattern `^DOCKER_HOST_(\d+)_URL$` and its companion keys |
| `discovery.dfy` | `Discovery` | `discover_docker_clients` |
| `links.dfy` | `Links` | the port-map and link construction |
| `aggregation.dfy` | `Aggregation` | `get_container_data` |

What the model takes as parameters instead of doing I/O:

- the environment is a `seq<(string, string)>` in `os.environ.items()` order;
- creating a `DockerClient` for a URL and pinging it is an oracle
  `probe: string -> bool`; the local-socket attempt through `docker.from_env`
  takes no URL, so its outcome is a separate `socketOk: bool`;
- `client.containers.list(all=True)` and the per-container processing are an
  oracle `listing: Host -> Listing`: the containers, plus the index of the
  container whose processing raised, if any (`Some(0)` also covers the list
  call itself failing);
- `urlparse(url).hostname` is an oracle `urlHostname: string -> Option<string>`;
- `request.host` is the string `requestHost`.

Behaviour worth knowing, all as the code does it:

- Python's `$` also matches before one trailing newline, so a key
  `"DOCKER_HOST_1_URL\n"` configures host 1; `HostKeys.MatchesUrlKey` says so.
- A `DOCKER_HOST_<n>_NAME` entry that is present but empty names the host `""`
  (`os.environ.get` returns the empty value, not the default).
- The link rule branches on the host's *name*: any host named `"local"`,
  including a numbered host given that name, uses the binding address and the
  request's Host header, and its public hostname is never consulted. Hence
  `DOCKER_HOST_PUBLIC_HOSTNAME`, read for the `DOCKER_HOST` entry, has no
  effect on its links.
- A configured host whose name is "local" (from `DOCKER_HOST`, or from
  `DOCKER_HOST_<n>_NAME=local`) and whose URL and public hostname coincide
  with the socket fallback is indistinguishable from it; the fallback is still
  only tried when no configured host answered.

## Model

| member | source | states |
|---|---|---|
| Environment.Lookup | app.py:83-84 | `os.environ.get(name)`: present exactly when some entry has that name, the value of such an entry, and of the first one |
| HostKeys.ParseUrlKeyMatches | app.py:78-82 | a key yields host number `num` exactly when `^DOCKER_HOST_(\d+)_URL$` matches it with group 1 equal to `num` (a single trailing newline allowed, as Python's `$` allows) |
| HostKeys.UrlKeyRoundTrip | app.py:78-82 | every `DOCKER_HOST_<digits>_URL` key is recognised and yields back its digits |
| HostKeys.CompanionKeysAreNotUrlKeys | app.py:78 | `DOCKER_HOST`, `DOCKER_HOST_<n>_NAME` and `DOCKER_HOST_<n>_PUBLIC_HOSTNAME` are never taken for numbered hosts |
| Discovery.PrimaryCandidates | app.py:65-67 | the `DOCKER_HOST` entry, when present, configures exactly one host, named "local", with that entry's value as URL |
| Discovery.NumberedHost | app.py:82-84 | host `n` keeps its URL; its name is the value of a `DOCKER_HOST_<n>_NAME` entry if one exists, else `server<n>`; it has a public hostname exactly when `DOCKER_HOST_<n>_PUBLIC_HOSTNAME` exists, and then it is that entry's value; both name and public hostname are the values of the first entry with their key |
| Discovery.NumberedFromMembers | app.py:78-84 | the numbered candidates are exactly the hosts built from the environment entries whose key matches the URL pattern |
| Discovery.NumberedFromAppend | app.py:78-79 | numbered hosts come out in environment order |
| Discovery.Connected | app.py:85-92 | a host survives probing exactly when its own probe succeeds; a failure removes only that host |
| Discovery.ConnectedAppend | app.py:79-92 | probing is host by host: survivors of a concatenation are the concatenated survivors |
| Discovery.Discover | app.py:57-106 | a host is discovered exactly when it is a configured host whose probe succeeded, or it is the local-socket fallback, the socket answered and no configured host did; with no configured host answering at most one host is returned, the result is never larger than the configured list unless it is the lone fallback, and a fallback that is not itself a configured host never appears beside another host |
| Discovery.DiscoverOrder | app.py:65-92 | unless the fallback is used (no configured host answered and the socket did), the result is the answering `DOCKER_HOST` host followed by the answering numbered hosts in environment order |
| Discovery.PrimaryComesFirst | app.py:65-72 | an answering `DOCKER_HOST` is the first discovered host, named "local" and carrying `DOCKER_HOST_PUBLIC_HOSTNAME` |
| Discovery.ProbeEntry | app.py:79-92 | one loop iteration keeps the entry's host exactly when the entry is a URL key and its probe succeeds |
| Discovery.DiscoverClients | app.py:57-106 | the imperative discovery with its loop computes `Discover` |
| Links.BeforeFirstColon | app.py:141 | `split(":")[0]`: a prefix of the input without a colon, followed in the input by a colon or by nothing |
| Links.LinkHostname | app.py:139-151 | on host "local": the request host up to its first colon when the binding address (default 0.0.0.0) is 0.0.0.0 or 127.0.0.1, else that address; on other hosts: non-empty, the non-empty public hostname if any, else the non-empty hostname of the daemon URL, else "localhost" |
| Links.MakeLink | app.py:142 | a link is "http://", the hostname, ":" and the host port, each readable back at its position, so the port is always explicit |
| Links.EntryLinks | app.py:133-157 | at most one record per port-map entry, each the record of a published entry built from its first mapping |
| Links.PortLinks | app.py:130-135 | a null or empty `Ports` gives no records; every record comes from a published port |
| Links.EntryLinksComplete | app.py:134-157 | every port with a non-empty mapping list gets its record |
| Links.EntryLinksAppend | app.py:134 | records follow port-map order |
| Links.EntryLinksUnpublished | app.py:135 | ports whose mapping list is null or empty contribute nothing |
| Links.EntryLinksAllPublished | app.py:134-157 | when every port is published there is exactly one record per port, at the same position |
| Links.PortLinkShape | app.py:136-157 | every record's link is `http://<hostname>:<host port>` for the first mapping of its port and that host's hostname rule |
| Aggregation.ImageOf | app.py:164 | the image is the first tag, or "none" when there are no tags |
| Aggregation.RecordsOf | app.py:129-166 | one record per container, in order, each the record of that container on that host: `server` is the host's name, `image` comes from `ImageOf`, `ports` from `PortLinks` |
| Aggregation.FailureKeepsPrefix | app.py:120-170 | a host failing at container `k` contributes exactly the first `min(k, n)` records it would have contributed without failing |
| Aggregation.AllRecords | app.py:117-172 | every record's `server` is the name of one of the hosts in the pass |
| Aggregation.AllRecordsAppend | app.py:118-170 | the pass is a concatenation over hosts: later hosts are processed whatever happened to earlier ones |
| Aggregation.AllRecordsOnlyListedHosts | app.py:118-127 | the records depend only on the listings of the hosts in the pass |
| Aggregation.FailureIsolated | app.py:118-170 | changing one host's listing, including making it fail, changes only that host's slice of the result |
| Aggregation.CollectRecords | app.py:117-172 | the nested loop with its early exit on failure computes `AllRecords` |
| Aggregation.ContainerData | app.py:110-172 | no daemon discovered gives `[]`; every record names a host that is a configured host whose probe succeeded, or the answering local socket |
| Aggregation.GetContainerData | app.py:110-172 | the imperative discovery followed by the collection loop computes `ContainerData` |

## Left out

- The Flask application, its routes, `jsonify`, templates and the entry
  point (app.py:15-23, app.py:176-213): web plumbing.
- Login, the credential check and password hashing (app.py:25-51): they rely
  on foreign libraries.
- The Docker SDK itself (`DockerClient`, `docker.from_env`, `ping`,
  `containers.list`) and its one-second timeout: replaced by the oracles
  above. Which daemon `docker.from_env` reaches is part of its oracle.
- The `print` logging and the reading of `os.environ`: the environment is a
  parameter.
- HostKeys.ParseUrlKey: `\d` is taken as the ASCII digits 0-9; Python also
  matches other Unicode decimal digits in a `str` pattern.
- Environment.Lookup: returns the first entry of a name; a real environment
  has no repeated names, and on such environments iterating the entries in
  order is the iteration of the `host_vars` dictionary.
- Links.LinkOf: a mapping without a `HostPort` key raises `KeyError` in the
  source; the model takes `HostPort` as always present and lets the listing's
  failure index stand for any exception while a container is processed.
- The Python dictionaries' extra `client` field: the client handle is the
  host descriptor itself, passed to the listing oracle. As a consequence two
  numbered entries that produce the same host (same URL, same name, same
  public hostname) always receive the same listing, whereas each has its own
  client in the source and can fail on its own; `Aggregation.FailureIsolated`
  assumes the changed host occurs once and says nothing about that case.
