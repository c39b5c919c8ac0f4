/** resolveBackendURL: where the worker's proxy finds a service of a container. */
module Backends {
  import opened Strings
  import opened Model

  /** What Docker says of a container's network: HostConfig.NetworkMode, NetworkSettings.IPAddress, the
      addresses of its networks, and the keys of the exposed and of the mapped ports ("80/tcp"). */
  datatype Networking = Networking(mode: string, address: string, networks: map<string, string>,
                                   exposed: set<string>, mapped: set<string>)

  /** parse: url.Parse with the scheme defaulted to http, printed again. build: printing a URL made of
      a scheme and a host. */
  datatype Urls = Urls(parse: string -> Option<string>, build: (string, string) -> string)

  datatype Backend = Backend(url: string, source: string, port: int)

  const BACKEND_URL := "traefik-connect.backend.url"
  const BACKEND_HOST := "traefik-connect.backend.host"
  const BACKEND_PORT := "traefik-connect.backend.port"
  const BACKEND_SCHEME := "traefik-connect.backend.scheme"
  const NETWORK := "traefik.docker.network"

  /** The trimmed value of a label; empty when absent. */
  function TrimmedLabel(labels: Labels, key: string): (r: string)
    ensures r != "" ==> key in labels && r == Trim(labels[key])
    ensures key in labels && Trim(labels[key]) != "" ==> r != ""
  {
    if key in labels then Trim(labels[key]) else ""
  }

  function Positive(s: string): Option<int>
  {
    if Atoi(s).Some? && Atoi(s).value > 0 then Atoi(s) else None
  }

  /** parseContainerPort */
  function ContainerPort(raw: string): Option<int>
  {
    Positive(Split(raw, '/')[0])
  }

  function PortsOf(keys: set<string>): set<int>
  {
    set k | k in keys && ContainerPort(k).Some? :: ContainerPort(k).value
  }

  /** The port Docker's data leave no doubt about. */
  ghost predicate Unambiguous(net: Networking, port: int)
  {
    if |net.exposed| == 1 && PortsOf(net.exposed) != {} then PortsOf(net.exposed) == {port}
    else PortsOf(net.mapped) == {port}
  }

  function Only(ports: set<int>): (r: Option<int>)
    ensures forall n :: r == Some(n) <==> ports == {n}
  {
    if |ports| == 1 then
      Single(ports);
      var n :| n in ports;
      Some(n)
    else None
  }

  lemma Single(ports: set<int>)
    requires |ports| == 1
    ensures exists n :: n in ports
    ensures forall n :: n in ports ==> ports == {n}
  {
    if !exists n :: n in ports {
      assert false;
    }
    forall n | n in ports ensures ports == {n} {
      assert |ports - {n}| == 0;
    }
  }

  function InferPort(net: Networking): (r: Option<int>)
    ensures forall n :: r == Some(n) <==> Unambiguous(net, n)
  {
    if |net.exposed| == 1 && PortsOf(net.exposed) != {} then
      OneKey(net.exposed);
      Only(PortsOf(net.exposed))
    else Only(PortsOf(net.mapped))
  }

  lemma OneKey(keys: set<string>)
    requires |keys| == 1
    ensures |PortsOf(keys)| <= 1
    ensures forall k :: k in keys ==> PortsOf(keys) == if ContainerPort(k).Some? then {ContainerPort(k).value} else {}
  {
    forall k | k in keys
      ensures PortsOf(keys) == if ContainerPort(k).Some? then {ContainerPort(k).value} else {}
    {
      assert |keys - {k}| == 0;
      assert keys == {k};
    }
  }

  function Addressed(networks: map<string, string>): set<string>
  {
    set n | n in networks && Trim(networks[n]) != ""
  }

  /** The container's own address; else that of the network named by its label; else that of the first
      network in ascending order that has one. */
  function PreferredAddress(net: Networking, labels: Labels): string
  {
    var preferred := TrimmedLabel(labels, NETWORK);
    if net.address != "" then net.address
    else if preferred != "" && preferred in net.networks && net.networks[preferred] != "" then net.networks[preferred]
    else if Addressed(net.networks) != {} then Trim(net.networks[Least(Addressed(net.networks))])
    else ""
  }

  function Plain(address: string, port: int): string
  {
    "http://" + address + ":" + Itoa(port)
  }

  function BackendPort(labels: Labels, servicePort: int): Option<int>
  {
    if TrimmedLabel(labels, BACKEND_PORT) != "" then Positive(TrimmedLabel(labels, BACKEND_PORT))
    else if servicePort > 0 then Some(servicePort)
    else None
  }

  function ServicePort(net: Networking, servicePort: int): Option<int>
  {
    if servicePort > 0 then Some(servicePort) else InferPort(net)
  }

  function BackendFor(urls: Urls, labels: Labels, net: Networking, advertiseAddr: string,
                      servicePort: int): (r: Option<Backend>)
    ensures r.Some? && r.value.source != "override-url" ==> r.value.port > 0
  {
    var text, host := TrimmedLabel(labels, BACKEND_URL), TrimmedLabel(labels, BACKEND_HOST);
    if text != "" then
      var u := urls.parse(text);
      if u.None? then None else Some(Backend(u.value, "override-url", servicePort))
    else if host != "" then
      var port := BackendPort(labels, servicePort);
      var scheme := TrimmedLabel(labels, BACKEND_SCHEME);
      if port.None? then None
      else
        var url := urls.build(if scheme != "" then scheme else "http", host + ":" + Itoa(port.value));
        Some(Backend(url, "override-host-port", port.value))
    else
      var port := ServicePort(net, servicePort);
      var address := PreferredAddress(net, labels);
      if port.None? then None
      else if Lower(net.mode) == "host" then
        if advertiseAddr == "" then None
        else Some(Backend(Plain(advertiseAddr, port.value), "host-network", port.value))
      else if address != "" then Some(Backend(Plain(address, port.value), "container-ip", port.value))
      else None
  }

  // ---------------------------------------------------------------- what the backend means

  /** Which label, or what of Docker's data, decides. */
  datatype Source = OverrideUrl | OverrideHost | HostNetwork | ContainerAddress

  function SourceOf(labels: Labels, net: Networking): Source
  {
    if TrimmedLabel(labels, "traefik-connect.backend.url") != "" then OverrideUrl
    else if TrimmedLabel(labels, "traefik-connect.backend.host") != "" then OverrideHost
    else if Lower(net.mode) == "host" then HostNetwork
    else ContainerAddress
  }

  /** Some address of the container is known. */
  ghost predicate HasAddress(net: Networking, labels: Labels)
  {
    || net.address != ""
    || exists n :: n in net.networks && Addresses(net, labels, n)
  }

  /** The network gives the container an address; blanks count only on the preferred one. */
  predicate Addresses(net: Networking, labels: Labels, n: string)
    requires n in net.networks
  {
    || Trim(net.networks[n]) != ""
    || (n == TrimmedLabel(labels, "traefik.docker.network") != "" && net.networks[n] != "")
  }

  /** The port that is asked for, or the only one Docker's data leave possible. */
  ghost predicate ServedAt(net: Networking, servicePort: int, port: int)
  {
    if servicePort > 0 then port == servicePort else Unambiguous(net, port)
  }

  ghost predicate Labelled(labels: Labels, servicePort: int, port: int)
  {
    var text := TrimmedLabel(labels, "traefik-connect.backend.port");
    if text != "" then Atoi(text) == Some(port) else port == servicePort
  }

  /** A backend exists exactly if the deciding source says enough. */
  ghost predicate Resolvable(urls: Urls, labels: Labels, net: Networking, advertiseAddr: string, servicePort: int)
  {
    match SourceOf(labels, net)
    case OverrideUrl => urls.parse(Trim(labels["traefik-connect.backend.url"])).Some?
    case OverrideHost => exists port :: port > 0 && Labelled(labels, servicePort, port)
    case HostNetwork => advertiseAddr != "" && exists port :: port > 0 && ServedAt(net, servicePort, port)
    case ContainerAddress => HasAddress(net, labels) && exists port :: port > 0 && ServedAt(net, servicePort, port)
  }

  lemma PortsArePositive(keys: set<string>, port: int)
    ensures port in PortsOf(keys) ==> port > 0
  {
  }

  lemma AddressKnown(net: Networking, labels: Labels)
    ensures PreferredAddress(net, labels) != "" <==> HasAddress(net, labels)
  {
    hide Trim, Least, LexLe;
    if net.address == "" && HasAddress(net, labels) {
      var n :| n in net.networks && Addresses(net, labels, n);
      assert Trim(net.networks[n]) != "" ==> n in Addressed(net.networks);
    }
    if net.address == "" && PreferredAddress(net, labels) != "" {
      if Addressed(net.networks) != {} {
        var n := Least(Addressed(net.networks));
        assert n in Addressed(net.networks);
      }
    }
  }

  lemma BackendExistsIff(urls: Urls, labels: Labels, net: Networking, advertiseAddr: string, servicePort: int)
    ensures BackendFor(urls, labels, net, advertiseAddr, servicePort).Some?
      <==> Resolvable(urls, labels, net, advertiseAddr, servicePort)
  {
    hide TrimmedLabel, Atoi, PreferredAddress, HasAddress, Plain, Lower;
    AddressKnown(net, labels);
    if InferPort(net).Some? {
      UnambiguousIsPositive(net, InferPort(net).value);
      assert servicePort <= 0 ==> ServedAt(net, servicePort, InferPort(net).value);
    }
    if BackendPort(labels, servicePort).Some? {
      assert Labelled(labels, servicePort, BackendPort(labels, servicePort).value);
    }
    assert servicePort > 0 ==> ServedAt(net, servicePort, servicePort);
  }

  lemma UnambiguousIsPositive(net: Networking, port: int)
    requires Unambiguous(net, port)
    ensures port > 0
  {
    PortsArePositive(net.exposed, port);
    PortsArePositive(net.mapped, port);
    assert port in {port};
  }

  /** Which source wins, and where the URL leads. */
  ghost predicate Leads(urls: Urls, labels: Labels, net: Networking, advertiseAddr: string, servicePort: int,
                        b: Backend)
  {
    match SourceOf(labels, net)
    case OverrideUrl =>
      && b.source == "override-url" && b.port == servicePort
      && urls.parse(Trim(labels["traefik-connect.backend.url"])) == Some(b.url)
    case OverrideHost =>
      && b.source == "override-host-port" && b.port > 0 && Labelled(labels, servicePort, b.port)
      && b.url == urls.build(WantedScheme(labels),
                             Trim(labels["traefik-connect.backend.host"]) + ":" + Itoa(b.port))
    case HostNetwork =>
      && b.source == "host-network" && ServedAt(net, servicePort, b.port)
      && Reaches(b.url, advertiseAddr, b.port)
    case ContainerAddress =>
      && b.source == "container-ip" && ServedAt(net, servicePort, b.port)
      && Reaches(b.url, PreferredAddress(net, labels), b.port)
  }

  lemma BackendMeans(urls: Urls, labels: Labels, net: Networking, advertiseAddr: string, servicePort: int)
    requires BackendFor(urls, labels, net, advertiseAddr, servicePort).Some?
    ensures Leads(urls, labels, net, advertiseAddr, servicePort,
                  BackendFor(urls, labels, net, advertiseAddr, servicePort).value)
  {
    hide TrimmedLabel, Atoi, PreferredAddress, Lower, UpTo, After;
    var b := BackendFor(urls, labels, net, advertiseAddr, servicePort).value;
    if b.port > 0 {
      PlainReaches(advertiseAddr, b.port);
      PlainReaches(PreferredAddress(net, labels), b.port);
    }
  }

  /** The scheme asked for by label, else http. */
  function WantedScheme(labels: Labels): string
  {
    var text := TrimmedLabel(labels, "traefik-connect.backend.scheme");
    if text != "" then text else "http"
  }

  /** A port key of Docker's names the port before the slash, if that is a positive number. */
  lemma PortKey(n: int, protocol: string)
    requires IsInt64(n)
    ensures ContainerPort(Itoa(n) + "/" + protocol) == if n > 0 then Some(n) else None
    ensures ContainerPort(Itoa(n)) == if n > 0 then Some(n) else None
  {
    hide Itoa, Atoi, Split;
    IntRoundTrip(n);
    SplitHead(Itoa(n), protocol, '/');
    SplitWhole(Itoa(n), '/');
  }

  /** Whoever reads this URL gets back that host and that port: the text between "http://" and the last
      colon, and the number after it. */
  ghost predicate Reaches(url: string, host: string, port: int)
  {
    && "http://" <= url && ':' in url[7..] && UpTo(url[7..]) == host
    && (IsInt64(port) ==> Atoi(After(url[7..])) == Some(port))
  }

  /** Before the last colon. */
  function UpTo(s: string): (r: string)
    requires ':' in s
    ensures r < s
  {
    if s[|s| - 1] == ':' then s[..|s| - 1] else UpTo(s[..|s| - 1])
  }

  /** After the last colon. */
  function After(s: string): string
    requires ':' in s
  {
    s[|UpTo(s)| + 1..]
  }

  lemma {:induction false} LastColon(a: string, b: string)
    requires ':' !in b
    ensures ':' in a + ":" + b && UpTo(a + ":" + b) == a
  {
    var s := a + ":" + b;
    assert s[|a|] == ':';
    if b == "" {
      assert s[..|s| - 1] == a;
    } else {
      LastColon(a, b[..|b| - 1]);
      assert s[..|s| - 1] == a + ":" + b[..|b| - 1];
      assert s[|s| - 1] == b[|b| - 1] && b[|b| - 1] in b;
    }
  }

  lemma PlainReaches(host: string, port: int)
    requires port > 0
    ensures Reaches(Plain(host, port), host, port)
  {
    var n := Itoa(port);
    DigitsOf(port);
    LastColon(host, n);
    var url := Plain(host, port);
    assert url[7..] == host + ":" + n;
    assert After(url[7..]) == n;
  }

  lemma DigitsOf(port: int)
    requires port > 0
    ensures ':' !in Itoa(port) && (IsInt64(port) ==> Atoi(Itoa(port)) == Some(port))
  {
    var n := Itoa(port);
    assert forall i :: 0 <= i < |n| ==> IsDigit(n[i]);
    if IsInt64(port) {
      IntRoundTrip(port);
      assert Trimmed(n);
    }
  }

  // ---------------------------------------------------------------- the loops

  /** inferPort, which walks Docker's maps in any order. */
  method InferPortLoop(net: Networking) returns (port: Option<int>)
    ensures port == InferPort(net)
  {
    if |net.exposed| == 1 {
      OneKey(net.exposed);
      var k :| k in net.exposed;
      if ContainerPort(k).Some? {
        return ContainerPort(k);
      }
    }
    var ports: set<int>, todo := {}, net.mapped;
    while todo != {}
      invariant todo <= net.mapped && ports == PortsOf(net.mapped - todo)
      decreases todo
    {
      var k :| k in todo;
      assert net.mapped - (todo - {k}) == (net.mapped - todo) + {k};
      todo := todo - {k};
      if ContainerPort(k).Some? {
        ports := ports + {ContainerPort(k).value};
      }
    }
    assert net.mapped - todo == net.mapped;
    if |ports| == 1 {
      Single(ports);
      var n :| n in ports;
      return Some(n);
    }
    return None;
  }

  /** preferredContainerAddr */
  method PreferredAddressLoop(net: Networking, labels: Labels) returns (address: string)
    ensures address == PreferredAddress(net, labels)
  {
    hide Trim, Least, Sorted, TrimmedLabel;
    if net.address != "" {
      return net.address;
    }
    if net.networks == map[] {
      return "";
    }
    var preferred := TrimmedLabel(labels, NETWORK);
    if preferred != "" && preferred in net.networks && net.networks[preferred] != "" {
      return net.networks[preferred];
    }
    var names := Sorted(net.networks.Keys);
    for i := 0 to |names|
      invariant forall j :: 0 <= j < i ==> Trim(net.networks[names[j]]) == ""
    {
      if Trim(net.networks[names[i]]) != "" {
        FirstAddressed(net.networks, i);
        return Trim(net.networks[names[i]]);
      }
    }
    assert Addressed(net.networks) == {};
    return "";
  }

  /** The first addressed network in the sorted list is the least addressed one. */
  lemma FirstAddressed(networks: map<string, string>, i: nat)
    requires var names := Sorted(networks.Keys);
             && i < |names| && Trim(networks[names[i]]) != ""
             && forall j :: 0 <= j < i ==> Trim(networks[names[j]]) == ""
    ensures Addressed(networks) != {} && Least(Addressed(networks)) == Sorted(networks.Keys)[i]
  {
    hide Trim, Sorted, LexLe;
    var names := Sorted(networks.Keys);
    assert names[i] in Addressed(networks);
    var x := Least(Addressed(networks));
    var k :| 0 <= k < |names| && names[k] == x;
    LexTotal(names[i], x);
  }

  /** resolveBackendURL */
  method ResolveBackend(urls: Urls, labels: Labels, net: Networking, advertiseAddr: string, servicePort: int)
    returns (b: Option<Backend>)
    ensures b == BackendFor(urls, labels, net, advertiseAddr, servicePort)
    ensures b.Some? <==> Resolvable(urls, labels, net, advertiseAddr, servicePort)
  {
    hide Resolvable;
    BackendExistsIff(urls, labels, net, advertiseAddr, servicePort);
    if TrimmedLabel(labels, BACKEND_URL) != "" {
      var u := urls.parse(TrimmedLabel(labels, BACKEND_URL));
      if u.None? {
        return None;
      }
      return Some(Backend(u.value, "override-url", servicePort));
    }
    if TrimmedLabel(labels, BACKEND_HOST) != "" {
      var port := servicePort;
      if TrimmedLabel(labels, BACKEND_PORT) != "" {
        var n := Atoi(TrimmedLabel(labels, BACKEND_PORT));
        if n.None? || n.value <= 0 {
          return None;
        }
        port := n.value;
      }
      if port <= 0 {
        return None;
      }
      var scheme := TrimmedLabel(labels, BACKEND_SCHEME);
      if scheme == "" {
        scheme := "http";
      }
      return Some(Backend(urls.build(scheme, TrimmedLabel(labels, BACKEND_HOST) + ":" + Itoa(port)),
                          "override-host-port", port));
    }
    var port := servicePort;
    if port <= 0 {
      var inferred := InferPortLoop(net);
      if inferred.None? {
        return None;
      }
      port := inferred.value;
    }
    if Lower(net.mode) == "host" {
      if advertiseAddr == "" {
        return None;
      }
      return Some(Backend(Plain(advertiseAddr, port), "host-network", port));
    }
    var address := PreferredAddressLoop(net, labels);
    if address != "" {
      return Some(Backend(Plain(address, port), "container-ip", port));
    }
    return None;
  }
}
