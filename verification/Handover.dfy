/** How a stub finds its service again: what it reads from its environment, what it tells the worker, and
    what the worker makes of that. */
module Handover {
  import opened Strings
  import opened Model
  import opened LabelParser
  import opened Backends
  import opened Export
  import opened Stubs
  import opened Desired
  import opened Resolve
  import opened Vocabulary

  // ---------------------------------------------------------------- the stub

  /** os.Getenv over a list of NAME=value entries: the first entry counts. */
  function Getenv(env: seq<string>, name: string): string
  {
    if env == [] then ""
    else if name + "=" <= env[0] then env[0][|name| + 1..]
    else Getenv(env[1..], name)
  }

  datatype StubConfig = StubConfig(
    listen: string, target: string, token: string, containerId: string, serviceName: string)

  /** LoadStub, without flags. */
  function LoadStub(env: seq<string>): Option<StubConfig>
  {
    var listen := if Getenv(env, "STUB_LISTEN_ADDR") != "" then Getenv(env, "STUB_LISTEN_ADDR") else ":18181";
    var cfg := StubConfig(listen, Getenv(env, "STUB_TARGET_URL"), Getenv(env, "STUB_TOKEN"),
                          Getenv(env, "STUB_CONTAINER_ID"), Getenv(env, "STUB_SERVICE_NAME"));
    if cfg.target == "" || cfg.token == "" || cfg.containerId == "" || cfg.serviceName == "" then None else Some(cfg)
  }

  type Fields = map<string, string>

  function Field(h: Fields, name: string): string
  {
    if name in h then h[name] else ""
  }

  /** tunnelHeaders */
  function TunnelHeaders(cfg: StubConfig): Fields
  {
    map["X-Traefik-Connect-Token" := cfg.token,
        "X-Traefik-Connect-Container-Id" := cfg.containerId,
        "X-Traefik-Connect-Service-Name" := cfg.serviceName]
  }

  // ---------------------------------------------------------------- on the way

  predicate Blank(c: char)
  {
    c == ' ' || c == '\t'
  }

  /** No blanks at either end. */
  predicate Bare(s: string)
  {
    s != "" ==> !Blank(s[0]) && !Blank(s[|s| - 1])
  }

  function Unblanked(s: string): (r: string)
    ensures Bare(r) && (Bare(s) ==> r == s)
  {
    if s != "" && Blank(s[0]) then Unblanked(s[1..])
    else if s != "" && Blank(s[|s| - 1]) then Unblanked(s[..|s| - 1])
    else s
  }

  /** Field values as net/http reads them, without the blanks around them. */
  function Received(h: Fields): Fields
  {
    map k | k in h :: Unblanked(h[k])
  }

  // ---------------------------------------------------------------- the worker

  datatype Answer = Unauthorized | BadRequest | NotFound | Serving(container: ContainerSpec, service: ServiceSpec)

  /** handleTunnel up to the look-up, for a request to upgrade. */
  function HandleTunnel(token: string, s: Snapshot, h: Fields): Answer
  {
    var containerId := Field(h, "X-Traefik-Connect-Container-Id");
    var service := Field(h, "X-Traefik-Connect-Service-Name");
    if Field(h, "X-Traefik-Connect-Token") != token then Unauthorized
    else if containerId == "" || service == "" then BadRequest
    else
      var found := Lookup(s, containerId, service);
      if found.Missing? then NotFound else Serving(found.container, found.service)
  }

  /** The worker's refusals: another token, a missing name, an unknown service. */
  lemma TunnelRefusals(token: string, s: Snapshot, h: Fields)
    ensures var said := (k: string) => if k in h then h[k] else "";
            && (HandleTunnel(token, s, h) == Unauthorized <==> said("X-Traefik-Connect-Token") != token)
            && (HandleTunnel(token, s, h) == BadRequest <==>
                  && said("X-Traefik-Connect-Token") == token
                  && (said("X-Traefik-Connect-Container-Id") == "" || said("X-Traefik-Connect-Service-Name") == ""))
            && (HandleTunnel(token, s, h) == NotFound ==>
                  Lookup(s, said("X-Traefik-Connect-Container-Id"), said("X-Traefik-Connect-Service-Name")).Missing?)
  {
    hide Lookup;
  }

  /** Without a target, a token, a container or a service a stub does not start; it has a default address. */
  lemma StubNeeds(env: seq<string>)
    ensures LoadStub(env).Some? <==>
            && Getenv(env, "STUB_TARGET_URL") != "" && Getenv(env, "STUB_TOKEN") != ""
            && Getenv(env, "STUB_CONTAINER_ID") != "" && Getenv(env, "STUB_SERVICE_NAME") != ""
    ensures LoadStub(env).Some? && Getenv(env, "STUB_LISTEN_ADDR") == "" ==> LoadStub(env).value.listen == ":18181"
    ensures Getenv([], "STUB_TOKEN") == ""
  {
  }

  // ---------------------------------------------------------------- together

  /** The worker whose address and port these are: "http://", the address, a colon, the port, "/tunnel". */
  ghost predicate Targets(url: string, s: Snapshot)
  {
    exists base :: url == base + "/tunnel" && Reaches(base, s.advertiseAddr, s.proxyPort)
  }

  lemma Entry(env: seq<string>, i: nat, name: string, value: string)
    requires i < |env| && env[i] == name + "=" + value && forall j :: 0 <= j < i ==> !(name + "=" <= env[j])
    ensures Getenv(env, name) == value
  {
    if i == 0 {
      assert env[0][..|name| + 1] == name + "=";
    } else {
      assert env[1..][i - 1] == env[i];
      Entry(env[1..], i - 1, name, value);
    }
  }

  lemma EnvReads(base: string, token: string, containerId: string, service: string)
    ensures var env := ["STUB_TARGET_URL=" + (base + "/tunnel"), "STUB_TOKEN=" + token,
                        "STUB_CONTAINER_ID=" + containerId, "STUB_SERVICE_NAME=" + service, "STUB_LISTEN_ADDR=:18181"];
            && Getenv(env, "STUB_TARGET_URL") == base + "/tunnel" && Getenv(env, "STUB_TOKEN") == token
            && Getenv(env, "STUB_CONTAINER_ID") == containerId && Getenv(env, "STUB_SERVICE_NAME") == service
            && Getenv(env, "STUB_LISTEN_ADDR") == ":18181"
  {
    var env := ["STUB_TARGET_URL=" + (base + "/tunnel"), "STUB_TOKEN=" + token, "STUB_CONTAINER_ID=" + containerId,
                "STUB_SERVICE_NAME=" + service, "STUB_LISTEN_ADDR=:18181"];
    assert env[0][5] == 'T' && env[1][5] == 'T' && env[2][5] == 'C' && env[3][5] == 'S';
    assert env[0][6] == 'A' && "STUB_TOKEN="[6] == 'O' && "STUB_CONTAINER_ID="[5] == 'C';
    assert "STUB_SERVICE_NAME="[5] == 'S' && "STUB_LISTEN_ADDR="[5] == 'L';
    hide Getenv;
    Entry(env, 0, "STUB_TARGET_URL", base + "/tunnel");
    Entry(env, 1, "STUB_TOKEN", token);
    Entry(env, 2, "STUB_CONTAINER_ID", containerId);
    Entry(env, 3, "STUB_SERVICE_NAME", service);
    Entry(env, 4, "STUB_LISTEN_ADDR", ":18181");
  }

  /** What the stub reads from its environment is what it was built for. */
  lemma StubReads(cfg: Config, s: Snapshot, c: ContainerSpec, service: string, imageId: string)
    requires service in c.services
    ensures var env := StubFor(cfg, s, c, service, imageId).env;
            && Getenv(env, "STUB_CONTAINER_ID") == c.id && Getenv(env, "STUB_SERVICE_NAME") == service
            && Getenv(env, "STUB_TOKEN") == cfg.token && Getenv(env, "STUB_LISTEN_ADDR") == ":18181"
            && Getenv(env, "STUB_TARGET_URL") != "" && (s.proxyPort > 0 ==> Targets(Getenv(env, "STUB_TARGET_URL"), s))
  {
    hide StubLabels, RoutersOf, StubName, Itoa, Getenv;
    var base := Plain(s.advertiseAddr, s.proxyPort);
    assert TargetUrl(s) == "STUB_TARGET_URL=" + (base + "/tunnel");
    EnvReads(base, cfg.token, c.id, service);
    if s.proxyPort > 0 {
      PlainReaches(s.advertiseAddr, s.proxyPort);
    }
  }

  /** A stub starts if the receiver has a token. It listens on the very port its labels name, calls the worker
      that sent the snapshot, and the worker, if it has the same token, serves it from the very container and
      service the stub was built from; unless there are blanks around one of these, which get lost on the way. */
  lemma StubFindsItsService(cfg: Config, s: Snapshot, imageId: string, spec: StubSpec, token: string)
    returns (c: ContainerSpec)
    requires spec in StubsOf(cfg, Validated(s), Validated(s).containers, imageId)
    ensures c in Validated(s).containers && IsStubOf(cfg, Validated(s), c, spec.serviceName, imageId, spec)
    ensures Lookup(s, spec.containerId, spec.serviceName) == Found(c, c.services[spec.serviceName], true)
    ensures LoadStub(spec.env).Some? <==> cfg.token != ""
    ensures cfg.token != "" ==>
      var stub := LoadStub(spec.env).value;
      && Get(spec.labels, "traefik.http.services." + spec.serviceName + "." + "loadbalancer.server.port")
         == Some(stub.listen[1..]) && stub.listen[..1] == ":"
      && (s.proxyPort > 0 ==> Targets(stub.target, s))
      && (token != Unblanked(cfg.token) ==> HandleTunnel(token, s, Received(TunnelHeaders(stub))) == Unauthorized)
      && (token == Unblanked(cfg.token) && Bare(spec.containerId) && Bare(spec.serviceName) ==>
            HandleTunnel(token, s, Received(TunnelHeaders(stub))) == Serving(c, c.services[spec.serviceName]))
      && (ServesFrom(token, s, stub, c, spec.serviceName) && WellFormed(c) ==> Bare(spec.serviceName))
  {
    hide StubFor, StubsOf, Clean, Lookup, Getenv, StubLabels, RoutersOf, Targets, WellFormed, ServesFrom, HandleTunnel;
    hide Received, TunnelHeaders;
    c := EveryStubResolves(cfg, s, imageId, spec);
    var v := Validated(s);
    StubHasService(cfg, v, c, spec.serviceName, imageId, spec);
    StubReads(cfg, v, c, spec.serviceName, imageId);
    assert Targets(Getenv(spec.env, "STUB_TARGET_URL"), v) ==> Targets(Getenv(spec.env, "STUB_TARGET_URL"), s) by {
      SameTarget(Getenv(spec.env, "STUB_TARGET_URL"), v, s);
    }
    CleanIs(s.containers, {});
    RoutedIsNamed(c, spec.serviceName);
    PortIsShown(cfg, v, c, spec.serviceName, imageId);
    assert ":18181"[1..] == "18181" && ":18181"[..1] == ":";
    if cfg.token != "" {
      TunnelAnswer(token, s, LoadStub(spec.env).value);
    }
    if cfg.token != "" && WellFormed(c) && ServesFrom(token, s, LoadStub(spec.env).value, c, spec.serviceName) {
      NamesItself(token, s, LoadStub(spec.env).value, c, spec.serviceName);
    }
  }

  lemma TunnelAnswer(token: string, s: Snapshot, stub: StubConfig)
    ensures var answer := HandleTunnel(token, s, Received(TunnelHeaders(stub)));
            var id, name := Unblanked(stub.containerId), Unblanked(stub.serviceName);
            && (answer == Unauthorized <==> token != Unblanked(stub.token))
            && (token == Unblanked(stub.token) && id != "" && name != "" && Lookup(s, id, name).Found? ==>
                  answer == Serving(Lookup(s, id, name).container, Lookup(s, id, name).service))
  {
    hide Lookup, Unblanked;
    assert "X-Traefik-Connect-Token"[18] == 'T' && "X-Traefik-Connect-Container-Id"[18] == 'C';
    assert "X-Traefik-Connect-Service-Name"[18] == 'S';
  }

  /** The worker answers the stub's call from this service of this container. */
  predicate ServesFrom(token: string, s: Snapshot, stub: StubConfig, c: ContainerSpec, service: string)
  {
    && service in c.services
    && HandleTunnel(token, s, Received(TunnelHeaders(stub))) == Serving(c, c.services[service])
  }

  /** What is served has the name that was received. */
  lemma NamesItself(token: string, s: Snapshot, stub: StubConfig, c: ContainerSpec, service: string)
    requires WellFormed(c) && ServesFrom(token, s, stub, c, service)
    ensures service == Unblanked(stub.serviceName)
  {
    hide FirstWith;
    var id, name := Unblanked(stub.containerId), Unblanked(stub.serviceName);
    var found := Lookup(s, id, name);
    assert name in found.container.services && found.service == found.container.services[name];
    assert found.container == c && c.services[name].name == name && c.services[service].name == service;
  }

  lemma RoutedIsNamed(c: ContainerSpec, service: string)
    requires RoutersOf(c, service) != []
    ensures service != ""
  {
    assert RoutersOf(c, service)[0] in RoutersOf(c, service);
  }

  lemma SameTarget(url: string, v: Snapshot, s: Snapshot)
    requires v.advertiseAddr == s.advertiseAddr && v.proxyPort == s.proxyPort
    ensures Targets(url, v) ==> Targets(url, s)
  {
  }

  lemma PortIsShown(cfg: Config, s: Snapshot, c: ContainerSpec, service: string, imageId: string)
    requires service in c.services
    ensures Get(StubFor(cfg, s, c, service, imageId).labels,
                "traefik.http.services." + service + "." + "loadbalancer.server.port") == Some("18181")
  {
    hide StubLabels, RoutersOf, StubName;
    var hash := StubFor(cfg, s, c, service, imageId).desiredHash;
    SealedLabels(s.workerId, c, service, cfg.network, RoutersOf(c, service), hash);
    ServiceIsShown(s.workerId, c, service, cfg.network, RoutersOf(c, service), hash);
  }
}
