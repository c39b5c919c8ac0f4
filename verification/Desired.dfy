/** The desired stub containers of a snapshot, with their names, environments and hashes. */
module Desired {
  import opened Strings
  import opened Model
  import opened LabelParser
  import opened LabelPrinter
  import opened Export
  import opened Stubs
  import opened TlsStubs
  import Names

  /** What the desired hash of a stub is taken over. */
  datatype Preimage = Preimage(
    workerId: string, container: string, service: string, target: string, imageId: string,
    labels: Labels, image: string)

  /** The receiver's settings. digest is the twelve hex digits of SHA-1, specHash the SHA-256 of
      the canonical JSON; both are functions here, and theorems that need them to be free of
      collisions say so. */
  datatype Config = Config(
    network: string, image: string, token: string, tables: Names.Tables,
    digest: string -> string, specHash: Preimage -> string)

  datatype StubSpec = StubSpec(
    name: string, image: string, imageId: string, containerId: string, containerName: string,
    serviceName: string, desiredHash: string, labels: Labels, env: seq<string>)

  // ---------------------------------------------------------------- names

  /** What ShortHash feeds to SHA-1: every part followed by a NUL. */
  function NulTerminated(parts: seq<string>): string
  {
    if parts == [] then "" else parts[0] + ['\0'] + NulTerminated(parts[1..])
  }

  lemma {:induction false} NulEnds(a: string, x: string, b: string, y: string)
    requires '\0' !in a && '\0' !in b && a + ['\0'] + x == b + ['\0'] + y
    ensures a == b && x == y
  {
    var s, t := a + ['\0'] + x, b + ['\0'] + y;
    assert s[|a|] == '\0' && t[|b|] == '\0';
    assert forall i :: 0 <= i < |a| ==> s[i] == a[i] && a[i] in a;
    assert forall i :: 0 <= i < |b| ==> t[i] == b[i] && b[i] in b;
    assert |a| == |b|;
    assert a == s[..|a|] && b == t[..|b|];
    assert x == s[|a| + 1..] && y == t[|b| + 1..];
  }

  /** The terminators keep lists of NUL-free parts apart. */
  lemma {:induction false} NulTerminatedInjective(ps: seq<string>, qs: seq<string>)
    requires forall p :: p in ps ==> '\0' !in p
    requires forall q :: q in qs ==> '\0' !in q
    requires NulTerminated(ps) == NulTerminated(qs)
    ensures ps == qs
  {
    if ps != [] && qs != [] {
      NulEnds(ps[0], NulTerminated(ps[1..]), qs[0], NulTerminated(qs[1..]));
      NulTerminatedInjective(ps[1..], qs[1..]);
      assert ps == [ps[0]] + ps[1..] && qs == [qs[0]] + qs[1..];
    }
  }

  function StubName(cfg: Config, worker: string, containerId: string, service: string): string
  {
    Names.SanitizeName(cfg.tables, "tc-" + cfg.digest(NulTerminated([worker, containerId, service])))
  }

  ghost predicate HexDigest(cfg: Config)
  {
    && Names.Sane(cfg.tables)
    && forall x :: cfg.digest(x) != "" && forall i :: 0 <= i < |cfg.digest(x)| ==> Names.IsAsciiName(cfg.digest(x)[i])
  }

  /** A stub is named after the digest of its three parts, each ended by a NUL. */
  lemma StubNameSays(cfg: Config, worker: string, containerId: string, service: string)
    requires HexDigest(cfg)
    ensures StubName(cfg, worker, containerId, service)
         == "tc-" + cfg.digest(worker + ['\0'] + (containerId + ['\0'] + (service + ['\0'])))
  {
    var parts := [worker, containerId, service];
    assert NulTerminated([]) == "";
    assert [service][1..] == [] && NulTerminated([service]) == service + ['\0'] + "";
    assert [containerId, service][1..] == [service];
    assert NulTerminated([containerId, service]) == containerId + ['\0'] + NulTerminated([service]);
    assert parts[1..] == [containerId, service];
    assert NulTerminated(parts) == worker + ['\0'] + NulTerminated(parts[1..]);
    assert NulTerminated(parts) == worker + ['\0'] + (containerId + ['\0'] + (service + ['\0']));
    Names.StubNameUnchanged(cfg.tables, cfg.digest(NulTerminated(parts)));
  }

  /** Sanitising loses nothing: two stubs share a name exactly if their triples share a digest. */
  lemma StubNameIsDigest(cfg: Config, w: string, c: string, s: string, w': string, c': string, s': string)
    requires HexDigest(cfg)
    ensures StubName(cfg, w, c, s) == StubName(cfg, w', c', s')
       <==> cfg.digest(NulTerminated([w, c, s])) == cfg.digest(NulTerminated([w', c', s']))
  {
    var h, h' := cfg.digest(NulTerminated([w, c, s])), cfg.digest(NulTerminated([w', c', s']));
    Names.StubNameUnchanged(cfg.tables, h);
    Names.StubNameUnchanged(cfg.tables, h');
    assert ("tc-" + h)[3..] == h && ("tc-" + h')[3..] == h';
  }

  // ---------------------------------------------------------------- one stub

  function TargetUrl(s: Snapshot): string
  {
    "STUB_TARGET_URL=http://" + s.advertiseAddr + ":" + Itoa(s.proxyPort) + "/tunnel"
  }

  function StubEnv(cfg: Config, target: string, containerId: string, service: string): seq<string>
  {
    [target, "STUB_TOKEN=" + cfg.token, "STUB_CONTAINER_ID=" + containerId, "STUB_SERVICE_NAME=" + service,
     "STUB_LISTEN_ADDR=:18181"]
  }

  function StubPreimage(cfg: Config, s: Snapshot, c: ContainerSpec, service: string, imageId: string): Preimage
    requires service in c.services
  {
    Preimage(s.workerId, c.id, service, TargetUrl(s), imageId,
             StubLabels(s.workerId, c, service, cfg.network, RoutersOf(c, service), ""), cfg.image)
  }

  /** A stub spec is determined by the preimage of its hash, the settings and the container name. */
  function FromPreimage(cfg: Config, p: Preimage, containerName: string): StubSpec
  {
    var hash := cfg.specHash(p);
    StubSpec(StubName(cfg, p.workerId, p.container, p.service), p.image, p.imageId, p.container, containerName,
             p.service,
             hash, p.labels[DESIRED_HASH := hash], StubEnv(cfg, p.target, p.container, p.service))
  }

  function StubFor(cfg: Config, s: Snapshot, c: ContainerSpec, service: string, imageId: string): StubSpec
    requires service in c.services
  {
    FromPreimage(cfg, StubPreimage(cfg, s, c, service, imageId), c.name)
  }

  lemma {:induction false} MergeSet(l: Labels, c: ContainerSpec, service: string, pieces: seq<Piece>, key: string,
                                    v: string)
    requires forall p :: p in pieces ==> key !in PieceLabels(c, service, p)
    ensures Merge(l, c, service, pieces)[key := v] == Merge(l[key := v], c, service, pieces)
    decreases pieces
  {
    hide PieceLabels;
    if pieces != [] {
      var piece := PieceLabels(c, service, pieces[0]);
      assert (l + piece)[key := v] == l[key := v] + piece;
      MergeSet(l + piece, c, service, pieces[1..], key, v);
    }
  }

  /** Filling in the hash after the fact changes the hash label only. */
  lemma SealedLabels(worker: string, c: ContainerSpec, service: string, network: string, names: seq<string>,
                     hash: string)
    requires service in c.services && forall n :: n in names ==> n in c.routers
    ensures StubLabels(worker, c, service, network, names, "")[DESIRED_HASH := hash]
         == StubLabels(worker, c, service, network, names, hash)
  {
    hide PieceLabels, Prefixed, ServiceSuffixes;
    assert DESIRED_HASH[7] == '-' && DESIRED_HASH[8] == 'c';
    forall p | p in Pieces(c, names) ensures DESIRED_HASH !in PieceLabels(c, service, p) {
      if DESIRED_HASH in PieceLabels(c, service, p) {
        PieceKeys(c, service, p, DESIRED_HASH);
      }
    }
    var l := BaseLabels(worker, c, service, c.services[service], network, "");
    MergeSet(l, c, service, Pieces(c, names), DESIRED_HASH, hash);
    BaseSet(worker, c, service, c.services[service], network, hash);
  }

  lemma BaseSet(worker: string, c: ContainerSpec, service: string, svc: ServiceSpec, network: string, hash: string)
    ensures BaseLabels(worker, c, service, svc, network, "")[DESIRED_HASH := hash]
      == BaseLabels(worker, c, service, svc, network, hash)
  {
    HashKeyElsewhere(service, svc, network);
    ManagedSet(worker, c, service, hash);
    hide Prefixed, ServiceSuffixes, ManagedLabels, NetworkLabels, TcpPort, SERVICES, DESIRED_HASH;
    var l, n := ManagedLabels(worker, c, service, ""), NetworkLabels(network);
    var x, y := Prefixed(SERVICES + service + ".", ServiceSuffixes(svc)), TcpPort(service);
    SetThenAdd(l, n, DESIRED_HASH, hash);
    SetThenAdd(l + n, x, DESIRED_HASH, hash);
    SetThenAdd(l + n + x, y, DESIRED_HASH, hash);
  }

  lemma HashKeyElsewhere(service: string, svc: ServiceSpec, network: string)
    ensures DESIRED_HASH !in NetworkLabels(network)
    ensures DESIRED_HASH !in Prefixed(SERVICES + service + ".", ServiceSuffixes(svc))
    ensures DESIRED_HASH !in TcpPort(service)
  {
    hide Prefixed, ServiceSuffixes, SERVICES, TCP_SERVICES;
    FamilyPrefixes(service);
    var q := TCP_SERVICES + service + ".";
    assert TCP_SERVICES + service + ".loadbalancer.server.port" == q + "loadbalancer.server.port";
    assert DESIRED_HASH[7] == '-' && DESIRED_HASH[8] == 'c' && "traefik.docker.network"[7] == '.';
  }

  lemma ManagedSet(worker: string, c: ContainerSpec, service: string, hash: string)
    ensures ManagedLabels(worker, c, service, "")[DESIRED_HASH := hash] == ManagedLabels(worker, c, service, hash)
  {
  }

  lemma SetThenAdd(l: Labels, more: Labels, key: string, v: string)
    requires key !in more
    ensures (l + more)[key := v] == l[key := v] + more
  {
  }

  // ---------------------------------------------------------------- all stubs of a snapshot

  function ContainerStubs(cfg: Config, s: Snapshot, c: ContainerSpec, services: seq<string>,
                          imageId: string): seq<StubSpec>
    requires forall n :: n in services ==> n in c.services
  {
    if services == [] then []
    else
      var first := if RoutersOf(c, services[0]) == [] then [] else [StubFor(cfg, s, c, services[0], imageId)];
      first + ContainerStubs(cfg, s, c, services[1..], imageId)
  }

  function StubsOf(cfg: Config, s: Snapshot, containers: seq<ContainerSpec>, imageId: string): seq<StubSpec>
  {
    if containers == [] then []
    else
      var first := ContainerStubs(cfg, s, containers[0], Sorted(containers[0].services.Keys), imageId);
      first + StubsOf(cfg, s, containers[1..], imageId)
  }

  predicate Reachable(s: Snapshot)
  {
    s.advertiseAddr != "" && s.proxyPort > 0
  }

  /** None: the snapshot misses its address or port. */
  function DesiredStubs(cfg: Config, s: Snapshot, imageId: string): Option<seq<StubSpec>>
  {
    if Reachable(s) then Some(StubsOf(cfg, s, s.containers, imageId)) else None
  }

  ghost predicate IsStubOf(cfg: Config, s: Snapshot, c: ContainerSpec, service: string, imageId: string, spec: StubSpec)
  {
    service in c.services && RoutersOf(c, service) != [] && spec == StubFor(cfg, s, c, service, imageId)
  }

  lemma {:induction false} ContainerStubsAre(cfg: Config, s: Snapshot, c: ContainerSpec, services: seq<string>,
                                             imageId: string, spec: StubSpec)
    requires forall n :: n in services ==> n in c.services
    ensures spec in ContainerStubs(cfg, s, c, services, imageId) <==>
            exists n :: n in services && IsStubOf(cfg, s, c, n, imageId, spec)
  {
    hide StubFor, RoutersOf;
    if services != [] {
      var rest := services[1..];
      ContainerStubsAre(cfg, s, c, rest, imageId, spec);
      var first := if RoutersOf(c, services[0]) == [] then [] else [StubFor(cfg, s, c, services[0], imageId)];
      assert ContainerStubs(cfg, s, c, services, imageId) == first + ContainerStubs(cfg, s, c, rest, imageId);
      assert spec in first <==> IsStubOf(cfg, s, c, services[0], imageId, spec);
      assert forall n :: n in services <==> n == services[0] || n in rest;
    }
  }

  lemma {:induction false} StubsAre(cfg: Config, s: Snapshot, containers: seq<ContainerSpec>, imageId: string,
                                    spec: StubSpec)
    ensures spec in StubsOf(cfg, s, containers, imageId) <==>
            exists c, n :: c in containers && IsStubOf(cfg, s, c, n, imageId, spec)
  {
    hide StubFor, RoutersOf, ContainerStubs, IsStubOf, Sorted;
    if containers != [] {
      var c := containers[0];
      ContainerStubsAre(cfg, s, c, Sorted(c.services.Keys), imageId, spec);
      StubsAre(cfg, s, containers[1..], imageId, spec);
      forall n | IsStubOf(cfg, s, c, n, imageId, spec) ensures n in c.services {
        StubHasService(cfg, s, c, n, imageId, spec);
      }
      assert containers == [c] + containers[1..];
    }
  }

  lemma StubHasService(cfg: Config, s: Snapshot, c: ContainerSpec, n: string, imageId: string, spec: StubSpec)
    requires IsStubOf(cfg, s, c, n, imageId, spec)
    ensures n in c.services && spec.containerId == c.id && spec.serviceName == n && spec.imageId == imageId
    ensures spec.name == StubName(cfg, s.workerId, c.id, n)
  {
  }

  ghost predicate DistinctIds(containers: seq<ContainerSpec>)
  {
    forall i, j :: 0 <= i < j < |containers| ==> containers[i].id != containers[j].id
  }

  /** What the name of a stub is made from: worker, container id and service. */
  type Triple = (string, string, string)

  function Preimaged(t: Triple): string
  {
    NulTerminated([t.0, t.1, t.2])
  }

  ghost function TriplesOf(s: Snapshot): set<Triple>
  {
    set c, n | c in s.containers && n in c.services :: (s.workerId, c.id, n)
  }

  /** No NUL in these triples, and no two of them that are written differently have the same digest. */
  ghost predicate NamedApart(cfg: Config, triples: set<Triple>)
  {
    && HexDigest(cfg)
    && (forall t :: t in triples ==> '\0' !in t.0 && '\0' !in t.1 && '\0' !in t.2)
    && (forall t, u :: t in triples && u in triples && cfg.digest(Preimaged(t)) == cfg.digest(Preimaged(u)) ==>
          Preimaged(t) == Preimaged(u))
  }

  lemma NameIdentifiesTriple(cfg: Config, triples: set<Triple>, t: Triple, u: Triple)
    requires NamedApart(cfg, triples) && t in triples && u in triples
    requires StubName(cfg, t.0, t.1, t.2) == StubName(cfg, u.0, u.1, u.2)
    ensures t == u
  {
    hide StubName, HexDigest, NulTerminated;
    StubNameIsDigest(cfg, t.0, t.1, t.2, u.0, u.1, u.2);
    var ps, qs := [t.0, t.1, t.2], [u.0, u.1, u.2];
    NulTerminatedInjective(ps, qs);
    assert ps[0] == qs[0] && ps[1] == qs[1] && ps[2] == qs[2];
  }

  /** The triple behind a stub. */
  lemma TripleOfStub(cfg: Config, s: Snapshot, containers: seq<ContainerSpec>, imageId: string, spec: StubSpec)
    returns (c: ContainerSpec, n: string)
    requires spec in StubsOf(cfg, s, containers, imageId)
    ensures c in containers && IsStubOf(cfg, s, c, n, imageId, spec)
    ensures n in c.services && spec.name == StubName(cfg, s.workerId, c.id, n)
  {
    hide StubFor, RoutersOf, StubsOf, StubName;
    StubsAre(cfg, s, containers, imageId, spec);
    c, n :| c in containers && IsStubOf(cfg, s, c, n, imageId, spec);
    StubHasService(cfg, s, c, n, imageId, spec);
  }

  ghost predicate NamesDiffer(specs: seq<StubSpec>)
  {
    forall i, j :: 0 <= i < j < |specs| ==> specs[i].name != specs[j].name
  }

  lemma {:induction false} ServiceStubsDiffer(cfg: Config, s: Snapshot, c: ContainerSpec, services: seq<string>,
                                              imageId: string,
                                              triples: set<Triple>)
    requires NamedApart(cfg, triples) && Distinct(services)
    requires forall n :: n in services ==> n in c.services && (s.workerId, c.id, n) in triples
    ensures NamesDiffer(ContainerStubs(cfg, s, c, services, imageId))
  {
    hide StubFor, RoutersOf, StubName, NamedApart;
    if services != [] {
      var all, rest := ContainerStubs(cfg, s, c, services, imageId), ContainerStubs(cfg, s, c, services[1..], imageId);
      ServiceStubsDiffer(cfg, s, c, services[1..], imageId, triples);
      if RoutersOf(c, services[0]) != [] {
        forall j | 0 <= j < |rest| ensures rest[j].name != all[0].name {
          ContainerStubsAre(cfg, s, c, services[1..], imageId, rest[j]);
          var n :| n in services[1..] && IsStubOf(cfg, s, c, n, imageId, rest[j]);
          StubHasService(cfg, s, c, n, imageId, rest[j]);
          StubHasService(cfg, s, c, services[0], imageId, all[0]);
          if rest[j].name == all[0].name {
            NameIdentifiesTriple(cfg, triples, (s.workerId, c.id, n), (s.workerId, c.id, services[0]));
          }
        }
      }
    }
  }

  lemma {:induction false} AllStubsDiffer(cfg: Config, s: Snapshot, containers: seq<ContainerSpec>, imageId: string,
                                          triples: set<Triple>)
    requires NamedApart(cfg, triples) && DistinctIds(containers)
    requires forall c, n :: c in containers && n in c.services ==> (s.workerId, c.id, n) in triples
    ensures NamesDiffer(StubsOf(cfg, s, containers, imageId))
  {
    hide StubName, NamedApart, ContainerStubs;
    if containers != [] {
      var c, services := containers[0], Sorted(containers[0].services.Keys);
      var first, rest := ContainerStubs(cfg, s, c, services, imageId), StubsOf(cfg, s, containers[1..], imageId);
      ServiceStubsDiffer(cfg, s, c, services, imageId, triples);
      AllStubsDiffer(cfg, s, containers[1..], imageId, triples);
      forall i, j | 0 <= i < |first| && 0 <= j < |rest| ensures first[i].name != rest[j].name {
        ContainerStubsAre(cfg, s, c, services, imageId, first[i]);
        var n :| n in services && IsStubOf(cfg, s, c, n, imageId, first[i]);
        StubHasService(cfg, s, c, n, imageId, first[i]);
        var c', n' := TripleOfStub(cfg, s, containers[1..], imageId, rest[j]);
        if first[i].name == rest[j].name {
          NameIdentifiesTriple(cfg, triples, (s.workerId, c.id, n), (s.workerId, c'.id, n'));
          assert false;
        }
      }
    }
  }

  /** In a snapshot without duplicate container ids, no two stubs share a name. */
  lemma StubNamesDiffer(cfg: Config, s: Snapshot, imageId: string)
    requires NamedApart(cfg, TriplesOf(s)) && DistinctIds(s.containers)
    ensures NamesDiffer(StubsOf(cfg, s, s.containers, imageId))
  {
    hide NamedApart;
    AllStubsDiffer(cfg, s, s.containers, imageId, TriplesOf(s));
  }

  // ---------------------------------------------------------------- the hash of the snapshot is not used

  lemma {:induction false} ServiceStubsUnhashed(cfg: Config, s: Snapshot, h: string, c: ContainerSpec,
                                                services: seq<string>, imageId: string)
    requires forall n :: n in services ==> n in c.services
    ensures ContainerStubs(cfg, s.(hash := h), c, services, imageId) == ContainerStubs(cfg, s, c, services, imageId)
  {
    hide RoutersOf, StubLabels, FromPreimage;
    if services != [] {
      ServiceStubsUnhashed(cfg, s, h, c, services[1..], imageId);
      assert StubFor(cfg, s.(hash := h), c, services[0], imageId) == StubFor(cfg, s, c, services[0], imageId);
    }
  }

  lemma {:induction false} StubsUnhashed(cfg: Config, s: Snapshot, h: string, containers: seq<ContainerSpec>,
                                         imageId: string)
    ensures StubsOf(cfg, s.(hash := h), containers, imageId) == StubsOf(cfg, s, containers, imageId)
  {
    hide ContainerStubs;
    if containers != [] {
      StubsUnhashed(cfg, s, h, containers[1..], imageId);
      ServiceStubsUnhashed(cfg, s, h, containers[0], Sorted(containers[0].services.Keys), imageId);
    }
  }

  // ---------------------------------------------------------------- plain HTTP survives compilation

  /** What is left of a service: its name, its flags, and the port of the stub. */
  function StubService(service: string, svc: ServiceSpec): ServiceSpec
  {
    ServiceSpec(service, 18181, "", "", svc.passHostHeader, svc.sticky)
  }

  /** The middlewares that the plain-HTTP routers of a service refer to, unless they carry nothing. */
  function StubMiddlewares(c: ContainerSpec, service: string): map<string, MiddlewareSpec>
  {
    map m | m in Mentioned(c, RoutersOf(c, service)) && c.middlewares[m].fields != map[] ::
      Regrouped(m, c.middlewares[m])
  }

  /** The plain-HTTP meaning of an exported container: reading the labels of the stub of a service gives
      exactly the container's plain-HTTP routers of that service (if the service name has no surrounding
      white space), that one service at the stub's port, and the middlewares those routers refer to. */
  lemma PlainHttpSurvives(ins: Inspect, resolve: Resolver, cfg: Config, s: Snapshot, imageId: string, service: string)
    requires BuildContainer(ins, resolve).Exported? && service in BuildContainer(ins, resolve).spec.services
    ensures var c := BuildContainer(ins, resolve).spec;
            var labels := StubFor(cfg, s, c, service, imageId).labels;
            && (ParseRouters(labels) == PlainRouters(c, service) <==>
                  Trimmed(service) || PlainRouters(c, service) == map[])
            && ParseServices(labels) == map[service := StubService(service, c.services[service])]
            && ParseMiddlewares(labels) == StubMiddlewares(c, service)
  {
    hide BuildContainer, StubLabels, ParseRouters, ParseServices, ParseMiddlewares, PlainRouters, Mentioned;
    hide RoutersOf, Regrouped;
    var c := BuildContainer(ins, resolve).spec;
    ExportedIsClosed(ins, resolve);
    var hash := StubFor(cfg, s, c, service, imageId).desiredHash;
    SealedLabels(s.workerId, c, service, cfg.network, RoutersOf(c, service), hash);
    PlainRoutersEqualIff(s.workerId, c, service, cfg.network, hash);
    ServiceSurvives(s.workerId, c, service, cfg.network, RoutersOf(c, service), hash);
    MiddlewaresSurvive(s.workerId, c, service, cfg.network, RoutersOf(c, service), hash);
  }

  /** The TLS half: the TCP routers of the stub are the service's TLS routers, each with its entry points,
      certificate resolver and priority, its rule in the TCP form, and no middlewares. */
  lemma TlsHalfSurvives(ins: Inspect, resolve: Resolver, cfg: Config, s: Snapshot, imageId: string, service: string)
    requires BuildContainer(ins, resolve).Exported? && service in BuildContainer(ins, resolve).spec.services
    ensures var c := BuildContainer(ins, resolve).spec;
            var labels := StubFor(cfg, s, c, service, imageId).labels;
            var tls := set n | n in c.routers && c.routers[n].service == service && c.routers[n].tls.Some?;
            && CollectNames(labels, TCP_ROUTERS) == tls
            && forall n :: n in tls ==>
                 RouterAt(labels, TCP_ROUTERS + n + ".", n)
                 == c.routers[n].(rule := TcpRule(c.routers[n].rule), middlewares := [], service := Trim(service))
  {
    hide BuildContainer, StubLabels, RoutersOf, RouterAt, TcpRule, TCP_ROUTERS, CollectNames;
    var c := BuildContainer(ins, resolve).spec;
    ExportedIsClosed(ins, resolve);
    var hash := StubFor(cfg, s, c, service, imageId).desiredHash;
    SealedLabels(s.workerId, c, service, cfg.network, RoutersOf(c, service), hash);
    TlsRoutersSurvive(s.workerId, c, service, cfg.network, hash);
    DotFreeService(c, service);
    assert (set n | n in c.routers && c.routers[n].service == service && c.routers[n].tls.Some?)
        == set n | n in RoutersOf(c, service) && c.routers[n].tls.Some?;
  }

  /** Each plain-HTTP router of an exported container is in the stub of its own service and in no other. */
  lemma PlainRouterInOneStub(ins: Inspect, resolve: Resolver, cfg: Config, s: Snapshot, imageId: string, n: string)
    requires BuildContainer(ins, resolve).Exported?
    requires n in BuildContainer(ins, resolve).spec.routers && BuildContainer(ins, resolve).spec.routers[n].tls.None?
    ensures var c := BuildContainer(ins, resolve).spec;
            && c.routers[n].service in c.services && RoutersOf(c, c.routers[n].service) != []
            && forall service :: service in c.services ==>
                 (n in ParseRouters(StubFor(cfg, s, c, service, imageId).labels) <==> service == c.routers[n].service)
  {
    hide BuildContainer, StubLabels, ParseRouters, Filter;
    var c := BuildContainer(ins, resolve).spec;
    ExportedIsClosed(ins, resolve);
    assert n in RoutersOf(c, c.routers[n].service);
    forall service | service in c.services
      ensures n in ParseRouters(StubFor(cfg, s, c, service, imageId).labels) <==> service == c.routers[n].service
    {
      var hash := StubFor(cfg, s, c, service, imageId).desiredHash;
      SealedLabels(s.workerId, c, service, cfg.network, RoutersOf(c, service), hash);
      PlainRoutersSurvive(s.workerId, c, service, cfg.network, hash);
    }
  }

  // ---------------------------------------------------------------- the loops of buildDesiredStubs

  function Grouped(m: map<string, seq<string>>, service: string): seq<string>
  {
    if service in m then m[service] else []
  }

  lemma {:induction false} FilterSnoc(c: ContainerSpec, service: string, names: seq<string>, n: string)
    requires n in c.routers && forall x :: x in names ==> x in c.routers
    ensures Filter(c, service, names + [n]) == Filter(c, service, names) + Picked(c, service, n)
  {
    var all := names + [n];
    if names == [] {
      assert all[1..] == [];
    } else {
      FilterSnoc(c, service, names[1..], n);
      assert all[0] == names[0] && all[1..] == names[1..] + [n];
    }
  }

  /** routerNamesByService, built up router by router. */
  method GroupRouters(c: ContainerSpec, names: seq<string>) returns (m: map<string, seq<string>>)
    requires forall n :: n in names ==> n in c.routers
    ensures forall service :: Grouped(m, service) == if service == "" then [] else Filter(c, service, names)
  {
    hide Filter;
    m := map[];
    FilterNothing(c);
    for i := 0 to |names|
      invariant forall service :: Grouped(m, service) == if service == "" then [] else Filter(c, service, names[..i])
    {
      var r := c.routers[names[i]];
      ghost var before := m;
      if r.service != "" {
        m := m[r.service := Grouped(m, r.service) + [names[i]]];
      }
      forall service ensures Grouped(m, service) == if service == "" then [] else Filter(c, service, names[..i + 1]) {
        assert names[..i + 1] == names[..i] + [names[i]];
        FilterSnoc(c, service, names[..i], names[i]);
        assert Grouped(before, service) == if service == "" then [] else Filter(c, service, names[..i]);
      }
    }
    assert names[..|names|] == names;
  }

  lemma FilterNothing(c: ContainerSpec)
    ensures forall service :: Filter(c, service, []) == []
  {
  }

  method RouterNamesByService(c: ContainerSpec) returns (m: map<string, seq<string>>)
    ensures forall service :: Grouped(m, service) == RoutersOf(c, service)
  {
    hide Filter;
    m := GroupRouters(c, Sorted(c.routers.Keys));
  }

  lemma {:induction false} MergeAppend(l: Labels, c: ContainerSpec, service: string, a: seq<Piece>, b: seq<Piece>)
    ensures Merge(l, c, service, a + b) == Merge(Merge(l, c, service, a), c, service, b)
    decreases a
  {
    hide PieceLabels;
    if a == [] {
      assert a + b == b;
    } else {
      assert (a + b)[1..] == a[1..] + b;
      MergeAppend(l + PieceLabels(c, service, a[0]), c, service, a[1..], b);
    }
  }

  /** The router loop of buildDesiredStubs, with the middleware loop inside. */
  method StubLabelsLoop(worker: string, c: ContainerSpec, service: string, network: string, names: seq<string>)
    returns (labels: Labels)
    requires service in c.services && forall n :: n in names ==> n in c.routers
    ensures labels == StubLabels(worker, c, service, network, names, "")
  {
    hide PieceLabels, BaseLabels;
    labels := BaseLabels(worker, c, service, c.services[service], network, "");
    for i := 0 to |names|
      invariant Merge(labels, c, service, Pieces(c, names[i..])) == StubLabels(worker, c, service, network, names, "")
    {
      var n := names[i];
      var r := c.routers[n];
      assert names[i..][1..] == names[i + 1..];
      MergeAppend(labels, c, service, RouterPieces(c, n), Pieces(c, names[i + 1..]));
      ghost var whole := Merge(labels, c, service, RouterPieces(c, n));
      if r.tls.Some? {
        assert [Tcp(n)][1..] == [];
        labels := labels + PieceLabels(c, service, Tcp(n));
      } else {
        MergeAppend(labels, c, service, [Http(n)], MiddlewarePieces(c, r.middlewares));
        assert [Http(n)][1..] == [];
        labels := labels + PieceLabels(c, service, Http(n));
        labels := MiddlewareLoop(labels, c, service, r.middlewares);
      }
      assert labels == whole;
    }
    assert names[|names|..] == [];
  }

  method MiddlewareLoop(l: Labels, c: ContainerSpec, service: string, names: seq<string>) returns (labels: Labels)
    ensures labels == Merge(l, c, service, MiddlewarePieces(c, names))
  {
    hide PieceLabels;
    labels := l;
    for i := 0 to |names|
      invariant Merge(labels, c, service, MiddlewarePieces(c, names[i..]))
        == Merge(l, c, service, MiddlewarePieces(c, names))
    {
      assert names[i..][1..] == names[i + 1..];
      ghost var whole := Merge(l, c, service, MiddlewarePieces(c, names));
      if names[i] in c.middlewares {
        var pieces := [Middleware(names[i])] + MiddlewarePieces(c, names[i + 1..]);
        assert MiddlewarePieces(c, names[i..]) == pieces && pieces[1..] == MiddlewarePieces(c, names[i + 1..]);
        assert Merge(labels, c, service, pieces) == whole;
        labels := labels + PieceLabels(c, service, Middleware(names[i]));
        assert Merge(labels, c, service, MiddlewarePieces(c, names[i + 1..])) == whole;
      } else {
        assert MiddlewarePieces(c, names[i..]) == MiddlewarePieces(c, names[i + 1..]);
      }
    }
    assert names[|names|..] == [];
  }

  ghost predicate SortedByName(specs: seq<StubSpec>)
  {
    forall i, j :: 0 <= i < j < |specs| ==> LexLe(specs[i].name, specs[j].name)
  }

  /** buildDesiredStubs */
  method BuildDesiredStubs(cfg: Config, s: Snapshot, imageId: string) returns (specs: Option<seq<StubSpec>>)
    ensures specs.Some? <==> Reachable(s)
    ensures specs.Some? ==> SortedByName(specs.value)
    ensures specs.Some? ==> multiset(specs.value) == multiset(StubsOf(cfg, s, s.containers, imageId))
  {
    if !Reachable(s) {
      return None;
    }
    var out := ContainerLoop(cfg, s, imageId);
    out := SortByName(out);
    return Some(out);
  }

  /** sort.Slice by name. */
  method SortByName(specs: seq<StubSpec>) returns (out: seq<StubSpec>)
    ensures multiset(out) == multiset(specs) && SortedByName(out)
  {
    out := [];
    for i := 0 to |specs|
      invariant multiset(out) == multiset(specs[..i]) && SortedByName(out)
    {
      out := Insert(out, specs[i]);
      assert specs[..i + 1] == specs[..i] + [specs[i]];
    }
    assert specs[..|specs|] == specs;
  }

  method Insert(specs: seq<StubSpec>, x: StubSpec) returns (out: seq<StubSpec>)
    requires SortedByName(specs)
    ensures multiset(out) == multiset(specs) + multiset{x} && SortedByName(out)
  {
    hide LexLe;
    var k := 0;
    while k < |specs| && LexLe(specs[k].name, x.name)
      invariant k <= |specs| && forall i :: 0 <= i < k ==> LexLe(specs[i].name, x.name)
    {
      k := k + 1;
    }
    InsertedIsSorted(specs, x, k);
    assert specs == specs[..k] + specs[k..];
    out := specs[..k] + [x] + specs[k..];
  }

  lemma InsertedIsSorted(specs: seq<StubSpec>, x: StubSpec, k: nat)
    requires k <= |specs| && SortedByName(specs)
    requires forall i :: 0 <= i < k ==> LexLe(specs[i].name, x.name)
    requires k < |specs| ==> !LexLe(specs[k].name, x.name)
    ensures SortedByName(specs[..k] + [x] + specs[k..])
  {
    hide LexLe;
    forall i | k <= i < |specs| ensures LexLe(x.name, specs[i].name) {
      LexTotal(specs[k].name, x.name);
      if i > k {
        LexTransitive(x.name, specs[k].name, specs[i].name);
      }
    }
  }

  method ContainerLoop(cfg: Config, s: Snapshot, imageId: string) returns (out: seq<StubSpec>)
    ensures out == StubsOf(cfg, s, s.containers, imageId)
  {
    hide ContainerStubs;
    out := [];
    for i := 0 to |s.containers|
      invariant out + StubsOf(cfg, s, s.containers[i..], imageId) == StubsOf(cfg, s, s.containers, imageId)
    {
      var c := s.containers[i];
      assert s.containers[i..][1..] == s.containers[i + 1..];
      var stubs := ServiceLoop(cfg, s, c, imageId);
      out := out + stubs;
    }
    assert s.containers[|s.containers|..] == [];
  }

  method ServiceLoop(cfg: Config, s: Snapshot, c: ContainerSpec, imageId: string) returns (out: seq<StubSpec>)
    ensures out == ContainerStubs(cfg, s, c, Sorted(c.services.Keys), imageId)
  {
    var byService := RouterNamesByService(c);
    out := StubLoop(cfg, s, c, Sorted(c.services.Keys), imageId, byService);
  }

  method StubLoop(cfg: Config, s: Snapshot, c: ContainerSpec, services: seq<string>, imageId: string,
                  byService: map<string, seq<string>>)
    returns (out: seq<StubSpec>)
    requires forall n :: n in services ==> n in c.services
    requires forall service :: Grouped(byService, service) == RoutersOf(c, service)
    ensures out == ContainerStubs(cfg, s, c, services, imageId)
  {
    hide StubLabels, RoutersOf, FromPreimage;
    out := [];
    for i := 0 to |services|
      invariant out + ContainerStubs(cfg, s, c, services[i..], imageId) == ContainerStubs(cfg, s, c, services, imageId)
    {
      var names := Grouped(byService, services[i]);
      ghost var rest := ContainerStubs(cfg, s, c, services[i + 1..], imageId);
      assert services[i..][1..] == services[i + 1..];
      if names != [] {
        var stub := OneStub(cfg, s, c, services[i], imageId, names);
        assert out + ([stub] + rest) == (out + [stub]) + rest;
        out := out + [stub];
      } else {
        assert ContainerStubs(cfg, s, c, services[i..], imageId) == rest;
      }
    }
    assert services[|services|..] == [];
  }

  method OneStub(cfg: Config, s: Snapshot, c: ContainerSpec, service: string, imageId: string, names: seq<string>)
    returns (stub: StubSpec)
    requires service in c.services && names == RoutersOf(c, service)
    ensures stub == StubFor(cfg, s, c, service, imageId)
  {
    hide StubLabels, RoutersOf, FromPreimage;
    var labels := StubLabelsLoop(s.workerId, c, service, cfg.network, names);
    stub := FromPreimage(cfg, Preimage(s.workerId, c.id, service, TargetUrl(s), imageId, labels, cfg.image), c.name);
  }
}
