/** The TLS half of a stub: HTTP routers with TLS become TCP routers. */
module TlsStubs {
  import opened Strings
  import opened Model
  import opened LabelParser
  import opened LabelPrinter
  import opened Export
  import opened Stubs

  predicate TcpRouterKey(k: string)
  {
    |k| > 12 && k[7] == '.' && k[8] == 't' && k[12] == 'r'
  }

  lemma TcpFamily(n: string, k: string)
    ensures TCP_ROUTERS <= k ==> TcpRouterKey(k)
    ensures TCP_ROUTERS <= TCP_ROUTERS + n + "."
  {
    assert TCP_ROUTERS[7] == '.' && TCP_ROUTERS[8] == 't' && TCP_ROUTERS[12] == 'r';
  }

  /** Only TLS routers put keys into this family. */
  lemma TcpPieceKey(c: ContainerSpec, service: string, p: Piece, k: string)
    requires k in PieceLabels(c, service, p) && TcpRouterKey(k)
    ensures p.Tcp? && TCP_ROUTERS + p.router + "." <= k
  {
    hide Prefixed, TcpSuffixes, HttpSuffixes, MiddlewareSuffixes, ROUTERS, MIDDLEWARES, TCP_ROUTERS;
    PieceKeys(c, service, p, k);
  }

  lemma TcpBaseKey(worker: string, c: ContainerSpec, service: string, svc: ServiceSpec, network: string, hash: string,
                   k: string)
    requires k in BaseLabels(worker, c, service, svc, network, hash)
    ensures !TcpRouterKey(k)
  {
    hide Prefixed, ServiceSuffixes, ManagedLabels, NetworkLabels, TcpPort, SERVICES, TCP_SERVICES, TcpKey;
    if k in ManagedLabels(worker, c, service, hash) {
      TcpManagedKey(worker, c, service, hash, k);
    } else if k in NetworkLabels(network) || k in TcpPort(service) {
      TcpSideKey(service, network, k);
    } else {
      FamilyPrefixes(service);
    }
  }

  lemma TcpSideKey(service: string, network: string, k: string)
    requires k in NetworkLabels(network) || k in TcpPort(service)
    ensures !TcpRouterKey(k)
  {
    hide TCP_SERVICES;
    assert "traefik.docker.network"[8] == 'd';
    TcpServiceKey(service);
  }

  lemma TcpManagedKey(worker: string, c: ContainerSpec, service: string, hash: string, k: string)
    requires k in ManagedLabels(worker, c, service, hash)
    ensures !TcpRouterKey(k)
  {
    assert MANAGED[7] == '-' && WORKER_ID[7] == '-' && DESIRED_HASH[7] == '-';
    assert "traefik.enable"[8] == 'e';
  }

  lemma TcpServiceKey(service: string)
    ensures !TcpRouterKey(TCP_SERVICES + service + ".loadbalancer.server.port")
  {
    assert TCP_SERVICES[12] == 's';
    assert (TCP_SERVICES + service + ".loadbalancer.server.port")[12] == TCP_SERVICES[12];
  }

  /** Where a stub keeps a TCP router key. */
  lemma TcpGet(worker: string, c: ContainerSpec, service: string, network: string, names: seq<string>, hash: string,
               k: string, n: string)
    requires service in c.services && forall x :: x in names ==> x in c.routers
    requires forall x :: x in c.routers ==> DotFree(x)
    requires DotFree(n) && TCP_ROUTERS + n + "." <= k
    ensures Get(StubLabels(worker, c, service, network, names, hash), k) ==
            if n in names && c.routers[n].tls.Some? then Get(PieceLabels(c, service, Tcp(n)), k) else None
  {
    hide PieceLabels, BaseLabels, TCP_ROUTERS;
    var base := BaseLabels(worker, c, service, c.services[service], network, hash);
    TcpFamily(n, k);
    if k in base {
      TcpBaseKey(worker, c, service, c.services[service], network, hash, k);
    }
    forall p | p in Pieces(c, names) && k in PieceLabels(c, service, p) ensures p == Tcp(n) {
      TcpPieceKey(c, service, p, k);
      PieceIs(c, names, p);
      NameBelow(TCP_ROUTERS, p.router, k);
      NameBelow(TCP_ROUTERS, n, k);
    }
    PieceIs(c, names, Tcp(n));
    MergeGet(base, c, service, Pieces(c, names), k, Tcp(n));
  }

  lemma TcpOwner(worker: string, c: ContainerSpec, service: string, network: string, names: seq<string>, hash: string,
                 k: string)
    returns (n: string)
    requires service in c.services && forall x :: x in names ==> x in c.routers
    requires k in StubLabels(worker, c, service, network, names, hash) && TcpRouterKey(k)
    ensures n in names && c.routers[n].tls.Some? && TCP_ROUTERS + n + "." <= k
  {
    hide PieceLabels, BaseLabels, RouterPieces, TCP_ROUTERS;
    var base := BaseLabels(worker, c, service, c.services[service], network, hash);
    if k in base {
      TcpBaseKey(worker, c, service, c.services[service], network, hash, k);
    }
    if forall p :: p in Pieces(c, names) ==> k !in PieceLabels(c, service, p) {
      MergeMiss(base, c, service, Pieces(c, names), k);
      assert false;
    }
    var q :| q in Pieces(c, names) && k in PieceLabels(c, service, q);
    TcpPieceKey(c, service, q, k);
    PieceIs(c, names, q);
    n := q.router;
  }

  lemma TcpPieceHolds(c: ContainerSpec, service: string, n: string)
    requires n in c.routers && c.routers[n].tls.Some?
    ensures TCP_ROUTERS + n + "." + "rule" in PieceLabels(c, service, Tcp(n))
  {
    hide TCP_ROUTERS, Prefixed, TcpSuffixes;
    var p, suffixes := TCP_ROUTERS + n + ".", TcpSuffixes(c.routers[n], service);
    assert Get(Prefixed(p, suffixes), p + "rule") == Get(suffixes, "rule");
  }

  lemma TcpRouterNames(worker: string, c: ContainerSpec, service: string, network: string, names: seq<string>,
                       hash: string)
    requires service in c.services && forall n :: n in names ==> n in c.routers
    requires forall n :: n in c.routers ==> DotFree(n)
    ensures CollectNames(StubLabels(worker, c, service, network, names, hash), TCP_ROUTERS)
         == set n | n in names && c.routers[n].tls.Some?
  {
    hide StubLabels, PieceLabels, TCP_ROUTERS;
    var labels := StubLabels(worker, c, service, network, names, hash);
    forall k | k in labels && NameIn(k, TCP_ROUTERS) != ""
      ensures NameIn(k, TCP_ROUTERS) in names && c.routers[NameIn(k, TCP_ROUTERS)].tls.Some?
    {
      TcpFamily("", k);
      var n := TcpOwner(worker, c, service, network, names, hash, k);
      NameBelow(TCP_ROUTERS, n, k);
    }
    forall n | n in names && c.routers[n].tls.Some? ensures n in CollectNames(labels, TCP_ROUTERS) {
      var k := TCP_ROUTERS + n + "." + "rule";
      TcpPieceHolds(c, service, n);
      TcpGet(worker, c, service, network, names, hash, k, n);
      NameBelow(TCP_ROUTERS, n, k);
      assert k in labels && NameIn(k, TCP_ROUTERS) == n;
    }
  }

  /** The TLS routers of a service are the TCP routers of its stub. Traefik reads their labels, nothing in
      this repository does; so their values are stated one by one, and then through the reader of HTTP
      routers put in its place: all is the same but for the middlewares, which are dropped, and the
      rule, which is in its TCP form. */
  lemma TlsRoutersSurvive(worker: string, c: ContainerSpec, service: string, network: string, hash: string)
    requires WellFormed(c) && service in c.services
    ensures var labels := StubLabels(worker, c, service, network, RoutersOf(c, service), hash);
            var tls := set n | n in RoutersOf(c, service) && c.routers[n].tls.Some?;
            && CollectNames(labels, TCP_ROUTERS) == tls
            && (forall n, s :: n in tls ==>
                  Get(labels, TCP_ROUTERS + n + "." + s) == Get(TcpSuffixes(c.routers[n], service), s))
            && forall n :: n in tls ==>
                 RouterAt(labels, TCP_ROUTERS + n + ".", n)
                 == c.routers[n].(rule := TcpRule(c.routers[n].rule), middlewares := [], service := Trim(service))
  {
    hide StubLabels, TCP_ROUTERS, RouterAt, TcpSuffixes, RoutersOf, TcpRule;
    var names := RoutersOf(c, service);
    var labels := StubLabels(worker, c, service, network, names, hash);
    TcpRouterNames(worker, c, service, network, names, hash);
    forall n | n in names && c.routers[n].tls.Some?
      ensures forall s :: Get(labels, TCP_ROUTERS + n + "." + s) == Get(TcpSuffixes(c.routers[n], service), s)
      ensures RouterAt(labels, TCP_ROUTERS + n + ".", n)
           == c.routers[n].(rule := TcpRule(c.routers[n].rule), middlewares := [], service := Trim(service))
    {
      var p := TCP_ROUTERS + n + ".";
      forall k | p <= k ensures Get(labels, k) == Get(Prefixed(p, TcpSuffixes(c.routers[n], service)), k) {
        TcpGet(worker, c, service, network, names, hash, k, n);
      }
      BelowPrefix(labels, p, TcpSuffixes(c.routers[n], service));
      TlsRouterRoundTrip(n, c.routers[n], service, labels);
    }
  }
}
