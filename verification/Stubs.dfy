/** buildDesiredStubs: a worker's snapshot becomes one stub container per routed service. */
module Stubs {
  import opened Strings
  import opened Model
  import opened LabelParser
  import opened LabelPrinter
  import opened Export

  const MANAGED := "traefik-connect.managed"
  const WORKER_ID := "traefik-connect.worker-id"
  const DESIRED_HASH := "traefik-connect.desired-hash"

  // ---------------------------------------------------------------- the label pieces of a stub

  /** The label groups that the router loop adds to a stub, in its order. */
  datatype Piece = Tcp(router: string) | Http(router: string) | Middleware(name: string)

  function MiddlewarePieces(c: ContainerSpec, names: seq<string>): seq<Piece>
  {
    if names == [] then []
    else (if names[0] in c.middlewares then [Middleware(names[0])] else []) + MiddlewarePieces(c, names[1..])
  }

  function RouterPieces(c: ContainerSpec, n: string): seq<Piece>
    requires n in c.routers
  {
    var r := c.routers[n];
    if r.tls.Some? then [Tcp(n)] else [Http(n)] + MiddlewarePieces(c, r.middlewares)
  }

  function Pieces(c: ContainerSpec, names: seq<string>): seq<Piece>
    requires forall n :: n in names ==> n in c.routers
  {
    if names == [] then []
    else RouterPieces(c, names[0]) + Pieces(c, names[1..])
  }

  function PieceLabels(c: ContainerSpec, service: string, p: Piece): Labels
  {
    match p
    case Tcp(n) =>
      if n in c.routers && c.routers[n].tls.Some?
      then Prefixed(TCP_ROUTERS + n + ".", TcpSuffixes(c.routers[n], service))
      else map[]
    case Http(n) =>
      if n in c.routers then Prefixed(ROUTERS + n + ".", HttpSuffixes(c.routers[n], service)) else map[]
    case Middleware(m) =>
      if m in c.middlewares then MiddlewareLabels(m, c.middlewares[m]) else map[]
  }

  function Merge(l: Labels, c: ContainerSpec, service: string, pieces: seq<Piece>): Labels
    decreases pieces
  {
    if pieces == [] then l else Merge(l + PieceLabels(c, service, pieces[0]), c, service, pieces[1..])
  }

  lemma {:induction false} MergeMiss(l: Labels, c: ContainerSpec, service: string, pieces: seq<Piece>, k: string)
    requires forall p :: p in pieces ==> k !in PieceLabels(c, service, p)
    ensures Get(Merge(l, c, service, pieces), k) == Get(l, k)
    decreases pieces
  {
    hide PieceLabels;
    if pieces != [] {
      MergeMiss(l + PieceLabels(c, service, pieces[0]), c, service, pieces[1..], k);
    }
  }

  /** A key that only one piece can hold comes from that piece. */
  lemma {:induction false} MergeGet(l: Labels, c: ContainerSpec, service: string, pieces: seq<Piece>, k: string,
                                    q: Piece)
    requires forall p :: p in pieces && k in PieceLabels(c, service, p) ==> p == q
    requires q !in pieces ==> k !in l
    requires q in pieces && k in l ==> k in PieceLabels(c, service, q)
    ensures Get(Merge(l, c, service, pieces), k) == if q in pieces then Get(PieceLabels(c, service, q), k) else None
    decreases pieces
  {
    hide PieceLabels;
    if q !in pieces {
      MergeMiss(l, c, service, pieces, k);
    } else {
      var l' := l + PieceLabels(c, service, pieces[0]);
      if q in pieces[1..] {
        MergeGet(l', c, service, pieces[1..], k, q);
      } else {
        assert pieces[0] == q;
        if k in PieceLabels(c, service, q) {
          MergeMiss(l', c, service, pieces[1..], k);
        } else {
          MergeMiss(l', c, service, pieces[1..], k);
        }
      }
    }
  }

  lemma {:induction false} MiddlewarePiecesAre(c: ContainerSpec, names: seq<string>, p: Piece)
    ensures p in MiddlewarePieces(c, names) <==> p.Middleware? && p.name in names && p.name in c.middlewares
  {
    if names != [] {
      MiddlewarePiecesAre(c, names[1..], p);
    }
  }

  lemma {:induction false} PiecesAre(c: ContainerSpec, names: seq<string>, p: Piece)
    requires forall n :: n in names ==> n in c.routers
    ensures p in Pieces(c, names) <==>
              exists n :: n in names && p in RouterPieces(c, n)
  {
    if names != [] {
      PiecesAre(c, names[1..], p);
    }
  }

  /** What the router `n` adds to the stub of its service. */
  predicate Adds(c: ContainerSpec, n: string, p: Piece)
    requires n in c.routers
  {
    match p
    case Tcp(x) => x == n && c.routers[n].tls.Some?
    case Http(x) => x == n && c.routers[n].tls.None?
    case Middleware(m) => c.routers[n].tls.None? && m in c.routers[n].middlewares && m in c.middlewares
  }

  predicate AddedByAny(c: ContainerSpec, names: seq<string>, p: Piece)
    requires forall n :: n in names ==> n in c.routers
  {
    match p
    case Tcp(x) => x in names && c.routers[x].tls.Some?
    case Http(x) => x in names && c.routers[x].tls.None?
    case Middleware(m) => m in Mentioned(c, names)
  }

  lemma PieceIs(c: ContainerSpec, names: seq<string>, p: Piece)
    requires forall n :: n in names ==> n in c.routers
    ensures p in Pieces(c, names) <==> AddedByAny(c, names, p)
  {
    PiecesAre(c, names, p);
    forall n | n in names ensures p in RouterPieces(c, n) <==> Adds(c, n, p) {
      MiddlewarePiecesAre(c, c.routers[n].middlewares, p);
    }
    assert (exists n :: n in names && Adds(c, n, p)) <==> AddedByAny(c, names, p);
  }

  /** The known middlewares that the plain-HTTP routers among `names` refer to. */
  function Mentioned(c: ContainerSpec, names: seq<string>): set<string>
    requires forall n :: n in names ==> n in c.routers
  {
    set n, m | n in names && c.routers[n].tls.None? && m in c.routers[n].middlewares && m in c.middlewares :: m
  }

  // ---------------------------------------------------------------- the labels of one stub

  function ManagedLabels(worker: string, c: ContainerSpec, service: string, hash: string): Labels
  {
    map[MANAGED := "true",
        WORKER_ID := worker,
        "traefik-connect.container-id" := c.id,
        "traefik-connect.container-name" := c.name,
        "traefik-connect.service-name" := service,
        DESIRED_HASH := hash,
        "traefik.enable" := "true"]
  }

  function BaseLabels(worker: string, c: ContainerSpec, service: string, svc: ServiceSpec, network: string,
                      hash: string): Labels
  {
    ManagedLabels(worker, c, service, hash) + NetworkLabels(network)
    + Prefixed(SERVICES + service + ".", ServiceSuffixes(svc)) + TcpPort(service)
  }

  function NetworkLabels(network: string): Labels
  {
    if network != "" then map["traefik.docker.network" := network] else map[]
  }

  function TcpPort(service: string): Labels
  {
    map[TCP_SERVICES + service + ".loadbalancer.server.port" := "18181"]
  }

  function StubLabels(worker: string, c: ContainerSpec, service: string, network: string, names: seq<string>,
                      hash: string): Labels
    requires service in c.services && forall n :: n in names ==> n in c.routers
  {
    Merge(BaseLabels(worker, c, service, c.services[service], network, hash), c, service, Pieces(c, names))
  }

  /** Keys of the three plain-HTTP families tell themselves apart by their fourteenth character. */
  predicate HttpKey(k: string, family: char)
  {
    |k| > 13 && k[7] == '.' && k[8] == 'h' && k[13] == family
  }

  predicate TcpKey(k: string)
  {
    |k| > 13 && k[8] == 't'
  }

  predicate KeyFits(p: Piece, k: string)
  {
    match p
    case Tcp(_) => TcpKey(k)
    case Http(n) => HttpKey(k, 'r') && ROUTERS + n + "." <= k
    case Middleware(m) => HttpKey(k, 'm') && MIDDLEWARES + m + "." <= k
  }

  lemma FamilyOf(prefix: string, k: string, family: char)
    requires HttpKey(prefix, family) && prefix <= k
    ensures HttpKey(k, family)
  {
  }

  lemma FamilyPrefixes(n: string)
    ensures HttpKey(ROUTERS + n + ".", 'r') && HttpKey(MIDDLEWARES + n + ".", 'm') && HttpKey(SERVICES + n + ".", 's')
    ensures TcpKey(TCP_ROUTERS + n + ".") && TcpKey(TCP_SERVICES + n + ".")
  {
  }

  lemma PieceKeys(c: ContainerSpec, service: string, p: Piece, k: string)
    requires k in PieceLabels(c, service, p)
    ensures KeyFits(p, k)
  {
    hide Prefixed, TcpSuffixes, HttpSuffixes, MiddlewareSuffixes, ROUTERS, MIDDLEWARES, TCP_ROUTERS, SERVICES;
    hide TCP_SERVICES;
    FamilyPrefixes(match p case Tcp(n) => n case Http(n) => n case Middleware(m) => m);
  }

  /** The labels a stub starts with: none of a router or middleware, and those of one service. */
  lemma BaseKeys(worker: string, c: ContainerSpec, service: string, svc: ServiceSpec, network: string, hash: string,
                 k: string)
    requires k in BaseLabels(worker, c, service, svc, network, hash)
    ensures !HttpKey(k, 'r') && !HttpKey(k, 'm')
    ensures HttpKey(k, 's') ==> SERVICES + service + "." <= k
  {
    hide Prefixed, ServiceSuffixes, ManagedLabels, NetworkLabels, TcpPort, SERVICES, HttpKey;
    if k in ManagedLabels(worker, c, service, hash) {
      ManagedKeys(worker, c, service, hash, k);
    } else if !(SERVICES + service + "." <= k) {
      SideKeys(service, network, k);
    } else {
      FamilyPrefixes(service);
      FamilyOf(SERVICES + service + ".", k, 's');
      OneFamily(k);
    }
  }

  lemma OneFamily(k: string)
    ensures HttpKey(k, 's') ==> !HttpKey(k, 'r') && !HttpKey(k, 'm')
  {
  }

  lemma SideKeys(service: string, network: string, k: string)
    requires k in NetworkLabels(network) || k in TcpPort(service)
    ensures !HttpKey(k, 'r') && !HttpKey(k, 'm') && !HttpKey(k, 's')
  {
    hide TCP_SERVICES;
    FamilyPrefixes(service);
    var tcp := TCP_SERVICES + service + ".";
    assert "traefik.docker.network"[8] == 'd';
    assert TCP_SERVICES + service + ".loadbalancer.server.port" == tcp + "loadbalancer.server.port";
  }

  lemma ManagedKeys(worker: string, c: ContainerSpec, service: string, hash: string, k: string)
    requires k in ManagedLabels(worker, c, service, hash)
    ensures !HttpKey(k, 'r') && !HttpKey(k, 'm') && !HttpKey(k, 's')
  {
    assert MANAGED[7] == '-' && WORKER_ID[7] == '-' && DESIRED_HASH[7] == '-';
    assert "traefik.enable"[8] == 'e';
  }

  /** Where a stub keeps a plain-HTTP router key or a middleware key. */
  lemma StubGet(worker: string, c: ContainerSpec, service: string, network: string, names: seq<string>, hash: string,
                k: string, q: Piece)
    requires service in c.services && forall n :: n in names ==> n in c.routers
    requires (q.Http? && DotFree(q.router) && ROUTERS + q.router + "." <= k)
          || (q.Middleware? && DotFree(q.name) && MIDDLEWARES + q.name + "." <= k)
    requires forall n :: n in c.routers ==> DotFree(n)
    requires forall n :: n in c.middlewares ==> DotFree(n)
    ensures Get(StubLabels(worker, c, service, network, names, hash), k) ==
            if AddedByAny(c, names, q) then Get(PieceLabels(c, service, q), k) else None
  {
    hide PieceLabels, BaseLabels, ROUTERS, MIDDLEWARES, SERVICES, TCP_ROUTERS, TCP_SERVICES, AddedByAny;
    var base := BaseLabels(worker, c, service, c.services[service], network, hash);
    if k in base {
      BaseKeys(worker, c, service, c.services[service], network, hash, k);
    }
    FamilyPrefixes(if q.Http? then q.router else q.name);
    assert HttpKey(k, if q.Http? then 'r' else 'm');
    forall p | p in Pieces(c, names) && k in PieceLabels(c, service, p) ensures p == q {
      PieceKeys(c, service, p, k);
      PieceIs(c, names, p);
      OwnerOfKey(c, service, p, q, k);
    }
    PieceIs(c, names, q);
    MergeGet(base, c, service, Pieces(c, names), k, q);
  }

  lemma OwnerOfKey(c: ContainerSpec, service: string, p: Piece, q: Piece, k: string)
    requires k in PieceLabels(c, service, p) && KeyFits(p, k)
    requires (q.Http? && DotFree(q.router) && ROUTERS + q.router + "." <= k && HttpKey(k, 'r'))
          || (q.Middleware? && DotFree(q.name) && MIDDLEWARES + q.name + "." <= k && HttpKey(k, 'm'))
    requires forall n :: n in c.routers ==> DotFree(n)
    requires forall n :: n in c.middlewares ==> DotFree(n)
    ensures p == q
  {
    hide Prefixed, HttpSuffixes, TcpSuffixes, MiddlewareSuffixes, ROUTERS, MIDDLEWARES;
    if q.Http? {
      assert p.Http?;
      NameBelow(ROUTERS, p.router, k);
      NameBelow(ROUTERS, q.router, k);
    } else {
      assert p.Middleware?;
      NameBelow(MIDDLEWARES, p.name, k);
      NameBelow(MIDDLEWARES, q.name, k);
    }
  }

  // ---------------------------------------------------------------- reading a stub back

  function Filter(c: ContainerSpec, service: string, names: seq<string>): seq<string>
    requires forall n :: n in names ==> n in c.routers
  {
    if names == [] then []
    else Picked(c, service, names[0]) + Filter(c, service, names[1..])
  }

  function Picked(c: ContainerSpec, service: string, n: string): seq<string>
    requires n in c.routers
  {
    if c.routers[n].service == service then [n] else []
  }

  lemma {:induction false} FilterIs(c: ContainerSpec, service: string, names: seq<string>)
    requires forall n :: n in names ==> n in c.routers
    ensures forall n :: n in Filter(c, service, names) <==> n in names && c.routers[n].service == service
  {
    if names != [] {
      FilterIs(c, service, names[1..]);
    }
  }

  /** routerNamesByService[service]: the routers of a service, in name order. */
  function RoutersOf(c: ContainerSpec, service: string): (r: seq<string>)
    ensures forall n :: n in r <==> n in c.routers && c.routers[n].service == service && service != ""
  {
    FilterIs(c, service, Sorted(c.routers.Keys));
    if service == "" then [] else Filter(c, service, Sorted(c.routers.Keys))
  }

  function PlainRouters(c: ContainerSpec, service: string): map<string, RouterSpec>
  {
    map n | n in c.routers && c.routers[n].service == service && c.routers[n].tls.None? :: c.routers[n]
  }

  lemma RouterPieceHolds(c: ContainerSpec, service: string, n: string)
    requires n in c.routers
    ensures ROUTERS + n + "." + "rule" in PieceLabels(c, service, Http(n))
  {
    hide ROUTERS, Prefixed;
    var p, suffixes := ROUTERS + n + ".", HttpSuffixes(c.routers[n], service);
    assert Get(Prefixed(p, suffixes), p + "rule") == Get(suffixes, "rule");
  }

  lemma MiddlewarePieceHolds(c: ContainerSpec, service: string, m: string) returns (k: string)
    requires m in c.middlewares
    ensures c.middlewares[m].fields != map[] ==>
      k in PieceLabels(c, service, Middleware(m)) && MIDDLEWARES + m + "." <= k
    ensures c.middlewares[m].fields == map[] ==> PieceLabels(c, service, Middleware(m)) == map[]
  {
    hide MIDDLEWARES, Prefixed, MiddlewareSuffixes, FieldKey;
    var fields := c.middlewares[m].fields;
    var p, suffixes := MIDDLEWARES + m + ".", MiddlewareSuffixes(c.middlewares[m]);
    if fields == map[] {
      k := "";
      assert suffixes == map[];
      assert Prefixed(p, suffixes) == map[];
    } else {
      var f :| f in fields;
      k := p + FieldKey(f);
      assert Get(Prefixed(p, suffixes), k) == Get(suffixes, FieldKey(f));
    }
  }

  /** Every plain-HTTP key of a stub belongs to exactly the piece its name says. */
  lemma KeyOwner(worker: string, c: ContainerSpec, service: string, network: string, names: seq<string>, hash: string,
                 k: string)
    returns (q: Piece)
    requires service in c.services && forall n :: n in names ==> n in c.routers
    requires k in StubLabels(worker, c, service, network, names, hash) && (HttpKey(k, 'r') || HttpKey(k, 'm'))
    ensures AddedByAny(c, names, q) && k in PieceLabels(c, service, q) && KeyFits(q, k)
  {
    hide PieceLabels, BaseLabels, AddedByAny, RouterPieces;
    var base := BaseLabels(worker, c, service, c.services[service], network, hash);
    if k in base {
      BaseKeys(worker, c, service, c.services[service], network, hash, k);
    }
    if forall p :: p in Pieces(c, names) ==> k !in PieceLabels(c, service, p) {
      MergeMiss(base, c, service, Pieces(c, names), k);
      assert false;
    }
    q :| q in Pieces(c, names) && k in PieceLabels(c, service, q);
    PieceKeys(c, service, q, k);
    PieceIs(c, names, q);
  }

  lemma RouterNames(worker: string, c: ContainerSpec, service: string, network: string, names: seq<string>,
                    hash: string)
    requires service in c.services && forall n :: n in names ==> n in c.routers
    requires forall n :: n in c.routers ==> DotFree(n)
    requires forall n :: n in c.middlewares ==> DotFree(n)
    ensures CollectNames(StubLabels(worker, c, service, network, names, hash), ROUTERS)
         == set n | n in names && c.routers[n].tls.None?
  {
    hide StubLabels, PieceLabels, ROUTERS, MIDDLEWARES;
    var labels := StubLabels(worker, c, service, network, names, hash);
    forall k | k in labels && NameIn(k, ROUTERS) != ""
      ensures NameIn(k, ROUTERS) in names && c.routers[NameIn(k, ROUTERS)].tls.None?
    {
      FamilyKey(k);
      var q := KeyOwner(worker, c, service, network, names, hash, k);
      NameBelow(ROUTERS, q.router, k);
    }
    forall n | n in names && c.routers[n].tls.None? ensures n in CollectNames(labels, ROUTERS) {
      var k := ROUTERS + n + "." + "rule";
      RouterPieceHolds(c, service, n);
      StubGet(worker, c, service, network, names, hash, k, Http(n));
      NameBelow(ROUTERS, n, k);
      assert k in labels && NameIn(k, ROUTERS) == n;
    }
  }

  lemma FamilyKey(k: string)
    ensures ROUTERS <= k ==> k[7] == '.' && k[8] == 'h' && k[13] == 'r' && HttpKey(k, 'r')
    ensures MIDDLEWARES <= k ==> k[7] == '.' && k[8] == 'h' && k[13] == 'm' && HttpKey(k, 'm')
    ensures SERVICES <= k ==> k[7] == '.' && k[8] == 'h' && k[13] == 's' && HttpKey(k, 's')
  {
    assert ROUTERS[7] == '.' && ROUTERS[8] == 'h' && ROUTERS[13] == 'r';
    assert MIDDLEWARES[7] == '.' && MIDDLEWARES[8] == 'h' && MIDDLEWARES[13] == 'm';
    assert SERVICES[7] == '.' && SERVICES[8] == 'h' && SERVICES[13] == 's';
  }

  /** Parsing the labels of a stub gives back exactly the plain-HTTP routers of its service, with
      the service name as the parser trims it. */
  lemma PlainRoutersSurvive(worker: string, c: ContainerSpec, service: string, network: string, hash: string)
    requires WellFormed(c) && service in c.services
    ensures ParseRouters(StubLabels(worker, c, service, network, RoutersOf(c, service), hash))
         == map n | n in PlainRouters(c, service) :: c.routers[n].(service := Trim(service))
  {
    hide StubLabels, ROUTERS, MIDDLEWARES, ParseRouter, HttpSuffixes, RoutersOf;
    var names := RoutersOf(c, service);
    var labels := StubLabels(worker, c, service, network, names, hash);
    RouterNames(worker, c, service, network, names, hash);
    forall n | n in names && c.routers[n].tls.None?
      ensures ParseRouter(labels, n) == c.routers[n].(service := Trim(service))
    {
      var p := ROUTERS + n + ".";
      forall k | p <= k ensures Get(labels, k) == Get(Prefixed(p, HttpSuffixes(c.routers[n], service)), k) {
        StubGet(worker, c, service, network, names, hash, k, Http(n));
      }
      RouterRoundTrip(n, c.routers[n], service, labels);
    }
  }

  /** What a stub says about plain HTTP equals what the container said, exactly when the service name
      has no surrounding white space (or no plain-HTTP router uses it). */
  lemma PlainRoutersEqualIff(worker: string, c: ContainerSpec, service: string, network: string, hash: string)
    requires WellFormed(c) && service in c.services
    ensures var labels := StubLabels(worker, c, service, network, RoutersOf(c, service), hash);
            ParseRouters(labels) == PlainRouters(c, service) <==> Trimmed(service) || PlainRouters(c, service) == map[]
  {
    hide StubLabels, ParseRouters, RoutersOf;
    PlainRoutersSurvive(worker, c, service, network, hash);
    var got := map n | n in PlainRouters(c, service) :: c.routers[n].(service := Trim(service));
    if got == PlainRouters(c, service) && PlainRouters(c, service) != map[] {
      var n :| n in PlainRouters(c, service);
      assert got[n].service == Trim(service) && PlainRouters(c, service)[n].service == service;
    }
  }

  lemma MiddlewareNames(worker: string, c: ContainerSpec, service: string, network: string, names: seq<string>,
                        hash: string)
    requires WellFormed(c) && service in c.services && forall n :: n in names ==> n in c.routers
    ensures CollectNames(StubLabels(worker, c, service, network, names, hash), MIDDLEWARES)
         == set m | m in Mentioned(c, names) && c.middlewares[m].fields != map[]
  {
    hide StubLabels, PieceLabels, ParseMiddleware, Regrouped, MiddlewareLabels, ROUTERS, MIDDLEWARES;
    var labels := StubLabels(worker, c, service, network, names, hash);
    forall k | k in labels && NameIn(k, MIDDLEWARES) != ""
      ensures NameIn(k, MIDDLEWARES) in Mentioned(c, names) && c.middlewares[NameIn(k, MIDDLEWARES)].fields != map[]
    {
      FamilyKey(k);
      var q := KeyOwner(worker, c, service, network, names, hash, k);
      NameBelow(MIDDLEWARES, q.name, k);
      var _ := MiddlewarePieceHolds(c, service, q.name);
    }
    forall m | m in Mentioned(c, names) && c.middlewares[m].fields != map[]
      ensures m in CollectNames(labels, MIDDLEWARES)
    {
      MiddlewareSurvives(worker, c, service, network, names, hash, m);
    }
  }

  /** The middlewares of a stub are those its plain-HTTP routers refer to and that set anything. */
  lemma MiddlewaresSurvive(worker: string, c: ContainerSpec, service: string, network: string, names: seq<string>,
                           hash: string)
    requires WellFormed(c) && service in c.services && forall n :: n in names ==> n in c.routers
    ensures ParseMiddlewares(StubLabels(worker, c, service, network, names, hash))
         == map m | m in Mentioned(c, names) && c.middlewares[m].fields != map[] :: Regrouped(m, c.middlewares[m])
  {
    hide StubLabels, ParseMiddleware, Regrouped, CollectNames, MIDDLEWARES, WellFormed;
    var labels := StubLabels(worker, c, service, network, names, hash);
    MiddlewareNames(worker, c, service, network, names, hash);
    forall m | m in Mentioned(c, names) && c.middlewares[m].fields != map[]
      ensures ParseMiddleware(labels, m) == Regrouped(m, c.middlewares[m])
    {
      MiddlewareSurvives(worker, c, service, network, names, hash, m);
    }
  }

  lemma MiddlewareSurvives(worker: string, c: ContainerSpec, service: string, network: string, names: seq<string>,
                           hash: string, m: string)
    requires WellFormed(c) && service in c.services && forall n :: n in names ==> n in c.routers
    requires m in Mentioned(c, names) && c.middlewares[m].fields != map[]
    ensures var labels := StubLabels(worker, c, service, network, names, hash);
            m in CollectNames(labels, MIDDLEWARES) && ParseMiddleware(labels, m) == Regrouped(m, c.middlewares[m])
  {
    hide StubLabels, ParseMiddleware, Regrouped, MiddlewareSuffixes, Prefixed, ROUTERS, MIDDLEWARES, Canonical;
    var labels, p := StubLabels(worker, c, service, network, names, hash), MIDDLEWARES + m + ".";
    forall k | p <= k ensures Get(labels, k) == Get(MiddlewareLabels(m, c.middlewares[m]), k) {
      StubGet(worker, c, service, network, names, hash, k, Middleware(m));
    }
    MiddlewareRoundTrip(m, c.middlewares[m], labels);
    var k := MiddlewarePieceHolds(c, service, m);
    assert Get(labels, k) == Get(MiddlewareLabels(m, c.middlewares[m]), k);
    NameBelow(MIDDLEWARES, m, k);
    assert k in labels && NameIn(k, MIDDLEWARES) == m;
  }

  /** A stub declares one service: its own, at the stub's port, with the same host and cookie settings. */
  lemma ServiceSurvives(worker: string, c: ContainerSpec, service: string, network: string, names: seq<string>,
                        hash: string)
    requires WellFormed(c) && service in c.services && forall n :: n in names ==> n in c.routers
    ensures ParseServices(StubLabels(worker, c, service, network, names, hash)) ==
            map[service := ServiceSpec(service, 18181, "", "", c.services[service].passHostHeader,
                                       c.services[service].sticky)]
  {
    hide StubLabels, SERVICES, ServiceSuffixes, ParseService, Prefixed, HttpKey, WellFormed;
    var labels, p := StubLabels(worker, c, service, network, names, hash), SERVICES + service + ".";
    assert DotFree(service) by {
      DotFreeService(c, service);
    }
    FamilyPrefixes(service);
    forall k | HttpKey(k, 's') ensures Get(labels, k) == Get(Prefixed(p, ServiceSuffixes(c.services[service])), k) {
      ServiceGet(worker, c, service, network, names, hash, k);
    }
    forall k | p <= k ensures Get(labels, k) == Get(Prefixed(p, ServiceSuffixes(c.services[service])), k) {
      FamilyOf(p, k, 's');
    }
    ServiceRoundTrip(c.services[service], service, labels);
    ServiceNames(labels, service, c.services[service]);
  }

  lemma DotFreeService(c: ContainerSpec, service: string)
    requires WellFormed(c) && service in c.services
    ensures DotFree(service)
  {
  }

  lemma ServiceNames(labels: Labels, service: string, svc: ServiceSpec)
    requires DotFree(service)
    requires forall k :: HttpKey(k, 's') ==>
      Get(labels, k) == Get(Prefixed(SERVICES + service + ".", ServiceSuffixes(svc)), k)
    ensures CollectNames(labels, SERVICES) == {service}
  {
    hide ServiceSuffixes, SERVICES, HttpKey;
    var p := SERVICES + service + ".";
    forall k | k in labels && NameIn(k, SERVICES) != "" ensures NameIn(k, SERVICES) == service {
      FamilyKey(k);
      assert Get(labels, k) == Get(Prefixed(p, ServiceSuffixes(svc)), k);
      NameBelow(SERVICES, service, k);
    }
    var k := p + "loadbalancer.server.port";
    FamilyPrefixes(service);
    FamilyOf(p, k, 's');
    assert Get(Prefixed(p, ServiceSuffixes(svc)), k) == Get(ServiceSuffixes(svc), "loadbalancer.server.port");
    NameBelow(SERVICES, service, k);
    assert k in labels && NameIn(k, SERVICES) == service;
  }

  lemma ServiceRoundTrip(svc: ServiceSpec, service: string, labels: Labels)
    requires AgreeBelow(labels, Prefixed(SERVICES + service + ".", ServiceSuffixes(svc)), SERVICES + service + ".")
    ensures ParseService(labels, service) == ServiceSpec(service, 18181, "", "", svc.passHostHeader, svc.sticky)
  {
    hide SERVICES;
    BelowPrefix(labels, SERVICES + service + ".", ServiceSuffixes(svc));
    StubPort();
    if svc.passHostHeader.Some? {
      BoolRoundTrip(svc.passHostHeader.value, true);
    }
    if svc.sticky.Some? {
      BoolRoundTrip(svc.sticky.value, false);
    }
  }

  lemma ServiceGet(worker: string, c: ContainerSpec, service: string, network: string, names: seq<string>,
                   hash: string, k: string)
    requires service in c.services && forall n :: n in names ==> n in c.routers
    requires HttpKey(k, 's')
    ensures Get(StubLabels(worker, c, service, network, names, hash), k)
         == Get(Prefixed(SERVICES + service + ".", ServiceSuffixes(c.services[service])), k)
  {
    hide PieceLabels, BaseLabels, Prefixed, ServiceSuffixes, SERVICES;
    var base := BaseLabels(worker, c, service, c.services[service], network, hash);
    forall p | p in Pieces(c, names) ensures k !in PieceLabels(c, service, p) {
      if k in PieceLabels(c, service, p) {
        PieceKeys(c, service, p, k);
      }
    }
    MergeMiss(base, c, service, Pieces(c, names), k);
    BaseGet(worker, c, service, c.services[service], network, hash, k);
  }

  lemma BaseGet(worker: string, c: ContainerSpec, service: string, svc: ServiceSpec, network: string, hash: string,
                k: string)
    requires HttpKey(k, 's')
    ensures Get(BaseLabels(worker, c, service, svc, network, hash), k)
      == Get(Prefixed(SERVICES + service + ".", ServiceSuffixes(svc)), k)
  {
    hide Prefixed, ServiceSuffixes, ManagedLabels, NetworkLabels, TcpPort, SERVICES, HttpKey;
    if k in ManagedLabels(worker, c, service, hash) {
      ManagedKeys(worker, c, service, hash, k);
    }
    if k in NetworkLabels(network) || k in TcpPort(service) {
      SideKeys(service, network, k);
    }
  }
}
