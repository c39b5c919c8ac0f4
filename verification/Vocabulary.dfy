/** What containers say and are told, in Docker's and Traefik's own words: every label by its full name. */
module Vocabulary {
  import opened Strings
  import opened Model
  import opened LabelParser
  import opened LabelPrinter
  import opened Backends
  import opened Export
  import opened Stubs
  import opened TlsStubs
  import opened Desired

  lemma Families()
    ensures ROUTERS == "traefik.http.routers." && SERVICES == "traefik.http.services."
    ensures MIDDLEWARES == "traefik.http.middlewares."
    ensures TCP_ROUTERS == "traefik.tcp.routers." && TCP_SERVICES == "traefik.tcp.services."
  {
  }

  // ---------------------------------------------------------------- what a container says

  /** Some label is about `n`: it is named by the family and `n`, or goes on behind a dot. */
  ghost predicate Mentions(labels: Labels, family: string, n: string)
  {
    exists k :: k in labels && (k == family + n || family + n + "." <= k)
  }

  lemma NamesAreMentioned(labels: Labels, family: string, n: string)
    ensures n in CollectNames(labels, family) <==> n != "" && '.' !in n && Mentions(labels, family, n)
  {
    if n != "" && '.' !in n {
      forall k ensures NameIn(k, family) == n <==> k == family + n || family + n + "." <= k {
        NameOfKey(k, family, n);
      }
    }
    hide NameIn;
  }

  lemma NameOfKey(k: string, family: string, n: string)
    requires n != "" && '.' !in n
    ensures NameIn(k, family) == n <==> k == family + n || family + n + "." <= k
  {
    if NameIn(k, family) == n {
      KeyOfName(k[|family|..], n);
      assert k == family + k[|family|..];
    }
    if k == family + n {
      assert k[|family|..] == n;
      WholeName(n);
    }
    if family + n + "." <= k {
      NameBelow(family, n, k);
    }
  }

  lemma KeyOfName(rest: string, n: string)
    requires UpToDot(rest) == n
    ensures rest == n || rest == n + "." + rest[|n| + 1..]
  {
    if rest != n {
      assert rest == rest[..|n|] + [rest[|n|]] + rest[|n| + 1..];
    }
  }

  lemma {:induction false} WholeName(n: string)
    requires '.' !in n
    ensures UpToDot(n) == n
  {
    if n != "" {
      WholeName(n[1..]);
      assert [n[0]] + n[1..] == n;
    }
  }

  function TextAt(labels: Labels, key: string): string
  {
    if key in labels then Trim(labels[key]) else ""
  }

  function ListAt(labels: Labels, key: string): seq<string>
  {
    if key in labels then Csv(labels[key]) else []
  }

  function NumberAt(labels: Labels, key: string): Option<int>
  {
    if key in labels then Atoi(Trim(labels[key])) else None
  }

  function BoolAt(labels: Labels, key: string, default: bool): Option<bool>
  {
    if key in labels then Some(ParseBool(labels[key], default)) else None
  }

  /** The router has what its labels say. A certificate resolver implies TLS; the service is looked at apart. */
  ghost predicate RouterSays(labels: Labels, n: string, r: RouterSpec)
  {
    var p := "traefik.http.routers." + n + ".";
    && r.name == n && r.rule == TextAt(labels, p + "rule")
    && r.entryPoints == ListAt(labels, p + "entrypoints") && r.middlewares == ListAt(labels, p + "middlewares")
    && r.priority == NumberAt(labels, p + "priority")
    && (r.tls.Some? <==> p + "tls.certresolver" in labels || BoolAt(labels, p + "tls", false) == Some(true))
    && (r.tls.Some? ==> r.tls.value.certResolver == TextAt(labels, p + "tls.certresolver"))
  }

  /** The port a service asks for; 0 if it does not say, or not well. */
  function PortAsked(labels: Labels, n: string): int
  {
    var port := NumberAt(labels, "traefik.http.services." + n + "." + "loadbalancer.server.port");
    if port.Some? && port.value > 0 then port.value else 0
  }

  /** The service has what its labels say, and the backend that was found for its port. */
  ghost predicate ServiceSays(labels: Labels, n: string, svc: ServiceSpec, b: Backend)
  {
    var p := "traefik.http.services." + n + ".";
    && svc.name == n && svc.backendUrl == b.url && svc.backendSource == b.source && svc.port == b.port
    && svc.passHostHeader == BoolAt(labels, p + "loadbalancer.passhostheader", true)
    && svc.sticky == BoolAt(labels, p + "loadbalancer.sticky", false)
  }

  /** The services of a container that has routers: those its labels are about, else one named default. */
  function ServicesOf(labels: Labels): set<string>
  {
    var said := CollectNames(labels, "traefik.http.services.");
    if said == {} then {"default"} else said
  }

  /** Where a router goes: where it says; else to the only service; else to the one named default. */
  ghost predicate GoesTo(labels: Labels, n: string, services: set<string>, service: string)
  {
    var said := TextAt(labels, "traefik.http.routers." + n + ".service");
    && service in services
    && if said != "" then service == said
       else services == {service} || (service == "default" && forall x :: services != {x})
  }

  /** The container asks to be published, and is not a stub itself. */
  predicate OptsIn(labels: Labels)
  {
    && BoolAt(labels, "traefik-connect.managed", false) != Some(true)
    && if "traefik-connect.enable" in labels then BoolAt(labels, "traefik-connect.enable", false) == Some(true)
       else BoolAt(labels, "traefik.enable", false) == Some(true)
  }

  /** The name shown for a container: Docker's without its slash; else the host name; else twelve characters of
      the id. */
  ghost predicate ShownAs(ins: Inspect, name: string)
  {
    exists bare :: (ins.name == "/" + bare || (ins.name == bare && !("/" <= bare))) &&
      if bare != "" then name == bare
      else if ins.hostname != "" then name == ins.hostname
      else |ins.id| >= 12 && name == ins.id[..12]
  }

  /** A router that can be published: it has a rule, a service to go to, and its middlewares exist. */
  ghost predicate Publishable(labels: Labels, n: string)
  {
    var p := "traefik.http.routers." + n + ".";
    && TextAt(labels, p + "rule") != ""
    && (exists service :: GoesTo(labels, n, ServicesOf(labels), service))
    && forall m :: m in ListAt(labels, p + "middlewares") ==> m in CollectNames(labels, "traefik.http.middlewares.")
  }

  lemma RouterLabels(labels: Labels, n: string)
    ensures RouterSays(labels, n, ParseRouter(labels, n))
    ensures ParseRouter(labels, n).service == TextAt(labels, "traefik.http.routers." + n + ".service")
  {
    hide Trim, Csv, Atoi, ParseBool;
    Families();
    var p := ROUTERS + n + ".";
    assert "traefik.http.routers." + n + ".service" == p + "service";
  }

  lemma ServiceLabels(labels: Labels, n: string)
    ensures var p, svc := "traefik.http.services." + n + ".", ParseService(labels, n);
            && svc.port == PortAsked(labels, n) && svc.name == n
            && svc.passHostHeader == BoolAt(labels, p + "loadbalancer.passhostheader", true)
            && svc.sticky == BoolAt(labels, p + "loadbalancer.sticky", false)
  {
    hide Trim, Atoi, ParseBool;
    Families();
  }

  lemma OptInLabels(labels: Labels)
    ensures OptsIn(labels) <==> !BoolLabel(labels, "traefik-connect.managed") && IsEnabled(labels)
  {
    hide ParseBool;
  }

  lemma DisplayNameShown(ins: Inspect)
    ensures forall name :: DisplayName(ins) == Some(name) <==> ShownAs(ins, name)
    ensures DisplayName(ins).Some? <==> exists name :: ShownAs(ins, name)
  {
    var bare := if "/" <= ins.name then ins.name[1..] else ins.name;
    assert "/" <= ins.name ==> ins.name == "/" + bare;
    forall other | ins.name == "/" + other || (ins.name == other && !("/" <= other)) ensures other == bare {
      assert ins.name == "/" + other ==> ins.name[1..] == other;
    }
    forall name ensures DisplayName(ins) == Some(name) <==> ShownAs(ins, name) {
      if DisplayName(ins) == Some(name) {
        assert ins.name == "/" + bare || (ins.name == bare && !("/" <= bare));
      }
    }
    assert DisplayName(ins).Some? ==> ShownAs(ins, DisplayName(ins).value);
  }

  lemma DeclaredNames(labels: Labels, n: string)
    requires ParseRouters(labels) != map[]
    ensures DeclaredServices(labels).Keys == ServicesOf(labels)
    ensures n in DeclaredServices(labels) ==>
      var p, svc := "traefik.http.services." + n + ".", DeclaredServices(labels)[n];
      && svc.port == PortAsked(labels, n)
      && svc.passHostHeader == BoolAt(labels, p + "loadbalancer.passhostheader", true)
      && svc.sticky == BoolAt(labels, p + "loadbalancer.sticky", false)
  {
    Families();
    hide ParseService, ParseRouters, CollectNames, PortAsked, BoolAt;
    ServiceLabels(labels, n);
    assert ParseServices(labels).Keys == CollectNames(labels, SERVICES);
    if n in DeclaredServices(labels) && CollectNames(labels, SERVICES) == {} {
      assert ParseServices(labels) == map[];
      assert '.' !in "default";
      SilentService(labels, "default");
    }
  }

  /** Without a label, no port and no flags. */
  lemma SilentService(labels: Labels, n: string)
    requires n != "" && '.' !in n && n !in CollectNames(labels, "traefik.http.services.")
    ensures var p := "traefik.http.services." + n + ".";
            && PortAsked(labels, n) == 0 && BoolAt(labels, p + "loadbalancer.passhostheader", true) == None
            && BoolAt(labels, p + "loadbalancer.sticky", false) == None
  {
    hide CollectNames;
    NothingBelow(labels, "traefik.http.services.", n);
  }

  lemma NothingBelow(labels: Labels, family: string, n: string)
    requires n != "" && '.' !in n && n !in CollectNames(labels, family)
    ensures forall s :: family + n + "." + s !in labels
  {
    forall s ensures family + n + "." + s !in labels {
      var k := family + n + "." + s;
      NameOfKey(k, family, n);
    }
  }

  /** Completing a router succeeds exactly if it is publishable, and sends it where it goes. */
  lemma CompletedSays(labels: Labels, n: string, services: map<string, ServiceSpec>,
                      middlewares: map<string, MiddlewareSpec>)
    requires services.Keys == ServicesOf(labels)
    requires middlewares.Keys == CollectNames(labels, "traefik.http.middlewares.")
    ensures var o := CompleteRouter(n, ParseRouter(labels, n), services, middlewares);
            && (o.Some? <==> Publishable(labels, n))
            && (o.Some? ==> RouterSays(labels, n, o.value)
                            && GoesTo(labels, n, ServicesOf(labels), o.value.service))
  {
    hide ParseRouter, CollectNames, ServicesOf, Trim;
    RouterLabels(labels, n);
    RuleTrimmed(labels, n);
    var r := ParseRouter(labels, n);
    ImpliedIsGoal(services);
    var goal := if r.service != "" then Some(r.service) else ImpliedService(services);
    assert forall x :: GoesTo(labels, n, services.Keys, x) <==> goal == Some(x) && x in services;
    if goal.Some? && goal.value in services {
      assert GoesTo(labels, n, ServicesOf(labels), goal.value);
    }
  }

  lemma RuleTrimmed(labels: Labels, n: string)
    ensures Trim(ParseRouter(labels, n).rule) == ParseRouter(labels, n).rule
  {
    hide ROUTERS;
  }

  lemma ImpliedIsGoal(services: map<string, ServiceSpec>)
    ensures forall x :: (services.Keys == {x} || (x == "default" && x in services && forall y :: services.Keys != {y}))
                        <==> ImpliedService(services) == Some(x)
  {
    hide LexLe;
    if |services.Keys| == 1 {
      var x := Least(services.Keys);
      assert |services.Keys - {x}| == 0;
      assert services.Keys == {x};
    }
  }

  /** All its services have a backend. */
  ghost predicate AllBacked(ins: Inspect, urls: Urls, advertiseAddr: string)
  {
    forall n :: n in ServicesOf(ins.labels) ==>
      BackendFor(urls, ins.labels, ins.net, advertiseAddr, PortAsked(ins.labels, n)).Some?
  }

  ghost predicate AllPublishable(labels: Labels)
  {
    forall n :: n in CollectNames(labels, "traefik.http.routers.") ==> Publishable(labels, n)
  }

  lemma ServicesSay(ins: Inspect, urls: Urls, advertiseAddr: string)
    requires ParseRouters(ins.labels) != map[]
    ensures var labels := ins.labels;
            var services := ResolvedServices(DeclaredServices(labels), ResolverOf(urls, ins, advertiseAddr));
            && (services.Some? <==> AllBacked(ins, urls, advertiseAddr))
            && (services.Some? ==> services.value.Keys == ServicesOf(labels))
            && (services.Some? ==> forall n :: n in services.value ==>
                  var b := BackendFor(urls, labels, ins.net, advertiseAddr, PortAsked(labels, n));
                  b.Some? && ServiceSays(labels, n, services.value[n], b.value))
  {
    hide BackendFor, PortAsked, ServicesOf, BoolAt, DeclaredServices, ParseRouters;
    var labels := ins.labels;
    var declared := DeclaredServices(labels);
    forall n ensures n in declared <==> n in ServicesOf(labels)
             ensures n in declared ==>
               && declared[n].port == PortAsked(labels, n)
               && declared[n].passHostHeader
                  == BoolAt(labels, "traefik.http.services." + n + "." + "loadbalancer.passhostheader", true)
               && declared[n].sticky
                  == BoolAt(labels, "traefik.http.services." + n + "." + "loadbalancer.sticky", false)
    {
      DeclaredNames(labels, n);
    }
  }

  lemma RoutersSay(labels: Labels, services: map<string, ServiceSpec>)
    requires services.Keys == ServicesOf(labels)
    ensures var o := CompleteRouters(ParseRouters(labels), services, ParseMiddlewares(labels));
            && (o.Some? <==> AllPublishable(labels))
            && (o.Some? ==> o.value.Keys == CollectNames(labels, "traefik.http.routers."))
            && (o.Some? ==> forall n :: n in o.value ==>
                  RouterSays(labels, n, o.value[n]) && GoesTo(labels, n, ServicesOf(labels), o.value[n].service))
  {
    Families();
    hide ParseRouter, ParseMiddleware, CollectNames, CompleteRouter, RouterSays, GoesTo, ServicesOf, Publishable;
    var routers, middlewares := ParseRouters(labels), ParseMiddlewares(labels);
    assert middlewares.Keys == CollectNames(labels, MIDDLEWARES) && routers.Keys == CollectNames(labels, ROUTERS);
    assert forall n :: n in routers ==> routers[n] == ParseRouter(labels, n);
    forall n ensures var o := CompleteRouter(n, ParseRouter(labels, n), services, middlewares);
                     && (o.Some? <==> Publishable(labels, n))
                     && (o.Some? ==> RouterSays(labels, n, o.value)
                                     && GoesTo(labels, n, ServicesOf(labels), o.value.service))
    {
      CompletedSays(labels, n, services, middlewares);
    }
  }

  lemma HasRouters(labels: Labels)
    ensures ParseRouters(labels) == map[] <==> CollectNames(labels, "traefik.http.routers.") == {}
  {
    Families();
    hide CollectNames, ParseRouter;
    assert ParseRouters(labels).Keys == CollectNames(labels, ROUTERS);
  }

  /** A container is exported exactly if it opts in, has a name and routers, all its services have a backend,
      and all its routers can be published. */
  lemma ExportedIff(ins: Inspect, urls: Urls, advertiseAddr: string)
    ensures BuildContainer(ins, ResolverOf(urls, ins, advertiseAddr)).Exported? <==>
            && OptsIn(ins.labels) && (exists name :: ShownAs(ins, name))
            && CollectNames(ins.labels, "traefik.http.routers.") != {}
            && AllBacked(ins, urls, advertiseAddr) && AllPublishable(ins.labels)
  {
    var labels, resolve := ins.labels, ResolverOf(urls, ins, advertiseAddr);
    OptInLabels(labels);
    DisplayNameShown(ins);
    HasRouters(labels);
    hide OptsIn, IsEnabled, BoolLabel, DisplayName, ShownAs, BackendFor, PortAsked, ServicesOf, AllBacked;
    hide AllPublishable, ParseRouters, ParseMiddlewares, CollectNames, DeclaredServices, CompleteRouters;
    hide ResolvedServices, ResolverOf;
    if ParseRouters(labels) != map[] {
      ServicesSay(ins, urls, advertiseAddr);
      var services := ResolvedServices(DeclaredServices(labels), resolve);
      if services.Some? {
        RoutersSay(labels, services.value);
      }
    }
  }

  /** And then its spec says what the labels say. */
  lemma ExportedSays(ins: Inspect, urls: Urls, advertiseAddr: string)
    requires BuildContainer(ins, ResolverOf(urls, ins, advertiseAddr)).Exported?
    ensures var c, labels := BuildContainer(ins, ResolverOf(urls, ins, advertiseAddr)).spec, ins.labels;
            && c.id == ins.id && c.image == ins.image && ShownAs(ins, c.name)
            && c.routers.Keys == CollectNames(labels, "traefik.http.routers.") && c.services.Keys == ServicesOf(labels)
            && c.middlewares.Keys == CollectNames(labels, "traefik.http.middlewares.")
            && (forall n :: n in c.routers ==>
                  RouterSays(labels, n, c.routers[n]) && GoesTo(labels, n, ServicesOf(labels), c.routers[n].service))
            && (forall n :: n in c.services ==>
                  var b := BackendFor(urls, labels, ins.net, advertiseAddr, PortAsked(labels, n));
                  b.Some? && ServiceSays(labels, n, c.services[n], b.value))
            && forall n, f :: n in c.middlewares ==>
                 (if f in c.middlewares[n].fields then Some(c.middlewares[n].fields[f]) else None)
                 == FieldValue(labels, "traefik.http.middlewares." + n + ".", f)
  {
    var labels, resolve := ins.labels, ResolverOf(urls, ins, advertiseAddr);
    var c := BuildContainer(ins, resolve).spec;
    DisplayNameShown(ins);
    MiddlewaresSay(labels);
    hide IsEnabled, BoolLabel, DisplayName, ShownAs, BackendFor, PortAsked, ServicesOf, ServiceSays, FieldValue;
    hide ParseRouters, ParseMiddlewares, CollectNames, DeclaredServices, CompleteRouters, RouterSays, GoesTo;
    hide ResolvedServices;
    ServicesSay(ins, urls, advertiseAddr);
    RoutersSay(labels, c.services);
  }

  lemma MiddlewaresSay(labels: Labels)
    ensures var ms := ParseMiddlewares(labels);
            && ms.Keys == CollectNames(labels, "traefik.http.middlewares.")
            && forall n, f :: n in ms ==>
                 (if f in ms[n].fields then Some(ms[n].fields[f]) else None)
                 == FieldValue(labels, "traefik.http.middlewares." + n + ".", f)
  {
    Families();
    hide ParseMiddleware, CollectNames, FieldValue;
    var ms := ParseMiddlewares(labels);
    forall n, f | n in ms
      ensures (if f in ms[n].fields then Some(ms[n].fields[f]) else None)
        == FieldValue(labels, "traefik.http.middlewares." + n + ".", f)
    {
      ParsedFields(labels, n, f);
    }
  }

  /** Traefik's name of each middleware option. */
  lemma OptionNames(header: string)
    ensures FieldKey(RedirectScheme) == "redirectscheme.scheme"
    ensures FieldKey(RedirectPermanent) == "redirectscheme.permanent"
    ensures FieldKey(BasicAuthUsers) == "basicauth.users" && FieldKey(StripPrefixes) == "stripprefix.prefixes"
    ensures FieldKey(CustomRequest(header)) == "headers." + ("customrequestheaders." + header)
    ensures FieldKey(CustomResponse(header)) == "headers." + ("customresponseheaders." + header)
    ensures FieldKey(SslRedirect) == "headers." + "sslredirect" && FieldKey(StsSeconds) == "headers." + "stsseconds"
    ensures FieldKey(StsIncludeSubdomains) == "headers." + "stsincludeddomains"
    ensures FieldKey(StsPreload) == "headers." + "stspreload"
    ensures FieldKey(ForceStsHeader) == "headers." + "forcestsheader"
    ensures FieldKey(BrowserXssFilter) == "headers." + "browserxssfilter"
    ensures FieldKey(ContentTypeNosniff) == "headers." + "contenttypenosniff"
    ensures FieldKey(FrameDeny) == "headers." + "framedeny"
    ensures FieldKey(AllowOriginList) == "headers." + "accesscontrolalloworiginlist"
    ensures FieldKey(AllowMethods) == "headers." + "accesscontrolallowmethods"
    ensures FieldKey(AllowHeaders) == "headers." + "accesscontrolallowheaders"
    ensures FieldKey(ExposeHeaders) == "headers." + "accesscontrolexposeheaders"
    ensures FieldKey(MaxAge) == "headers." + "accesscontrolmaxage"
    ensures FieldKey(AddVaryHeader) == "headers." + "addvaryheader"
  {
  }

  /** What an option's label means: custom headers word for word; a scheme and an age as trimmed text; a number
      of seconds; six comma lists; and switches that are off unless said otherwise. */
  lemma OptionValues(f: Field, v: string)
    ensures f.CustomRequest? || f.CustomResponse? ==> ParseValue(f, v) == Some(Text(v))
    ensures f.RedirectScheme? || f.MaxAge? ==>
      ParseValue(f, v) == if Trim(v) == "" then None else Some(Text(Trim(v)))
    ensures f.StsSeconds? ==>
      ParseValue(f, v) == if Atoi(Trim(v)).Some? then Some(Number(Atoi(Trim(v)).value)) else None
    ensures f.BasicAuthUsers? || f.StripPrefixes? || f.AllowOriginList? || f.AllowMethods? || f.AllowHeaders?
            || f.ExposeHeaders? ==>
      ParseValue(f, v) == if Csv(v) == [] then None else Some(List(Csv(v)))
    ensures f.RedirectPermanent? || f.SslRedirect? || f.StsIncludeSubdomains? || f.StsPreload? || f.ForceStsHeader?
            || f.BrowserXssFilter? || f.ContentTypeNosniff? || f.FrameDeny? || f.AddVaryHeader? ==>
      ParseValue(f, v) == Some(Flag(ParseBool(v, false)))
  {
  }

  // ---------------------------------------------------------------- what a stub says

  ghost predicate Says(labels: Labels, key: string, v: Option<string>)
  {
    Get(labels, key) == v
  }

  /** The labels by which the receiver and an operator know the stub. */
  ghost predicate OwnLabels(labels: Labels, worker: string, c: ContainerSpec, service: string, network: string,
                            hash: string)
  {
    && Says(labels, "traefik-connect.managed", Some("true")) && Says(labels, "traefik-connect.worker-id", Some(worker))
    && Says(labels, "traefik-connect.container-id", Some(c.id))
    && Says(labels, "traefik-connect.container-name", Some(c.name))
    && Says(labels, "traefik-connect.service-name", Some(service))
    && Says(labels, "traefik-connect.desired-hash", Some(hash))
    && Says(labels, "traefik.enable", Some("true"))
    && Says(labels, "traefik.docker.network", if network != "" then Some(network) else None)
  }

  ghost predicate ServiceShown(labels: Labels, service: string, svc: ServiceSpec)
  {
    var p := "traefik.http.services." + service + ".";
    && Says(labels, p + "loadbalancer.server.port", Some("18181"))
    && Says(labels, p + "loadbalancer.passhostheader", ShownBool(svc.passHostHeader))
    && Says(labels, p + "loadbalancer.sticky", ShownBool(svc.sticky))
    && Says(labels, "traefik.tcp.services." + service + "." + "loadbalancer.server.port", Some("18181"))
  }

  ghost predicate RouterShown(labels: Labels, n: string, r: RouterSpec, service: string)
  {
    var p := "traefik.http.routers." + n + ".";
    && Says(labels, p + "rule", Some(r.rule)) && Says(labels, p + "service", Some(service))
    && Says(labels, p + "entrypoints", if r.entryPoints == [] then None else Some(Join(r.entryPoints, ',')))
    && Says(labels, p + "middlewares", if r.middlewares == [] then None else Some(Join(r.middlewares, ',')))
    && Says(labels, p + "priority", if r.priority.None? then None else Some(Itoa(r.priority.value)))
    && Says(labels, p + "tls", None)
  }

  /** A host rule is a server name rule for TCP; other rules stay. */
  ghost predicate TlsRouterShown(labels: Labels, n: string, r: RouterSpec, service: string)
  {
    var p := "traefik.tcp.routers." + n + ".";
    && Says(labels, p + "rule", Some(if "Host(" <= r.rule then "HostSNI(" + r.rule[5..] else r.rule))
    && Says(labels, p + "service", Some(service)) && Says(labels, p + "tls", Some("true"))
    && Says(labels, p + "entrypoints", if r.entryPoints == [] then None else Some(Join(r.entryPoints, ',')))
    && Says(labels, p + "priority", if r.priority.None? then None else Some(Itoa(r.priority.value)))
    && (r.tls.Some? ==> Says(labels, p + "tls.certresolver", if r.tls.value.certResolver == "" then None
                                                            else Some(r.tls.value.certResolver)))
  }

  lemma OwnLabelsMerged(worker: string, c: ContainerSpec, service: string, network: string, names: seq<string>,
                        hash: string)
    requires service in c.services && forall n :: n in names ==> n in c.routers
    ensures OwnLabels(StubLabels(worker, c, service, network, names, hash), worker, c, service, network, hash)
  {
    hide PieceLabels, BaseLabels;
    var labels := StubLabels(worker, c, service, network, names, hash);
    var base := BaseLabels(worker, c, service, c.services[service], network, hash);
    OwnLabelsBase(worker, c, service, c.services[service], network, hash);
    forall k | !HttpKey(k, 'r') && !HttpKey(k, 'm') && !TcpKey(k) ensures Get(labels, k) == Get(base, k) {
      forall p | p in Pieces(c, names) ensures k !in PieceLabels(c, service, p) {
        if k in PieceLabels(c, service, p) {
          PieceKeys(c, service, p, k);
        }
      }
      MergeMiss(base, c, service, Pieces(c, names), k);
    }
    OwnKeys();
  }

  lemma OwnKeys()
    ensures forall k :: k in {"traefik-connect.managed", "traefik-connect.worker-id", "traefik-connect.container-id",
                              "traefik-connect.container-name", "traefik-connect.service-name",
                              "traefik-connect.desired-hash", "traefik.enable", "traefik.docker.network"} ==>
      !HttpKey(k, 'r') && !HttpKey(k, 'm') && !HttpKey(k, 's') && !TcpKey(k)
  {
  }

  lemma OwnLabelsBase(worker: string, c: ContainerSpec, service: string, svc: ServiceSpec, network: string,
                      hash: string)
    ensures OwnLabels(BaseLabels(worker, c, service, svc, network, hash), worker, c, service, network, hash)
  {
    OwnLabelsFirst(worker, c, service, network, hash);
    OwnKeys();
    hide Prefixed, ServiceSuffixes, ManagedLabels, NetworkLabels, TcpPort, SERVICES, HttpKey, TcpKey;
    var first := ManagedLabels(worker, c, service, hash) + NetworkLabels(network);
    var more := Prefixed(SERVICES + service + ".", ServiceSuffixes(svc));
    FamilyPrefixes(service);
    forall k | k in more ensures HttpKey(k, 's') {
      FamilyOf(SERVICES + service + ".", k, 's');
    }
    forall k | k in TcpPort(service) ensures TcpKey(k) {
      TcpPortKey(service, k);
    }
  }

  lemma TcpPortKey(service: string, k: string)
    requires k in TcpPort(service)
    ensures TcpKey(k)
  {
    assert k == TCP_SERVICES + service + ".loadbalancer.server.port";
    assert TCP_SERVICES[8] == 't' && k[8] == TCP_SERVICES[8];
  }

  lemma OwnLabelsFirst(worker: string, c: ContainerSpec, service: string, network: string, hash: string)
    ensures OwnLabels(ManagedLabels(worker, c, service, hash) + NetworkLabels(network), worker, c, service, network,
                      hash)
  {
  }

  lemma ServiceIsShown(worker: string, c: ContainerSpec, service: string, network: string, names: seq<string>,
                       hash: string)
    requires service in c.services && forall n :: n in names ==> n in c.routers
    ensures ServiceShown(StubLabels(worker, c, service, network, names, hash), service, c.services[service])
  {
    Families();
    hide StubLabels, ServiceSuffixes, Prefixed, HttpKey;
    var labels, p, m := StubLabels(worker, c, service, network, names, hash), SERVICES + service + ".",
      ServiceSuffixes(c.services[service]);
    FamilyPrefixes(service);
    forall s ensures Get(labels, p + s) == Get(m, s) {
      FamilyOf(p, p + s, 's');
      ServiceGet(worker, c, service, network, names, hash, p + s);
    }
    TcpPortShown(worker, c, service, network, names, hash);
  }

  lemma TcpPortShown(worker: string, c: ContainerSpec, service: string, network: string, names: seq<string>,
                     hash: string)
    requires service in c.services && forall n :: n in names ==> n in c.routers
    ensures Get(StubLabels(worker, c, service, network, names, hash),
                "traefik.tcp.services." + service + "." + "loadbalancer.server.port") == Some("18181")
  {
    Families();
    var k := TCP_SERVICES + service + ".loadbalancer.server.port";
    assert "traefik.tcp.services." + service + "." + "loadbalancer.server.port" == k;
    hide PieceLabels, TCP_SERVICES, TCP_ROUTERS, SERVICES, Prefixed, ServiceSuffixes;
    forall p | p in Pieces(c, names) ensures k !in PieceLabels(c, service, p) {
      if k in PieceLabels(c, service, p) {
        PieceKeys(c, service, p, k);
        TcpServiceKey(service);
        TcpPortKey(service, k);
        TcpPieceIsRouter(c, service, p, k);
        assert false;
      }
    }
    MergeMiss(BaseLabels(worker, c, service, c.services[service], network, hash), c, service, Pieces(c, names), k);
  }

  lemma TcpPieceIsRouter(c: ContainerSpec, service: string, p: Piece, k: string)
    requires k in PieceLabels(c, service, p) && TcpKey(k)
    ensures TcpRouterKey(k)
  {
    hide Prefixed, TcpSuffixes, HttpSuffixes, MiddlewareSuffixes, ROUTERS, MIDDLEWARES, TCP_ROUTERS;
    PieceKeys(c, service, p, k);
    TcpFamily(if p.Tcp? then p.router else "", k);
  }

  lemma RouterIsShown(worker: string, c: ContainerSpec, service: string, network: string, names: seq<string>,
                      hash: string, n: string)
    requires WellFormed(c) && service in c.services && forall x :: x in names ==> x in c.routers
    requires n in names
    ensures var labels := StubLabels(worker, c, service, network, names, hash);
            if c.routers[n].tls.None? then RouterShown(labels, n, c.routers[n], service)
            else TlsRouterShown(labels, n, c.routers[n], service)
  {
    hide StubLabels, HttpSuffixes, TcpSuffixes, Prefixed, RouterShown, TlsRouterShown, ROUTERS, TCP_ROUTERS;
    var labels, r := StubLabels(worker, c, service, network, names, hash), c.routers[n];
    if r.tls.None? {
      var p := ROUTERS + n + ".";
      forall s ensures Get(labels, p + s) == Get(HttpSuffixes(r, service), s) {
        StubGet(worker, c, service, network, names, hash, p + s, Http(n));
      }
      PlainSuffixes(labels, n, r, service);
    } else {
      var p := TCP_ROUTERS + n + ".";
      forall s ensures Get(labels, p + s) == Get(TcpSuffixes(r, service), s) {
        TcpGet(worker, c, service, network, names, hash, p + s, n);
      }
      TlsSuffixes(labels, n, r, service);
    }
  }

  lemma PlainSuffixes(labels: Labels, n: string, r: RouterSpec, service: string)
    requires forall s :: Get(labels, ROUTERS + n + "." + s) == Get(HttpSuffixes(r, service), s)
    ensures RouterShown(labels, n, r, service)
  {
    Families();
    hide ROUTERS, HttpSuffixes, Join, Itoa;
  }

  lemma TlsSuffixes(labels: Labels, n: string, r: RouterSpec, service: string)
    requires r.tls.Some? && Trimmed(r.rule)
    requires forall s :: Get(labels, TCP_ROUTERS + n + "." + s) == Get(TcpSuffixes(r, service), s)
    ensures TlsRouterShown(labels, n, r, service)
  {
    Families();
    hide TCP_ROUTERS, TcpSuffixes, Join, Itoa, Trim;
  }

  /** The middleware's options as labels, for each that is set, and none besides. */
  lemma MiddlewareIsShown(worker: string, c: ContainerSpec, service: string, network: string, names: seq<string>,
                          hash: string, m: string, f: Field)
    requires WellFormed(c) && service in c.services && forall x :: x in names ==> x in c.routers
    requires m in Mentioned(c, names)
    ensures Get(StubLabels(worker, c, service, network, names, hash),
                "traefik.http.middlewares." + m + "." + FieldKey(f))
      == if f in c.middlewares[m].fields then Some(Show(c.middlewares[m].fields[f])) else None
  {
    Families();
    hide StubLabels, MIDDLEWARES, MiddlewareSuffixes, Prefixed, FieldKey, Show;
    var p := MIDDLEWARES + m + ".";
    StubGet(worker, c, service, network, names, hash, p + FieldKey(f), Middleware(m));
    assert Get(Prefixed(p, MiddlewareSuffixes(c.middlewares[m])), p + FieldKey(f))
      == Get(MiddlewareSuffixes(c.middlewares[m]), FieldKey(f));
  }

  ghost predicate RoutersShown(labels: Labels, c: ContainerSpec, service: string)
  {
    forall n :: n in c.routers && c.routers[n].service == service ==>
      if c.routers[n].tls.None? then RouterShown(labels, n, c.routers[n], service)
      else TlsRouterShown(labels, n, c.routers[n], service)
  }

  /** The middlewares that plain-HTTP routers of the service name. */
  ghost predicate MiddlewaresShown(labels: Labels, c: ContainerSpec, service: string)
  {
    forall m, f :: m in Mentioned(c, RoutersOf(c, service)) ==>
      Get(labels, "traefik.http.middlewares." + m + "." + FieldKey(f))
      == if f in c.middlewares[m].fields then Some(Show(c.middlewares[m].fields[f])) else None
  }

  lemma RoutersAreShown(worker: string, c: ContainerSpec, service: string, network: string, hash: string)
    requires WellFormed(c) && service in c.services && service != ""
    ensures RoutersShown(StubLabels(worker, c, service, network, RoutersOf(c, service), hash), c, service)
    ensures MiddlewaresShown(StubLabels(worker, c, service, network, RoutersOf(c, service), hash), c, service)
  {
    hide StubLabels, RouterShown, TlsRouterShown, FieldKey, Show, WellFormed;
    var names := RoutersOf(c, service);
    var labels := StubLabels(worker, c, service, network, names, hash);
    forall n | n in c.routers && c.routers[n].service == service
      ensures if c.routers[n].tls.None? then RouterShown(labels, n, c.routers[n], service)
              else TlsRouterShown(labels, n, c.routers[n], service)
    {
      RouterIsShown(worker, c, service, network, names, hash, n);
    }
    forall m, f | m in Mentioned(c, names)
      ensures Get(labels, "traefik.http.middlewares." + m + "." + FieldKey(f))
        == if f in c.middlewares[m].fields then Some(Show(c.middlewares[m].fields[f])) else None
    {
      MiddlewareIsShown(worker, c, service, network, names, hash, m, f);
    }
  }

  /** Everything a stub of an exported container tells Docker and Traefik: whose it is, where it is reached, and
      its service's routers with their middlewares. */
  lemma StubSays(ins: Inspect, resolve: Resolver, cfg: Config, s: Snapshot, imageId: string, service: string)
    requires BuildContainer(ins, resolve).Exported? && service in BuildContainer(ins, resolve).spec.services
    ensures var c := BuildContainer(ins, resolve).spec;
            var spec := StubFor(cfg, s, c, service, imageId);
            && spec.image == cfg.image && spec.imageId == imageId
            && spec.containerId == c.id && spec.containerName == c.name && spec.serviceName == service
            && OwnLabels(spec.labels, s.workerId, c, service, cfg.network, spec.desiredHash)
            && ServiceShown(spec.labels, service, c.services[service])
            && RoutersShown(spec.labels, c, service) && MiddlewaresShown(spec.labels, c, service)
  {
    hide BuildContainer, StubLabels, RoutersOf, OwnLabels, ServiceShown, RoutersShown, MiddlewaresShown, StubName;
    var c := BuildContainer(ins, resolve).spec;
    ExportedIsClosed(ins, resolve);
    var names, hash := RoutersOf(c, service), StubFor(cfg, s, c, service, imageId).desiredHash;
    SealedLabels(s.workerId, c, service, cfg.network, names, hash);
    OwnLabelsMerged(s.workerId, c, service, cfg.network, names, hash);
    ServiceIsShown(s.workerId, c, service, cfg.network, names, hash);
    DotFreeService(c, service);
    RoutersAreShown(s.workerId, c, service, cfg.network, hash);
  }
}
