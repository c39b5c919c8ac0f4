/** BuildContainer: from the labels of an inspected container to the spec the agent sends. */
module Export {
  import opened Strings
  import opened Model
  import opened LabelParser
  import opened Backends

  datatype Inspect = Inspect(id: string, name: string, hostname: string, image: string, labels: Labels, net: Networking)

  /** resolveBackendURL for one container: the backend of each service port, None where it fails. */
  type Resolver = int -> Option<Backend>

  function ResolverOf(urls: Urls, ins: Inspect, advertiseAddr: string): Resolver
  {
    port => BackendFor(urls, ins.labels, ins.net, advertiseAddr, port)
  }

  /** Crash: slicing the first twelve characters off a shorter container id. */
  datatype Outcome = Exported(spec: ContainerSpec) | Skipped | Crash

  function BoolLabel(labels: Labels, key: string): bool
  {
    key in labels && ParseBool(labels[key], false)
  }

  predicate IsEnabled(labels: Labels)
  {
    if "traefik-connect.enable" in labels then BoolLabel(labels, "traefik-connect.enable")
    else BoolLabel(labels, "traefik.enable")
  }

  function DisplayName(ins: Inspect): (r: Option<string>)
    ensures r.Some? ==> r.value != ""
  {
    var n := if "/" <= ins.name then ins.name[1..] else ins.name;
    if n != "" then Some(n)
    else if ins.hostname != "" then Some(ins.hostname)
    else if |ins.id| >= 12 then Some(ins.id[..12])
    else None
  }

  function BareService(name: string): ServiceSpec
  {
    ServiceSpec(name, 0, "", "", None, None)
  }

  /** The parsed services, with a default one made up for a container that only has routers. */
  function DeclaredServices(labels: Labels): map<string, ServiceSpec>
  {
    if ParseServices(labels) == map[] && ParseRouters(labels) != map[]
    then map["default" := BareService("default")]
    else ParseServices(labels)
  }

  function WithBackend(name: string, s: ServiceSpec, b: Backend): ServiceSpec
  {
    s.(name := name, backendUrl := b.url, backendSource := b.source, port := b.port)
  }

  function ResolvedServices(services: map<string, ServiceSpec>, resolve: Resolver): Option<map<string, ServiceSpec>>
  {
    if exists n :: n in services && resolve(services[n].port).None? then None
    else Some(map n | n in services :: WithBackend(n, services[n], resolve(services[n].port).value))
  }

  /** The service a router without a service label is sent to. */
  function ImpliedService(services: map<string, ServiceSpec>): Option<string>
  {
    if |services.Keys| == 1 then Some(Least(services.Keys))
    else if "default" in services then Some("default")
    else None
  }

  function CompleteRouter(name: string, r: RouterSpec, services: map<string, ServiceSpec>,
                          middlewares: map<string, MiddlewareSpec>): (o: Option<RouterSpec>)
    ensures o.Some? ==> o.value == r.(name := name, service := o.value.service)
    ensures o.Some? ==> Trim(r.rule) != "" && o.value.service in services
    ensures o.Some? ==> forall m :: m in r.middlewares ==> m in middlewares
  {
    if Trim(r.rule) == "" then None
    else
      var s := if r.service != "" then Some(r.service) else ImpliedService(services);
      if s.None? || s.value !in services || (exists m :: m in r.middlewares && m !in middlewares) then None
      else Some(r.(name := name, service := s.value))
  }

  function CompleteRouters(routers: map<string, RouterSpec>, services: map<string, ServiceSpec>,
                           middlewares: map<string, MiddlewareSpec>): Option<map<string, RouterSpec>>
  {
    if exists n :: n in routers && CompleteRouter(n, routers[n], services, middlewares).None? then None
    else Some(map n | n in routers :: CompleteRouter(n, routers[n], services, middlewares).value)
  }

  function BuildContainer(ins: Inspect, resolve: Resolver): Outcome
  {
    if BoolLabel(ins.labels, "traefik-connect.managed") || !IsEnabled(ins.labels) then Skipped
    else if DisplayName(ins).None? then Crash
    else
      var routers := ParseRouters(ins.labels);
      var middlewares := ParseMiddlewares(ins.labels);
      if routers == map[] then Skipped
      else
        var services := ResolvedServices(DeclaredServices(ins.labels), resolve);
        if services.None? then Skipped
        else
          var complete := CompleteRouters(routers, services.value, middlewares);
          if complete.None? then Skipped
          else Exported(ContainerSpec(ins.id, DisplayName(ins).value, ins.image, complete.value, services.value,
                                      middlewares))
  }

  // ---------------------------------------------------------------- what exported specs look like

  ghost predicate CanonicalRouter(r: RouterSpec)
  {
    && Trimmed(r.rule) && r.rule != ""
    && CleanList(r.entryPoints) && CleanList(r.middlewares)
    && (r.priority.Some? ==> IsInt64(r.priority.value))
    && (r.tls.Some? ==> Trimmed(r.tls.value.certResolver))
  }

  ghost predicate CanonicalMiddleware(mw: MiddlewareSpec)
  {
    && (forall f :: f in mw.fields ==> Canonical(f, mw.fields[f]))
    && (forall f :: f in mw.fields && InRedirect(f) ==> mw.hasRedirect)
    && (forall f :: f in mw.fields && InHeaders(f) ==> mw.hasHeaders)
  }

  predicate DotFree(s: string)
  {
    s != "" && '.' !in s
  }

  /** Every reference in the spec resolves inside it. */
  ghost predicate Closed(c: ContainerSpec)
  {
    && (forall n :: n in c.routers ==> c.routers[n].service in c.services)
    && (forall n, m :: n in c.routers && m in c.routers[n].middlewares ==> m in c.middlewares)
  }

  ghost predicate WellFormed(c: ContainerSpec)
  {
    && (forall n :: n in c.routers ==> DotFree(n) && c.routers[n].name == n && CanonicalRouter(c.routers[n]))
    && (forall n :: n in c.services ==> DotFree(n) && c.services[n].name == n)
    && (forall n :: n in c.middlewares ==>
          DotFree(n) && c.middlewares[n].name == n && CanonicalMiddleware(c.middlewares[n]))
  }

  lemma ParsedMiddlewareIsCanonical(labels: Labels, name: string)
    ensures CanonicalMiddleware(ParseMiddleware(labels, name))
  {
    hide FieldKey, Classify, MIDDLEWARES;
    var mw, p := ParseMiddleware(labels, name), MIDDLEWARES + name + ".";
    forall f | f in mw.fields
      ensures Canonical(f, mw.fields[f])
      ensures InRedirect(f) ==> mw.hasRedirect
      ensures InHeaders(f) ==> mw.hasHeaders
    {
      ParsedFields(labels, name, f);
      var k := p + FieldKey(f);
      assert k in labels && SuffixOf(k, p) == FieldKey(f);
      ClassifyFieldKey(f);
      RedirectKeys(f);
    }
  }

  lemma RedirectKeys(f: Field)
    ensures InRedirect(f) ==> IsRedirectSuffix(FieldKey(f))
    ensures IsRedirectSuffix(FieldKey(f)) ==> InRedirect(f)
  {
    hide HeaderKey;
    if InHeaders(f) {
      assert FieldKey(f)[0] == 'h';
    }
  }

  lemma ParsedRouterIsCanonical(labels: Labels, name: string)
    requires ParseRouter(labels, name).rule != ""
    ensures CanonicalRouter(ParseRouter(labels, name))
  {
    hide ROUTERS;
  }

  lemma CompletedRouters(labels: Labels, services: map<string, ServiceSpec>, middlewares: map<string, MiddlewareSpec>)
    requires CompleteRouters(ParseRouters(labels), services, middlewares).Some?
    ensures var rs := CompleteRouters(ParseRouters(labels), services, middlewares).value;
            && rs.Keys == ParseRouters(labels).Keys
            && forall n :: n in rs ==>
                 && DotFree(n) && rs[n].name == n && CanonicalRouter(rs[n])
                 && rs[n].service in services && forall m :: m in rs[n].middlewares ==> m in middlewares
  {
    hide ParseRouter, CompleteRouter, CollectNames;
    var parsed := ParseRouters(labels);
    var rs := CompleteRouters(parsed, services, middlewares).value;
    forall n | n in rs
      ensures rs[n].name == n && CanonicalRouter(rs[n])
    {
      assert CompleteRouter(n, parsed[n], services, middlewares) == Some(rs[n]);
      assert rs[n].rule == parsed[n].rule != "";
      ParsedRouterIsCanonical(labels, n);
    }
  }

  /** Every exported spec is well formed, referentially closed, and has at least one router. */
  lemma ExportedIsClosed(ins: Inspect, resolve: Resolver)
    requires BuildContainer(ins, resolve).Exported?
    ensures var c := BuildContainer(ins, resolve).spec;
            WellFormed(c) && Closed(c) && c.routers != map[] && c.services != map[] && c.id == ins.id && c.name != ""
  {
    hide BoolLabel, IsEnabled, DisplayName, ParseMiddlewares, ParseRouters, DeclaredServices;
    hide ResolvedServices, CompleteRouters;
    var c := BuildContainer(ins, resolve).spec;
    ParsedMiddlewaresAreCanonical(ins.labels);
    ResolvedServicesAreNamed(ins.labels, resolve);
    CompletedRouters(ins.labels, c.services, c.middlewares);
    assert c.services != map[] by {
      var n :| n in c.routers;
      assert c.routers[n].service in c.services;
    }
  }

  lemma ParsedMiddlewaresAreCanonical(labels: Labels)
    ensures var mws := ParseMiddlewares(labels);
            forall n :: n in mws ==> DotFree(n) && mws[n].name == n && CanonicalMiddleware(mws[n])
  {
    hide ParseMiddleware, CollectNames;
    var mws := ParseMiddlewares(labels);
    forall n | n in mws ensures CanonicalMiddleware(mws[n]) && mws[n].name == n {
      ParsedMiddlewareIsCanonical(labels, n);
      NamesKept(labels, n);
    }
  }

  lemma ResolvedServicesAreNamed(labels: Labels, resolve: Resolver)
    ensures var services := ResolvedServices(DeclaredServices(labels), resolve);
            services.Some? ==> forall n :: n in services.value ==> DotFree(n) && services.value[n].name == n
  {
    hide ParseService, ParseRouters, CollectNames;
    assert '.' !in "default";
    assert forall n :: n in DeclaredServices(labels) ==> DotFree(n);
  }

  lemma NamesKept(labels: Labels, n: string)
    ensures ParseMiddleware(labels, n).name == n && ParseRouter(labels, n).name == n
  {
  }

  /** A container that opts in and has one router label and nothing else is exported with a default
      service, to which the router is sent. */
  lemma LoneRouterIsExported(ins: Inspect, resolve: Resolver, n: string, rule: string)
    requires DotFree(n) && Trim(rule) != "" && DisplayName(ins).Some? && resolve(0).Some?
    requires ins.labels == map["traefik.enable" := "true", ROUTERS + n + ".rule" := rule]
    ensures BuildContainer(ins, resolve) ==
            Exported(ContainerSpec(ins.id, DisplayName(ins).value, ins.image,
                                   map[n := RouterSpec(n, Trim(rule), [], None, [], "default", None)],
                                   map["default" := ServiceSpec("default", resolve(0).value.port, resolve(0).value.url,
                                                                resolve(0).value.source, None, None)],
                                   map[]))
  {
    hide DisplayName, Trim, ParseRouter, CollectNames, IsEnabled, BoolLabel, ResolvedServices;
    hide CompleteRouters, DeclaredServices, ROUTERS;
    var labels := ins.labels;
    var r := RouterSpec(n, Trim(rule), [], None, [], "", None);
    var bare := map["default" := BareService("default")];
    LoneRouterNames(labels, n, rule);
    TrimAgain(rule);
    LoneRouterEnabled(labels, n, rule);
    LoneRouterParses(labels, n, rule);
    assert ParseServices(labels) == map[] && ParseMiddlewares(labels) == map[];
    assert ParseRouters(labels) == map[n := r];
    assert n in ParseRouters(labels);
    LoneRouterDeclares(labels);
    OneServiceResolves(resolve);
    LoneRouterCompletes(r, WithBackend("default", BareService("default"), resolve(0).value));
  }

  lemma TrimAgain(s: string)
    ensures Trim(Trim(s)) == Trim(s)
  {
  }

  lemma LoneRouterDeclares(labels: Labels)
    requires ParseServices(labels) == map[] && ParseRouters(labels) != map[]
    ensures DeclaredServices(labels) == map["default" := BareService("default")]
  {
    hide ParseServices, ParseRouters;
  }

  lemma OneServiceResolves(resolve: Resolver)
    requires resolve(0).Some?
    ensures ResolvedServices(map["default" := BareService("default")], resolve)
         == Some(map["default" := WithBackend("default", BareService("default"), resolve(0).value)])
  {
    var services := map["default" := BareService("default")];
    assert forall n :: n in services ==> n == "default" && services[n].port == 0;
    var resolved := WithBackend("default", BareService("default"), resolve(0).value);
    assert ResolvedServices(services, resolve).value == map["default" := resolved];
  }

  lemma LoneRouterCompletes(r: RouterSpec, s: ServiceSpec)
    requires r.service == "" && r.middlewares == [] && Trim(r.rule) != ""
    ensures CompleteRouters(map[r.name := r], map["default" := s], map[])
      == Some(map[r.name := r.(service := "default")])
  {
    hide Trim, Least;
    var routers, services := map[r.name := r], map["default" := s];
    assert services.Keys == {"default"} && "default" in services.Keys;
    assert CompleteRouter(r.name, r, services, map[]) == Some(r.(service := "default"));
    assert forall n :: n in routers ==> n == r.name && routers[n] == r;
    assert CompleteRouters(routers, services, map[]).value == map[r.name := r.(service := "default")];
  }

  lemma LoneRouterNames(labels: Labels, n: string, rule: string)
    requires DotFree(n) && labels == map["traefik.enable" := "true", ROUTERS + n + ".rule" := rule]
    ensures CollectNames(labels, ROUTERS) == {n}
    ensures CollectNames(labels, SERVICES) == {} && CollectNames(labels, MIDDLEWARES) == {}
  {
    hide UpToDot;
    var k, e := ROUTERS + n + ".rule", "traefik.enable";
    assert k[..21] == ROUTERS && ROUTERS[13] == 'r' && SERVICES[13] == 's' && MIDDLEWARES[13] == 'm' && e[8] == 'e'
      && ROUTERS[8] == 'h';
    assert k[13] == ROUTERS[13] && SERVICES[8] == 'h' && MIDDLEWARES[8] == 'h';
    assert k == ROUTERS + n + "." + "rule";
    NameBelow(ROUTERS, n, k);
    assert NameIn(k, ROUTERS) == n && k in labels;
    assert NameIn(e, ROUTERS) == "" && NameIn(e, SERVICES) == "" && NameIn(e, MIDDLEWARES) == "";
    assert NameIn(k, SERVICES) == "" && NameIn(k, MIDDLEWARES) == "";
  }

  lemma LoneRouterEnabled(labels: Labels, n: string, rule: string)
    requires labels == map["traefik.enable" := "true", ROUTERS + n + ".rule" := rule]
    ensures IsEnabled(labels) && !BoolLabel(labels, "traefik-connect.managed")
  {
    hide ParseBool;
    var k := ROUTERS + n + ".rule";
    assert ROUTERS[7] == '.' && k[7] == ROUTERS[7] && ROUTERS[8] == 'h' && k[8] == ROUTERS[8];
    assert "traefik.enable"[8] == 'e' && "traefik.enable"[7] == '.';
    assert "traefik-connect.enable"[7] == '-' && "traefik-connect.managed"[7] == '-';
    BoolRoundTrip(true, false);
  }

  lemma LoneRouterParses(labels: Labels, n: string, rule: string)
    requires labels == map["traefik.enable" := "true", ROUTERS + n + ".rule" := rule]
    ensures ParseRouter(labels, n) == RouterSpec(n, Trim(rule), [], None, [], "", None)
  {
    var p := ROUTERS + n + ".";
    var k := ROUTERS + n + ".rule";
    assert k == p + "rule" && k[|p|..] == "rule";
    assert k[8] == 'h' && "traefik.enable"[8] == 'e';
    forall s | s != "rule" ensures p + s !in labels {
      assert (p + s)[|p|..] == s && (p + s)[8] == ROUTERS[8];
    }
  }

  // ---------------------------------------------------------------- the loops over the parsed maps

  /** The service loop: the services come in any order, and it stops at the first that fails. */
  method ResolveLoop(urls: Urls, ins: Inspect, advertiseAddr: string, services: map<string, ServiceSpec>)
    returns (out: Option<map<string, ServiceSpec>>)
    ensures out == ResolvedServices(services, ResolverOf(urls, ins, advertiseAddr))
  {
    hide BackendFor;
    ghost var resolve := ResolverOf(urls, ins, advertiseAddr);
    var done: map<string, ServiceSpec>, todo := map[], services.Keys;
    while todo != {}
      invariant todo <= services.Keys && done.Keys == services.Keys - todo
      invariant forall n :: n in done ==> resolve(services[n].port).Some?
      invariant forall n :: n in done ==> done[n] == WithBackend(n, services[n], resolve(services[n].port).value)
      decreases todo
    {
      var n :| n in todo;
      todo := todo - {n};
      var b := ResolveBackend(urls, ins.labels, ins.net, advertiseAddr, services[n].port);
      if b.None? {
        return None;
      }
      done := done[n := WithBackend(n, services[n], b.value)];
    }
    assert done == map n | n in services :: WithBackend(n, services[n], resolve(services[n].port).value);
    return Some(done);
  }

  /** The router loop, likewise in any order. */
  method RouterLoop(routers: map<string, RouterSpec>, services: map<string, ServiceSpec>,
                    middlewares: map<string, MiddlewareSpec>)
    returns (out: Option<map<string, RouterSpec>>)
    ensures out == CompleteRouters(routers, services, middlewares)
  {
    hide CompleteRouter;
    var done: map<string, RouterSpec>, todo := map[], routers.Keys;
    while todo != {}
      invariant todo <= routers.Keys && done.Keys == routers.Keys - todo
      invariant forall n :: n in done ==> CompleteRouter(n, routers[n], services, middlewares) == Some(done[n])
      decreases todo
    {
      var n :| n in todo;
      todo := todo - {n};
      var r := CompleteRouter(n, routers[n], services, middlewares);
      if r.None? {
        return None;
      }
      done := done[n := r.value];
    }
    assert done == map n | n in routers :: CompleteRouter(n, routers[n], services, middlewares).value;
    return Some(done);
  }

  /** BuildContainer as it runs: the outcome does not depend on the order in which the maps of
      labels, ports, networks, services and routers are walked. */
  method Build(ins: Inspect, urls: Urls, advertiseAddr: string) returns (out: Outcome)
    ensures out == BuildContainer(ins, ResolverOf(urls, ins, advertiseAddr))
  {
    hide ParseRouters, ParseMiddlewares, ParseServices, CompleteRouters, ResolvedServices;
    if BoolLabel(ins.labels, "traefik-connect.managed") || !IsEnabled(ins.labels) {
      return Skipped;
    }
    var name := DisplayName(ins);
    if name.None? {
      return Crash;
    }
    var services := ParseServices(ins.labels);
    var routers := ParseRouters(ins.labels);
    var middlewares := ParseMiddlewaresLoop(ins.labels);
    if services == map[] && routers != map[] {
      services := map["default" := BareService("default")];
    }
    if routers == map[] {
      return Skipped;
    }
    var resolved := ResolveLoop(urls, ins, advertiseAddr, services);
    if resolved.None? {
      return Skipped;
    }
    var complete := RouterLoop(routers, resolved.value, middlewares);
    if complete.None? {
      return Skipped;
    }
    out := Exported(ContainerSpec(ins.id, name.value, ins.image, complete.value, resolved.value, middlewares));
  }
}
