/** A container on which the second parse fails: its one service has white space around its name. */
module PaddedNames {
  import opened Strings
  import opened Model
  import opened LabelParser
  import opened Export
  import opened Stubs
  import opened Desired

  const ENABLE := "traefik.enable"

  function OneOfEach(n: string, rule: string, svc: string, port: string): Labels
  {
    map[ENABLE := "true", ROUTERS + n + "." + "rule" := rule, SERVICES + svc + "." + "loadbalancer.server.port" := port]
  }

  lemma Prefixes(n: string, svc: string)
    ensures var k, q := ROUTERS + n + "." + "rule", SERVICES + svc + "." + "loadbalancer.server.port";
            && |ROUTERS| > 13 && |SERVICES| > 13 && |MIDDLEWARES| > 13
            && k[13] == ROUTERS[13] == 'r' && q[13] == SERVICES[13] == 's' && MIDDLEWARES[13] == 'm'
            && k[8] == q[8] == ROUTERS[8] == SERVICES[8] == MIDDLEWARES[8] == 'h' && ENABLE[8] == 'e'
            && k[7] == q[7] == '.'
  {
    assert ROUTERS[7] == '.' && SERVICES[7] == '.';
  }

  lemma Names(n: string, rule: string, svc: string, port: string)
    requires DotFree(n) && DotFree(svc)
    ensures var labels := OneOfEach(n, rule, svc, port);
            CollectNames(labels, ROUTERS) == {n} && CollectNames(labels, SERVICES) == {svc}
              && CollectNames(labels, MIDDLEWARES) == {}
  {
    hide UpToDot;
    var labels := OneOfEach(n, rule, svc, port);
    var k, q := ROUTERS + n + "." + "rule", SERVICES + svc + "." + "loadbalancer.server.port";
    Prefixes(n, svc);
    NameBelow(ROUTERS, n, k);
    NameBelow(SERVICES, svc, q);
    hide ROUTERS, SERVICES, MIDDLEWARES;
    assert k in labels && NameIn(k, ROUTERS) == n && NameIn(k, SERVICES) == "" && NameIn(k, MIDDLEWARES) == "";
    assert q in labels && NameIn(q, SERVICES) == svc && NameIn(q, ROUTERS) == "" && NameIn(q, MIDDLEWARES) == "";
    assert NameIn(ENABLE, ROUTERS) == "" && NameIn(ENABLE, SERVICES) == "" && NameIn(ENABLE, MIDDLEWARES) == "";
  }

  lemma Enabled(n: string, rule: string, svc: string, port: string)
    ensures var labels := OneOfEach(n, rule, svc, port);
            IsEnabled(labels) && !BoolLabel(labels, "traefik-connect.managed")
  {
    hide ParseBool, ROUTERS, SERVICES, MIDDLEWARES;
    Prefixes(n, svc);
    assert "traefik-connect.enable"[7] == '-' && "traefik-connect.managed"[7] == '-' && ENABLE[7] == '.';
    BoolRoundTrip(true, false);
  }

  lemma RouterParses(n: string, rule: string, svc: string, port: string)
    ensures ParseRouter(OneOfEach(n, rule, svc, port), n) == RouterSpec(n, Trim(rule), [], None, [], "", None)
  {
    var labels, p := OneOfEach(n, rule, svc, port), ROUTERS + n + ".";
    Prefixes(n, svc);
    hide ROUTERS, SERVICES;
    forall s | s != "rule" ensures p + s !in labels {
      assert (p + s)[|p|..] == s && (p + "rule")[|p|..] == "rule";
      assert (p + s)[13] == ROUTERS[13] && (p + s)[8] == ROUTERS[8];
    }
    assert labels[p + "rule"] == rule;
  }

  lemma Completes(r: RouterSpec, svc: string, s: ServiceSpec)
    requires r.service == "" && r.middlewares == [] && Trim(r.rule) != ""
    ensures CompleteRouters(map[r.name := r], map[svc := s], map[]) == Some(map[r.name := r.(service := svc)])
  {
    hide Trim, Least;
    var routers, services := map[r.name := r], map[svc := s];
    assert services.Keys == {svc} && svc in services.Keys;
    assert CompleteRouter(r.name, r, services, map[]) == Some(r.(service := svc));
    assert forall n :: n in routers ==> n == r.name && routers[n] == r;
    assert CompleteRouters(routers, services, map[]).value == map[r.name := r.(service := svc)];
  }

  lemma Resolves(svc: string, s: ServiceSpec, resolve: Resolver)
    requires resolve(s.port).Some?
    ensures ResolvedServices(map[svc := s], resolve) == Some(map[svc := WithBackend(svc, s, resolve(s.port).value)])
  {
    var services := map[svc := s];
    assert forall n :: n in services ==> n == svc && services[n] == s;
    assert ResolvedServices(services, resolve).value == map[svc := WithBackend(svc, s, resolve(s.port).value)];
  }

  /** The router is sent to the only service, under its name as it stands. */
  lemma Exports(ins: Inspect, resolve: Resolver, n: string, rule: string, svc: string, port: string)
    requires DotFree(n) && DotFree(svc) && Trim(rule) != "" && DisplayName(ins).Some? && forall p :: resolve(p).Some?
    requires ins.labels == OneOfEach(n, rule, svc, port)
    ensures BuildContainer(ins, resolve).Exported?
    ensures var c := BuildContainer(ins, resolve).spec;
            c.routers == map[n := RouterSpec(n, Trim(rule), [], None, [], svc, None)] && c.services.Keys == {svc}
  {
    hide DisplayName, Trim, ParseRouter, ParseService, CollectNames, IsEnabled, BoolLabel, ResolvedServices;
    hide CompleteRouters, ROUTERS, OneOfEach;
    var labels := ins.labels;
    var r := RouterSpec(n, Trim(rule), [], None, [], "", None);
    var s := ParseService(labels, svc);
    Names(n, rule, svc, port);
    Enabled(n, rule, svc, port);
    RouterParses(n, rule, svc, port);
    TrimAgain(rule);
    assert ParseServices(labels) == map[svc := s] && svc in ParseServices(labels);
    assert ParseMiddlewares(labels) == map[];
    assert ParseRouters(labels) == map[n := r] && n in ParseRouters(labels);
    Resolves(svc, s, resolve);
    Completes(r, svc, WithBackend(svc, s, resolve(s.port).value));
  }

  /** Whatever the dot-free name, as long as it has white space around it: parsing the stub's labels does
      not give the container's routers back. */
  lemma PaddedServiceIsLost(ins: Inspect, resolve: Resolver, cfg: Config, s: Snapshot, imageId: string,
                            n: string, rule: string, svc: string, port: string)
    requires DotFree(n) && DotFree(svc) && !Trimmed(svc)
    requires Trim(rule) != "" && DisplayName(ins).Some? && forall p :: resolve(p).Some?
    requires ins.labels == OneOfEach(n, rule, svc, port)
    ensures BuildContainer(ins, resolve).Exported? && svc in BuildContainer(ins, resolve).spec.services
    ensures var c := BuildContainer(ins, resolve).spec;
            ParseRouters(StubFor(cfg, s, c, svc, imageId).labels) != PlainRouters(c, svc)
  {
    hide BuildContainer, StubFor, ParseRouters, DisplayName, OneOfEach, Trim;
    Exports(ins, resolve, n, rule, svc, port);
    var c := BuildContainer(ins, resolve).spec;
    assert n in PlainRouters(c, svc);
    PlainHttpSurvives(ins, resolve, cfg, s, imageId, svc);
  }

  /** For one, the name " s". */
  lemma PaddedNameExists()
    ensures DotFree(" s") && !Trimmed(" s")
  {
  }
}
