/** The whole way: from the labels of a container to the address that a request to its stub is sent to. */
module Journeys {
  import opened Strings
  import opened Model
  import opened LabelParser
  import opened Backends
  import opened Export
  import opened Stubs
  import opened Desired
  import opened Resolve
  import opened Vocabulary
  import opened Handover
  import opened Agents

  lemma {:induction false} ExportedIsCollected(cfg: Settings, listing: seq<Inspection>, i: nat)
    requires Collected(cfg, listing).Some? && i < |listing| && Outcomes(cfg, listing[i]).Exported?
    ensures Outcomes(cfg, listing[i]).spec in Collected(cfg, listing).value
  {
    hide Outcomes;
    var n := |listing| - 1;
    if i < n {
      ExportedIsCollected(cfg, listing[..n], i);
    }
  }

  /** The container the stub was built from is the one with its id. */
  lemma OneContainer(containers: seq<ContainerSpec>, c: ContainerSpec, e: ContainerSpec)
    requires DistinctIds(containers) && c in containers && e in containers && c.id == e.id
    ensures c == e
  {
  }

  /** A container that the agent exports, with a service some router uses: in the snapshot of the trip it gets a stub
      for that service; the stub calls the worker's advertised address and port; there it is served from this
      very container and service, exactly if the name of the service has no blanks around it; and the service's
      URL leads where the container's labels and networks say. */
  lemma RequestReachesContainer(settings: Settings, hash: Snapshot -> string, t: Trip, cfg: Config, imageId: string,
                                i: nat, service: string)
    returns (spec: StubSpec)
    requires Sends(settings, t) && ProperListing(t.listing.value) && cfg.token != "" && Bare(cfg.token)
    requires settings.workerId != "" && settings.advertiseAddr != "" && settings.proxyPort > 0
    requires i < |t.listing.value| && t.listing.value[i].Inspected? && Outcomes(settings, t.listing.value[i]).Exported?
    requires var e := Outcomes(settings, t.listing.value[i]).spec;
             Bare(e.id) && service in e.services && exists n :: n in e.routers && e.routers[n].service == service
    ensures var s, e := Snap(settings, hash, t), Outcomes(settings, t.listing.value[i]).spec;
            && spec in StubsOf(cfg, Validated(s), Validated(s).containers, imageId) && LoadStub(spec.env).Some?
            && s.advertiseAddr == settings.advertiseAddr && s.proxyPort == settings.proxyPort
            && Targets(LoadStub(spec.env).value.target, s)
            && (ServesFrom(cfg.token, s, LoadStub(spec.env).value, e, service) <==> Bare(service))
    ensures var ins, svc := t.listing.value[i].ins, Outcomes(settings, t.listing.value[i]).spec.services[service];
            Leads(settings.urls, ins.labels, ins.net, settings.advertiseAddr, PortAsked(ins.labels, service),
                  Backend(svc.backendUrl, svc.backendSource, svc.port))
  {
    hide Collected, BuildContainer, StubsOf, StubFor, Clean, LoadStub, HandleTunnel, TunnelHeaders, Targets, Leads;
    hide Received, WellFormed;
    hide RoutersOf, BackendFor, RouterSays, GoesTo, ShownAs, CollectNames, ServicesOf, PortAsked, FieldValue, Usable;
    var listing, s := t.listing.value, Snap(settings, hash, t);
    var ins, e := listing[i].ins, Outcomes(settings, listing[i]).spec;
    SnapSays(settings, hash, t);
    ComposedIsValid(settings, hash, t.now, listing);
    ExportedIsCollected(settings, listing, i);
    CollectedAre(settings, listing);
    ExportedSays(ins, settings.urls, settings.advertiseAddr);
    BackendMeans(settings.urls, ins.labels, ins.net, settings.advertiseAddr, PortAsked(ins.labels, service));
    UsedIsRouted(settings, ins, e, service);
    ExportedIsClosed(ins, ResolverOf(settings.urls, ins, settings.advertiseAddr));
    spec := StubFor(cfg, s, e, service, imageId);
    assert IsStubOf(cfg, s, e, service, imageId, spec);
    StubsAre(cfg, s, s.containers, imageId, spec);
    StubHasService(cfg, s, e, service, imageId, spec);
    var c := StubFindsItsService(cfg, s, imageId, spec, cfg.token);
    StubHasService(cfg, s, c, spec.serviceName, imageId, spec);
    OneContainer(s.containers, c, e);
  }

  lemma UsedIsRouted(settings: Settings, ins: Inspect, e: ContainerSpec, service: string)
    requires BuildContainer(ins, ResolverOf(settings.urls, ins, settings.advertiseAddr)) == Exported(e)
    requires service in e.services && exists n :: n in e.routers && e.routers[n].service == service
    ensures RoutersOf(e, service) != []
  {
    hide BuildContainer, Filter, WellFormed;
    ExportedIsClosed(ins, ResolverOf(settings.urls, ins, settings.advertiseAddr));
    DotFreeService(e, service);
    var n :| n in e.routers && e.routers[n].service == service;
    assert n in RoutersOf(e, service);
  }
}
