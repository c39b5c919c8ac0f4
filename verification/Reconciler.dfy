/** reconcileWorker: bringing the Docker containers of one worker to the desired set. */
module Reconciler {
  import opened Strings
  import opened Model
  import opened LabelParser
  import opened LabelPrinter
  import opened Stubs
  import opened Desired
  import opened Hosts

  // ---------------------------------------------------------------- desired stubs by name

  /** desiredByName: the last spec of a name wins. */
  function ByName(specs: seq<StubSpec>): (m: map<string, StubSpec>)
    ensures forall n :: n in m ==> m[n] in specs && m[n].name == n
    ensures forall spec :: spec in specs ==> spec.name in m
  {
    if specs == [] then map[]
    else
      var last := specs[|specs| - 1];
      ByName(specs[..|specs| - 1])[last.name := last]
  }

  /** A snapshot without address or port has no stubs; reconcileWorker reports it instead. */
  function DesiredByName(cfg: Config, s: Snapshot, imageId: string): map<string, StubSpec>
  {
    ByName(StubsOf(cfg, s, s.containers, imageId))
  }

  /** With no name used twice, the map does not depend on the order of the specs. */
  lemma ByNameOfSorted(specs: seq<StubSpec>, sorted: seq<StubSpec>)
    requires NamesDiffer(specs) && forall x :: x in sorted <==> x in specs
    ensures ByName(sorted) == ByName(specs)
  {
    hide ByName;
    var a, b := ByName(specs), ByName(sorted);
    forall n | n in a ensures n in b && a[n] == b[n] {
      assert a[n] in sorted;
      var i :| 0 <= i < |specs| && specs[i] == a[n];
      var j :| 0 <= j < |specs| && specs[j] == b[n];
      assert i == j;
    }
    forall n | n in b ensures n in a {
      assert b[n] in specs;
    }
  }

  /** The spec carries the labels by which reconcileWorker will recognise its container. */
  predicate Tagged(spec: StubSpec, w: string)
  {
    && Get(spec.labels, MANAGED) == Some("true")
    && Get(spec.labels, WORKER_ID) == Some(w)
    && Get(spec.labels, DESIRED_HASH) == Some(spec.desiredHash)
  }

  lemma StubIsTagged(cfg: Config, s: Snapshot, c: ContainerSpec, service: string, imageId: string)
    requires service in c.services
    ensures Tagged(StubFor(cfg, s, c, service, imageId), s.workerId)
  {
    hide PieceLabels, RoutersOf, BaseLabels;
    var names := RoutersOf(c, service);
    var base := BaseLabels(s.workerId, c, service, c.services[service], cfg.network, "");
    var labels := StubLabels(s.workerId, c, service, cfg.network, names, "");
    assert MANAGED[7] == '-' && MANAGED[8] == 'c' && WORKER_ID[7] == '-' && WORKER_ID[8] == 'c';
    forall p, k | p in Pieces(c, names) && (k == MANAGED || k == WORKER_ID) ensures k !in PieceLabels(c, service, p) {
      if k in PieceLabels(c, service, p) {
        PieceKeys(c, service, p, k);
      }
    }
    MergeMiss(base, c, service, Pieces(c, names), MANAGED);
    MergeMiss(base, c, service, Pieces(c, names), WORKER_ID);
    BaseTags(s.workerId, c, service, c.services[service], cfg.network);
    assert MANAGED[16] == 'm' && DESIRED_HASH[16] == 'd' && WORKER_ID[16] == 'w';
  }

  lemma BaseTags(worker: string, c: ContainerSpec, service: string, svc: ServiceSpec, network: string)
    ensures var l := BaseLabels(worker, c, service, svc, network, "");
            Get(l, MANAGED) == Some("true") && Get(l, WORKER_ID) == Some(worker)
  {
    ManagedTags(worker, c, service);
    TagKeysElsewhere(service, svc, network);
    hide Prefixed, ServiceSuffixes, ManagedLabels, NetworkLabels, TcpPort, SERVICES, MANAGED, WORKER_ID;
  }

  lemma ManagedTags(worker: string, c: ContainerSpec, service: string)
    ensures var l := ManagedLabels(worker, c, service, "");
            Get(l, MANAGED) == Some("true") && Get(l, WORKER_ID) == Some(worker)
  {
    assert MANAGED[16] == 'm' && WORKER_ID[16] == 'w';
  }

  lemma TagKeysElsewhere(service: string, svc: ServiceSpec, network: string)
    ensures forall k :: k in {MANAGED, WORKER_ID} ==> k !in NetworkLabels(network) && k !in TcpPort(service)
    ensures forall k :: k in {MANAGED, WORKER_ID} ==> k !in Prefixed(SERVICES + service + ".", ServiceSuffixes(svc))
  {
    hide Prefixed, ServiceSuffixes, SERVICES, TCP_SERVICES;
    FamilyPrefixes(service);
    var q := TCP_SERVICES + service + ".";
    assert TCP_SERVICES + service + ".loadbalancer.server.port" == q + "loadbalancer.server.port";
    assert MANAGED[7] == '-' && MANAGED[8] == 'c' && WORKER_ID[7] == '-' && WORKER_ID[8] == 'c';
    assert "traefik.docker.network"[7] == '.';
  }

  ghost predicate AllTagged(desired: map<string, StubSpec>, w: string, imageId: string)
  {
    forall n :: n in desired ==> Tagged(desired[n], w) && desired[n].name == n && desired[n].imageId == imageId
  }

  lemma DesiredAreTagged(cfg: Config, s: Snapshot, imageId: string)
    ensures AllTagged(DesiredByName(cfg, s, imageId), s.workerId, imageId)
  {
    hide StubsOf, StubFor, RoutersOf, Tagged;
    var desired := DesiredByName(cfg, s, imageId);
    forall n | n in desired ensures Tagged(desired[n], s.workerId) && desired[n].imageId == imageId {
      StubsAre(cfg, s, s.containers, imageId, desired[n]);
      var c, service :| c in s.containers && IsStubOf(cfg, s, c, service, imageId, desired[n]);
      StubIsTagged(cfg, s, c, service, imageId);
      StubHasService(cfg, s, c, service, imageId, desired[n]);
    }
  }

  // ---------------------------------------------------------------- what a reconcile run does to Docker

  function Nets(cfg: Config): set<string>
  {
    if cfg.network != "" then {cfg.network} else {}
  }

  /** The test under which an existing container is left alone. */
  predicate Matches(c: Container, spec: StubSpec)
  {
    Label(c, DESIRED_HASH) == spec.desiredHash && c.imageId == spec.imageId && c.running
  }

  /** The container was created from the spec, and joined its network before it was started. */
  predicate MadeFor(cfg: Config, c: Container, spec: StubSpec)
  {
    c.labels == spec.labels && c.env == spec.env && c.image == spec.image && (c.running ==> c.networks == Nets(cfg))
  }

  predicate FreshFor(cfg: Config, c: Container, spec: StubSpec, imageId: string)
  {
    MadeFor(cfg, c, spec) && c.imageId == imageId && c.running
  }

  /** Nothing that is not the worker's own was touched. */
  ghost predicate FrameOf(w: string, d: Docker, d': Docker)
  {
    && (forall n :: n in d && !Mine(d[n], w) ==> n in d' && d'[n] == d[n])
    && (forall n :: n in d' && !Mine(d'[n], w) ==> n in d && d'[n] == d[n])
  }

  /** No container of somebody else occupies a desired name. */
  ghost predicate NamesFree(d: Docker, w: string, desired: map<string, StubSpec>)
  {
    forall n :: n in d && n in desired ==> Mine(d[n], w)
  }

  /** The worker's containers are exactly the desired ones: those that matched are untouched, all
      others are new. */
  ghost predicate Settles(cfg: Config, w: string, desired: map<string, StubSpec>, imageId: string, d: Docker,
                          d': Docker)
  {
    && FrameOf(w, d, d')
    && MineOf(d', w).Keys == desired.Keys
    && (forall n :: n in desired ==> n in d' && SettledAs(cfg, d, d'[n], desired[n], imageId))
  }

  ghost predicate SettledAs(cfg: Config, d: Docker, c: Container, spec: StubSpec, imageId: string)
  {
    if spec.name in d && Matches(d[spec.name], spec) then c == d[spec.name] else FreshFor(cfg, c, spec, imageId)
  }

  /** Whatever calls failed: every container of the worker is an old one or made for a desired spec. */
  ghost predicate OldOrMade(cfg: Config, w: string, desired: map<string, StubSpec>, d: Docker, d': Docker)
  {
    forall n :: n in d' && Mine(d'[n], w) ==>
      (n in d && d'[n] == d[n]) || (n in desired && MadeFor(cfg, d'[n], desired[n]))
  }

  /** Hypotheses of orphan-freedom: looking and removing work; a failed create leaves nothing behind. */
  predicate Calm(trust: Call -> Trust)
  {
    && trust(InspectImage).Sure? && trust(ListContainers).Sure? && trust(InspectContainer).Sure?
    && trust(RemoveContainer).Sure? && !trust(CreateContainer).MayTear? && !trust(CreateContainer).Tearing?
  }

  /** Creating works, but its reply is lost. */
  predicate Deaf(trust: Call -> Trust)
  {
    && trust(InspectImage).Sure? && trust(ListContainers).Sure? && trust(InspectContainer).Sure?
    && trust(CreateContainer).Tearing?
  }

  predicate Flawless(trust: Call -> Trust)
  {
    Calm(trust) && trust(CreateContainer).Sure? && trust(ConnectNetwork).Sure? && trust(StartContainer).Sure?
  }

  /** Looking up the stub image and listing containers work. */
  predicate Looking(trust: Call -> Trust)
  {
    trust(InspectImage).Sure? && trust(ListContainers).Sure?
  }

  /** Each of these names is a desired stub of the worker that runs, with the desired hash and image. */
  ghost predicate Stands(w: string, desired: map<string, StubSpec>, d: Docker, names: set<string>)
  {
    forall n :: n in names ==> n in desired && n in d && Mine(d[n], w) && Matches(d[n], desired[n])
  }

  ghost predicate OnlyAt(d: Docker, d': Docker, name: string)
  {
    forall n :: n != name ==> Same(d, d', n)
  }

  lemma OnlyAtTwice(d: Docker, d': Docker, d'': Docker, name: string)
    requires OnlyAt(d, d', name) && OnlyAt(d', d'', name)
    ensures OnlyAt(d, d'', name)
  {
    forall n | n != name ensures Same(d, d'', n) {
      assert Same(d, d', n) && Same(d', d'', n);
    }
  }

  /** `c` is `made` at some point between its creation and its start. */
  predicate Launching(cfg: Config, made: Container, c: Container)
  {
    c == made.(networks := c.networks, running := c.running) && (c.running ==> c.networks == Nets(cfg))
  }

  /** The second half of createStubContainer: connect, start, and clean up if a step fails. */
  method Launch(host: Host, cfg: Config, ghost name: string, id: nat) returns (ok: bool)
    requires host.Valid() && name in host.docker && host.docker[name].id == id
    requires !host.docker[name].running && host.docker[name].networks == {}
    modifies host`alive, host`docker, host`changes
    ensures host.Valid() && (host.alive ==> old(host.alive)) && host.changes >= old(host.changes)
    ensures OnlyAt(old(host.docker), host.docker, name)
    ensures name in host.docker ==> Launching(cfg, old(host.docker)[name], host.docker[name])
    ensures ok ==> name in host.docker && host.docker[name].running
    ensures !ok && host.alive && host.trust(RemoveContainer).Sure? ==> name !in host.docker
    ensures host.alive && host.trust(ConnectNetwork).Sure? && host.trust(StartContainer).Sure? ==> ok
    ensures !old(host.alive) ==> host.docker == old(host.docker)
  {
    hide Without, Connected, Started, UniqueIds, Ids;
    ById(host.docker, host.nextId, name, cfg.network);
    if cfg.network != "" {
      ok := host.Connect(cfg.network, id);
      ById(host.docker, host.nextId, name, cfg.network);
      if !ok {
        var _ := host.Remove(id);
        return false;
      }
    }
    ok := host.Start(id);
    ById(host.docker, host.nextId, name, cfg.network);
    if !ok {
      var _ := host.Remove(id);
    }
  }

  /** createStubContainer */
  method CreateStub(host: Host, cfg: Config, spec: StubSpec) returns (id: Option<nat>)
    requires host.Valid()
    modifies host`alive, host`docker, host`nextId, host`changes
    ensures host.Valid() && (host.alive ==> old(host.alive)) && host.changes >= old(host.changes)
    ensures OnlyAt(old(host.docker), host.docker, spec.name)
    ensures spec.name in old(host.docker) ==> host.docker == old(host.docker) && id.None?
    ensures spec.name !in old(host.docker) && spec.name in host.docker ==> MadeFor(cfg, host.docker[spec.name], spec)
    ensures id.Some? ==> spec.name in host.docker && FreshFor(cfg, host.docker[spec.name], spec, host.imageId)
    ensures id.None? && host.alive && Calm(host.trust) ==> Same(old(host.docker), host.docker, spec.name)
    ensures host.alive && Flawless(host.trust) && spec.name !in old(host.docker) ==> id.Some?
    ensures host.alive && host.trust(CreateContainer).Tearing? ==> id.None? && spec.name in host.docker
    ensures !old(host.alive) ==> host.docker == old(host.docker)
  {
    id := host.Create(spec);
    if id.None? {
      return None;
    }
    assert OnlyAt(old(host.docker), host.docker, spec.name);
    ghost var created := host.docker;
    var ok := Launch(host, cfg, spec.name, id.value);
    OnlyAtTwice(old(host.docker), created, host.docker, spec.name);
    if !ok {
      id := None;
    }
  }

  /** One round of the loop over the desired stubs. */
  method EnsureStub(host: Host, cfg: Config, w: string, spec: StubSpec, current: Option<Container>) returns (kept: bool)
    requires host.Valid() && Tagged(spec, w)
    requires current.Some? ==>
      spec.name in host.docker && host.docker[spec.name] == current.value && Mine(current.value, w)
    modifies host`alive, host`docker, host`nextId, host`changes
    ensures host.Valid() && (host.alive ==> old(host.alive)) && host.changes >= old(host.changes)
    ensures OnlyAt(old(host.docker), host.docker, spec.name)
    ensures spec.name in old(host.docker) && !Mine(old(host.docker)[spec.name], w) ==>
      Same(old(host.docker), host.docker, spec.name) && !kept
    ensures spec.name in host.docker ==>
      Same(old(host.docker), host.docker, spec.name) || MadeFor(cfg, host.docker[spec.name], spec)
    ensures kept ==>
      spec.name in host.docker && SettledAs(cfg, old(host.docker), host.docker[spec.name], spec, host.imageId)
    ensures current.Some? && Matches(current.value, spec) ==>
      kept && host.docker == old(host.docker) && host.changes == old(host.changes)
    ensures host.alive && Calm(host.trust) && !kept && (current.Some? || spec.name !in old(host.docker)) ==>
      spec.name !in host.docker
    ensures host.alive && Flawless(host.trust) && (current.Some? || spec.name !in old(host.docker)) ==> kept
    ensures host.alive && host.trust(CreateContainer).Tearing? && current.None? ==> !kept && spec.name in host.docker
    ensures !old(host.alive) ==> host.docker == old(host.docker)
  {
    hide Mine, MadeFor, FreshFor;
    if current.Some? {
      if Matches(current.value, spec) {
        return true;
      }
      ById(host.docker, host.nextId, spec.name, "");
      var _ := host.Remove(current.value.id);
    }
    assert OnlyAt(old(host.docker), host.docker, spec.name);
    ghost var before := host.docker;
    var id := CreateStub(host, cfg, spec);
    OnlyAtTwice(old(host.docker), before, host.docker, spec.name);
    kept := id.Some?;
  }

  /** The managed set and Docker after some rounds over the desired stubs, `done` being those passed. */
  ghost predicate Ensured(cfg: Config, w: string, desired: map<string, StubSpec>, imageId: string,
                          d: Docker, d': Docker, done: set<string>, managed: set<string>)
  {
    && (forall n :: n !in done ==> Same(d, d', n))
    && managed <= done <= desired.Keys
    && (forall n :: n in managed ==> n in d' && SettledAs(cfg, d, d'[n], desired[n], imageId))
    && (forall n :: n in d && !Mine(d[n], w) ==> n in d' && d'[n] == d[n] && n !in managed)
    && (forall n :: n in d' && n in done ==> Same(d, d', n) || MadeFor(cfg, d'[n], desired[n]))
  }

  /** Every desired name that was passed over is absent, or somebody else's. */
  ghost predicate NoneLeft(w: string, d: Docker, d': Docker, done: set<string>, managed: set<string>)
  {
    forall n :: n in done && n !in managed ==> n !in d' || (n in d && !Mine(d[n], w))
  }

  ghost predicate AllMatch(d: Docker, desired: map<string, StubSpec>, names: set<string>)
  {
    forall n :: n in names ==> n in d && n in desired && Matches(d[n], desired[n])
  }

  /** The worker's containers are exactly the desired ones and all pass the test. */
  ghost predicate AtRest(d: Docker, w: string, desired: map<string, StubSpec>)
  {
    AllMatch(MineOf(d, w), desired, desired.Keys) && MineOf(d, w).Keys <= desired.Keys
  }

  lemma EnsuredApart(cfg: Config, w: string, desired: map<string, StubSpec>, imageId: string,
                     d: Docker, d': Docker, done: set<string>, managed: set<string>, name: string)
    requires Ensured(cfg, w, desired, imageId, d, d', done, managed) && name !in done
    ensures Same(d, d', name)
  {
  }

  /** One more round keeps all of it. */
  lemma EnsuredStep(cfg: Config, w: string, desired: map<string, StubSpec>, imageId: string,
                    d: Docker, before: Docker, after: Docker, done: set<string>, managed: set<string>, name: string,
                    kept: bool)
    requires Ensured(cfg, w, desired, imageId, d, before, done, managed) && name in desired && name !in done
    requires desired[name].name == name
    requires OnlyAt(before, after, name)
    requires name in before && !Mine(before[name], w) ==> Same(before, after, name) && !kept
    requires name in after ==> Same(before, after, name) || MadeFor(cfg, after[name], desired[name])
    requires kept ==> name in after && SettledAs(cfg, before, after[name], desired[name], imageId)
    ensures Ensured(cfg, w, desired, imageId, d, after, done + {name}, if kept then managed + {name} else managed)
  {
    hide Mine, MadeFor, FreshFor, Matches;
    assert Same(d, before, name);
    var done', managed' := done + {name}, if kept then managed + {name} else managed;
    forall n | n !in done' ensures Same(d, after, n) {
      assert Same(d, before, n) && Same(before, after, n);
    }
    forall n | n in managed' ensures n in after && SettledAs(cfg, d, after[n], desired[n], imageId) {
      if n != name {
        assert Same(before, after, n);
      }
    }
    forall n | n in d && !Mine(d[n], w) ensures n in after && after[n] == d[n] && n !in managed' {
      if n != name {
        assert Same(before, after, n);
      }
    }
    forall n | n in after && n in done' ensures Same(d, after, n) || MadeFor(cfg, after[n], desired[n]) {
      if n != name {
        assert Same(before, after, n);
      }
    }
  }

  /** What one of the loop's runs has going for it: calls that look and remove are reliable and all
      containers were seen; nothing can fail; all is as desired already; replies of creates are lost. */
  datatype Luck = Luck(calm: bool, flawless: bool, matching: bool, torn: bool)

  ghost function LuckOf(trust: Call -> Trust, w: string, desired: map<string, StubSpec>, existing: Docker,
                        d: Docker): Luck
  {
    Luck(Calm(trust) && existing == MineOf(d, w),
         Flawless(trust) && existing == MineOf(d, w) && NamesFree(d, w, desired),
         AllMatch(existing, desired, desired.Keys),
         trust(CreateContainer).Tearing? && existing == map[])
  }

  ghost predicate Passed(cfg: Config, w: string, desired: map<string, StubSpec>, imageId: string,
                         d: Docker, d': Docker, done: set<string>, managed: set<string>, alive: bool, luck: Luck)
  {
    && Ensured(cfg, w, desired, imageId, d, d', done, managed)
    && (alive && luck.calm ==> NoneLeft(w, d, d', done, managed))
    && (alive && luck.flawless ==> managed == done)
    && (luck.matching ==> managed == done && d' == d)
    && (alive && luck.torn ==> managed == {} && done <= d'.Keys)
  }

  /** The loop over desiredByName, in any order. */
  method EnsureAll(host: Host, cfg: Config, w: string, desired: map<string, StubSpec>, existing: Docker)
    returns (managed: set<string>)
    requires host.Valid() && AllTagged(desired, w, host.imageId)
    requires forall n :: n in existing ==> n in host.docker && host.docker[n] == existing[n] && Mine(existing[n], w)
    modifies host`alive, host`docker, host`nextId, host`changes
    ensures host.Valid() && (host.alive ==> old(host.alive)) && host.changes >= old(host.changes)
    ensures Passed(cfg, w, desired, host.imageId, old(host.docker), host.docker, desired.Keys, managed, host.alive,
                   LuckOf(host.trust, w, desired, existing, old(host.docker)))
    ensures AllMatch(existing, desired, desired.Keys) ==> host.changes == old(host.changes)
    ensures !old(host.alive) ==> host.docker == old(host.docker)
  {
    hide Mine, MadeFor, FreshFor, Matches, Tagged, UniqueIds, LuckOf;
    ghost var d := host.docker;
    ghost var luck := LuckOf(host.trust, w, desired, existing, d);
    var todo := desired.Keys;
    ghost var done: set<string> := {};
    managed := {};
    assert Passed(cfg, w, desired, host.imageId, d, d, {}, {}, true, luck)
      && Passed(cfg, w, desired, host.imageId, d, d, {}, {}, false, luck);
    hide Passed, AllMatch, AllTagged;
    while todo != {}
      invariant host.Valid() && (host.alive ==> old(host.alive)) && host.changes >= old(host.changes)
      invariant done + todo == desired.Keys && done !! todo
      invariant Passed(cfg, w, desired, host.imageId, d, host.docker, done, managed, host.alive, luck)
      invariant AllMatch(existing, desired, desired.Keys) ==> host.changes == old(host.changes)
      invariant !old(host.alive) ==> host.docker == d
      decreases todo
    {
      var name :| name in todo;
      managed := EnsureNext(host, cfg, w, desired, existing, name, d, done, managed);
      todo, done := todo - {name}, done + {name};
    }
    assert done == desired.Keys;
  }

  /** One round, in the terms of the loop: `d` is Docker before the loop, `done` are the names passed. */
  method EnsureNext(host: Host, cfg: Config, w: string, desired: map<string, StubSpec>, existing: Docker, name: string,
                    ghost d: Docker, ghost done: set<string>, managed: set<string>) returns (managed': set<string>)
    requires host.Valid() && AllTagged(desired, w, host.imageId)
    requires forall n :: n in existing ==> n in d && d[n] == existing[n] && Mine(existing[n], w)
    requires name in desired && name !in done
    requires Passed(cfg, w, desired, host.imageId, d, host.docker, done, managed, host.alive,
                    LuckOf(host.trust, w, desired, existing, d))
    modifies host`alive, host`docker, host`nextId, host`changes
    ensures host.Valid() && (host.alive ==> old(host.alive)) && host.changes >= old(host.changes)
    ensures Passed(cfg, w, desired, host.imageId, d, host.docker, done + {name}, managed', host.alive,
                   LuckOf(host.trust, w, desired, existing, d))
    ensures AllMatch(existing, desired, desired.Keys) ==> host.changes == old(host.changes)
    ensures !old(host.alive) ==> host.docker == old(host.docker)
  {
    hide Mine, MadeFor, FreshFor, Matches, Tagged, Calm, Flawless, SettledAs, UniqueIds, NoneLeft;
    ghost var before := host.docker;
    var current := if name in existing then Some(existing[name]) else None;
    EnsuredApart(cfg, w, desired, host.imageId, d, before, done, managed, name);
    hide Ensured;
    var kept := EnsureStub(host, cfg, w, desired[name], current);
    EnsuredStep(cfg, w, desired, host.imageId, d, before, host.docker, done, managed, name, kept);
    managed' := if kept then managed + {name} else managed;
    if host.alive && Calm(host.trust) && existing == MineOf(d, w) {
      assert current.Some? || name !in before || !Mine(d[name], w);
      NoneLeftStep(w, d, before, host.docker, done, managed, name, kept);
    }
    forall n | n in before && n != name ensures n in host.docker {
      assert Same(before, host.docker, n);
    }
  }

  lemma NoneLeftStep(w: string, d: Docker, before: Docker, after: Docker, done: set<string>, managed: set<string>,
                     name: string, kept: bool)
    requires NoneLeft(w, d, before, done, managed) && OnlyAt(before, after, name) && name !in done
    requires !kept ==> name !in after || (name in d && !Mine(d[name], w))
    ensures NoneLeft(w, d, after, done + {name}, if kept then managed + {name} else managed)
  {
    forall n | n in done + {name} && n !in (if kept then managed + {name} else managed)
      ensures n !in after || (n in d && !Mine(d[n], w))
    {
      if n != name {
        assert Same(before, after, n);
      }
    }
  }

  /** The loop over the worker's containers that are not desired any more. */
  method RemoveExtras(host: Host, desired: set<string>, existing: Docker)
    requires host.Valid()
    requires forall n :: n in existing && n !in desired ==> n in host.docker && host.docker[n] == existing[n]
    modifies host`alive, host`docker, host`changes
    ensures host.Valid() && (host.alive ==> old(host.alive)) && host.changes >= old(host.changes)
    ensures Trimming(old(host.docker), host.docker, desired, existing)
    ensures host.alive && host.trust(RemoveContainer).Sure? ==> forall n :: n in existing && n !in desired ==>
      n !in host.docker
    ensures existing.Keys <= desired ==> host.docker == old(host.docker) && host.changes == old(host.changes)
    ensures !old(host.alive) ==> host.docker == old(host.docker)
  {
    hide Without, Connected, Started, UniqueIds, Ids;
    ghost var d := host.docker;
    var todo := existing.Keys - desired;
    while todo != {}
      invariant host.Valid() && (host.alive ==> old(host.alive)) && host.changes >= old(host.changes)
      invariant todo <= existing.Keys - desired
      invariant forall n :: n in desired || n !in existing || n in todo ==> Same(d, host.docker, n)
      invariant forall n :: n in host.docker ==> n in d && host.docker[n] == d[n]
      invariant host.alive && host.trust(RemoveContainer).Sure? ==>
        forall n :: n in existing && n !in desired && n !in todo ==> n !in host.docker
      invariant existing.Keys <= desired ==> host.docker == d && host.changes == old(host.changes)
      invariant !old(host.alive) ==> host.docker == d
      decreases todo
    {
      var n :| n in todo;
      todo := todo - {n};
      assert Same(d, host.docker, n);
      ById(host.docker, host.nextId, n, "");
      var _ := host.Remove(existing[n].id);
    }
  }

  /** reconcileWorker for a reachable snapshot. It returns the managed names, and whether it failed. */
  method Reconcile(host: Host, cfg: Config, s: Snapshot) returns (managed: set<string>, failed: bool)
    requires host.Valid() && Reachable(s)
    modifies host`alive, host`docker, host`nextId, host`changes
    ensures host.Valid() && (host.alive ==> old(host.alive))
    ensures FrameOf(s.workerId, old(host.docker), host.docker)
    ensures OldOrMade(cfg, s.workerId, DesiredByName(cfg, s, host.imageId), old(host.docker), host.docker)
    ensures host.alive && Calm(host.trust) ==> MineOf(host.docker, s.workerId).Keys <= managed
    ensures var desired := DesiredByName(cfg, s, host.imageId);
            host.alive && Flawless(host.trust) && NamesFree(old(host.docker), s.workerId, desired) ==>
              && !failed && managed == desired.Keys
              && Settles(cfg, s.workerId, desired, host.imageId, old(host.docker), host.docker)
    ensures var desired := DesiredByName(cfg, s, host.imageId);
            host.alive && Calm(host.trust) && AtRest(old(host.docker), s.workerId, desired) ==>
              managed == desired.Keys && host.docker == old(host.docker) && host.changes == old(host.changes)
    ensures host.trust(InspectImage).Broken? || host.trust(ListContainers).Broken? ==>
      managed == {} && failed && host.docker == old(host.docker)
    ensures Stands(s.workerId, DesiredByName(cfg, s, host.imageId), host.docker, managed)
    ensures failed ==> managed == {}
    ensures !failed ==> managed != {} || DesiredByName(cfg, s, host.imageId) == map[]
    ensures host.alive && Looking(host.trust) ==>
      (failed <==> managed == {} && DesiredByName(cfg, s, host.imageId) != map[])
    ensures host.alive && Deaf(host.trust) && MineOf(old(host.docker), s.workerId) == map[] ==>
      managed == {} && DesiredByName(cfg, s, host.imageId).Keys <= host.docker.Keys
    ensures !old(host.alive) ==> host.docker == old(host.docker)
  {
    hide DesiredByName, Mine, AllTagged, Ensured, NoneLeft, AllMatch, FrameOf, OldOrMade, Settles, NamesFree;
    hide Calm, Flawless, Stands;
    hide UniqueIds;
    NoneStand(s.workerId, DesiredByName(cfg, s, host.imageId), host.docker);
    CalmRemoves(host.trust);
    FrameOfNothing(s.workerId, host.docker);
    var w := s.workerId;
    ghost var d := host.docker;
    managed, failed := {}, true;
    var imageId := host.InspectImage();
    if imageId.None? {
      return;
    }
    var desired := DesiredByName(cfg, s, imageId.value);
    DesiredAreTagged(cfg, s, imageId.value);
    var existing := host.ListManaged(w);
    if existing.None? {
      return;
    }
    managed := EnsureAll(host, cfg, w, desired, existing.value);
    ghost var d' := host.docker;
    ExtrasUntouched(cfg, w, desired, host.imageId, d, d', existing.value, managed);
    RemoveExtras(host, desired.Keys, existing.value);
    failed := managed == {} && desired != map[];
    AfterRun(cfg, w, desired, host.imageId, d, d', host.docker, existing.value, managed);
    ManagedStand(cfg, w, desired, host.imageId, d, d', host.docker, existing.value, managed);
    if host.alive && Calm(host.trust) {
      AfterCalmRun(cfg, w, desired, host.imageId, d, d', host.docker, managed);
      if Flawless(host.trust) && NamesFree(d, w, desired) {
        AfterFlawlessRun(cfg, w, desired, host.imageId, d, d', host.docker);
      }
    }
  }

  lemma CalmRemoves(trust: Call -> Trust)
    ensures Flawless(trust) ==> Calm(trust)
    ensures Calm(trust) ==> trust(InspectImage).Sure? && trust(ListContainers).Sure?
    ensures Calm(trust) ==> trust(InspectContainer).Sure? && trust(RemoveContainer).Sure?
  {
  }

  lemma FrameOfNothing(w: string, d: Docker)
    ensures FrameOf(w, d, d)
    ensures forall cfg, desired :: OldOrMade(cfg, w, desired, d, d)
  {
  }

  lemma ExtrasUntouched(cfg: Config, w: string, desired: map<string, StubSpec>, imageId: string,
                        d: Docker, d': Docker, existing: Docker, managed: set<string>)
    requires Ensured(cfg, w, desired, imageId, d, d', desired.Keys, managed)
    requires forall n :: n in existing ==> n in d && d[n] == existing[n]
    ensures forall n :: n in existing && n !in desired ==> n in d' && d'[n] == existing[n]
  {
    forall n | n in existing && n !in desired ensures n in d' && d'[n] == existing[n] {
      assert Same(d, d', n);
    }
  }

  /** The second loop: other names are as they were, and nothing new appears. */
  ghost predicate Trimming(d: Docker, d': Docker, desired: set<string>, existing: Docker)
  {
    && (forall n :: n in desired || n !in existing ==> Same(d, d', n))
    && (forall n :: n in d' ==> n in d && d'[n] == d[n])
  }

  /** The two loops put together, whatever failed. */
  lemma AfterRun(cfg: Config, w: string, desired: map<string, StubSpec>, imageId: string,
                 d: Docker, d': Docker, d'': Docker, existing: Docker, managed: set<string>)
    requires AllTagged(desired, w, imageId) && Ensured(cfg, w, desired, imageId, d, d', desired.Keys, managed)
    requires existing.Keys <= MineOf(d, w).Keys && Trimming(d', d'', desired.Keys, existing)
    ensures FrameOf(w, d, d'') && OldOrMade(cfg, w, desired, d, d'')
  {
    forall n ensures n in desired || n !in existing ==> Same(d', d'', n)
             ensures n !in desired ==> Same(d, d', n)
    {
    }
    NothingElse(cfg, w, desired, imageId, d, d', d'', managed);
    MadeIsMine(cfg, w, desired, imageId);
    hide Mine, MadeFor, FreshFor, Matches, Tagged, Ensured, SettledAs;
    forall n | n in d && !Mine(d[n], w) ensures n in d'' && d''[n] == d[n] {
      ForeignKept(cfg, w, desired, imageId, d, d', managed, n);
      assert n !in existing && Same(d', d'', n);
    }
  }

  lemma ForeignKept(cfg: Config, w: string, desired: map<string, StubSpec>, imageId: string, d: Docker, d': Docker,
                    managed: set<string>, n: string)
    requires Ensured(cfg, w, desired, imageId, d, d', desired.Keys, managed) && n in d && !Mine(d[n], w)
    ensures n in d' && d'[n] == d[n]
  {
  }

  lemma NothingElse(cfg: Config, w: string, desired: map<string, StubSpec>, imageId: string, d: Docker, d': Docker,
                    d'': Docker, managed: set<string>)
    requires Ensured(cfg, w, desired, imageId, d, d', desired.Keys, managed)
    requires forall n :: n in d'' ==> n in d' && d''[n] == d'[n]
    ensures forall n :: n in d'' ==> (n in d && d''[n] == d[n]) || (n in desired && MadeFor(cfg, d''[n], desired[n]))
  {
    hide Mine, MadeFor, SettledAs;
    forall n | n in d'' ensures (n in d && d''[n] == d[n]) || (n in desired && MadeFor(cfg, d''[n], desired[n])) {
      assert n !in desired ==> Same(d, d', n);
    }
  }

  /** After a calm run that saw all containers, those of the worker that are left are managed. */
  lemma AfterCalmRun(cfg: Config, w: string, desired: map<string, StubSpec>, imageId: string,
                     d: Docker, d': Docker, d'': Docker, managed: set<string>)
    requires Ensured(cfg, w, desired, imageId, d, d', desired.Keys, managed)
    requires NoneLeft(w, d, d', desired.Keys, managed)
    requires Trimming(d', d'', desired.Keys, MineOf(d, w))
    requires forall n :: n in MineOf(d, w) && n !in desired ==> n !in d''
    ensures MineOf(d'', w).Keys <= managed
  {
    hide Mine, MadeFor, FreshFor, Matches;
    forall n | n in MineOf(d'', w) ensures n in desired && n in managed {
      assert n !in desired ==> Same(d, d', n);
    }
  }

  /** After a flawless run the worker's containers are exactly the desired ones. */
  lemma AfterFlawlessRun(cfg: Config, w: string, desired: map<string, StubSpec>, imageId: string, d: Docker,
                         d': Docker, d'': Docker)
    requires AllTagged(desired, w, imageId) && Ensured(cfg, w, desired, imageId, d, d', desired.Keys, desired.Keys)
    requires Trimming(d', d'', desired.Keys, MineOf(d, w)) && NamesFree(d, w, desired) && FrameOf(w, d, d'')
    requires MineOf(d'', w).Keys <= desired.Keys
    ensures Settles(cfg, w, desired, imageId, d, d'')
  {
    hide Mine, MadeFor, FreshFor, Matches, Tagged;
    forall n | n in desired ensures n in d'' && SettledAs(cfg, d, d''[n], desired[n], imageId) && Mine(d''[n], w) {
      assert Same(d', d'', n);
      SettledIsMine(cfg, w, desired, imageId, d, d''[n], n);
    }
  }

  lemma NoneStand(w: string, desired: map<string, StubSpec>, d: Docker)
    ensures Stands(w, desired, d, {})
  {
  }

  /** What is reported stands, whatever failed. */
  lemma ManagedStand(cfg: Config, w: string, desired: map<string, StubSpec>, imageId: string,
                     d: Docker, d': Docker, d'': Docker, existing: Docker, managed: set<string>)
    requires AllTagged(desired, w, imageId) && Ensured(cfg, w, desired, imageId, d, d', desired.Keys, managed)
    requires Trimming(d', d'', desired.Keys, existing)
    ensures Stands(w, desired, d'', managed)
  {
    hide Mine, DESIRED_HASH;
    forall n | n in managed ensures n in desired && n in d'' && Mine(d''[n], w) && Matches(d''[n], desired[n]) {
      assert Same(d', d'', n) && SettledAs(cfg, d, d'[n], desired[n], imageId);
      SettledIsMine(cfg, w, desired, imageId, d, d''[n], n);
      assert Tagged(desired[n], w);
    }
  }

  lemma MadeIsMine(cfg: Config, w: string, desired: map<string, StubSpec>, imageId: string)
    requires AllTagged(desired, w, imageId)
    ensures forall c: Container, n :: n in desired && MadeFor(cfg, c, desired[n]) ==> Mine(c, w)
  {
    hide MANAGED, WORKER_ID;
    forall c: Container, n | n in desired && MadeFor(cfg, c, desired[n]) ensures Mine(c, w) {
      assert Tagged(desired[n], w);
    }
  }

  lemma SettledIsMine(cfg: Config, w: string, desired: map<string, StubSpec>, imageId: string, d: Docker, c: Container,
                      n: string)
    requires AllTagged(desired, w, imageId) && n in desired && SettledAs(cfg, d, c, desired[n], imageId)
    requires n in d ==> Mine(d[n], w)
    ensures Mine(c, w)
  {
    MadeIsMine(cfg, w, desired, imageId);
    hide Mine, MadeFor, Matches, Tagged;
  }

  /** A settled worker is at rest: its next run will not touch Docker. */
  lemma SettledIsAtRest(cfg: Config, s: Snapshot, imageId: string, d: Docker, d': Docker)
    requires Settles(cfg, s.workerId, DesiredByName(cfg, s, imageId), imageId, d, d')
    ensures AtRest(d', s.workerId, DesiredByName(cfg, s, imageId))
  {
    var w, desired := s.workerId, DesiredByName(cfg, s, imageId);
    DesiredAreTagged(cfg, s, imageId);
    hide DesiredByName, Mine, DESIRED_HASH;
    forall n | n in desired ensures n in MineOf(d', w) && Matches(d'[n], desired[n]) {
      assert SettledAs(cfg, d, d'[n], desired[n], imageId);
      assert Tagged(desired[n], w);
    }
  }

  /** Idempotence: in a calm world a second run right after a flawless first one makes no mutating call
      and reports the same containers. */
  method ReconcileTwice(host: Host, cfg: Config, s: Snapshot)
    returns (first: set<string>, second: set<string>, ghost between: nat)
    requires host.Valid() && Reachable(s) && Flawless(host.trust)
    requires NamesFree(host.docker, s.workerId, DesiredByName(cfg, s, host.imageId))
    modifies host`alive, host`docker, host`nextId, host`changes
    ensures host.alive ==> first == second == DesiredByName(cfg, s, host.imageId).Keys && host.changes == between
    ensures host.alive ==>
      Settles(cfg, s.workerId, DesiredByName(cfg, s, host.imageId), host.imageId, old(host.docker), host.docker)
  {
    hide UniqueIds, Settles, NamesFree, DesiredByName, AtRest, FrameOf, OldOrMade, MineOf, Reachable;
    var failed;
    first, failed := Reconcile(host, cfg, s);
    between := host.changes;
    if host.alive {
      SettledIsAtRest(cfg, s, host.imageId, old(host.docker), host.docker);
      CalmRemoves(host.trust);
    }
    second, failed := Reconcile(host, cfg, s);
  }
}
