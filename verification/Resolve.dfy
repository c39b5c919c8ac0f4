/** validateSnapshot on the receiver and lookupService on the agent: whatever stub the receiver
    builds, the agent finds the container and service it stands for. */
module Resolve {
  import opened Strings
  import opened Model
  import opened Stubs
  import opened Desired

  datatype Issue = Issue(scope: string, field: string, containerId: string, container: string)

  predicate Usable(c: ContainerSpec)
  {
    c.name != "" && c.routers != map[] && c.services != map[]
  }

  /** The containers validateSnapshot keeps: the first with its id, if that one is usable. */
  function Clean(containers: seq<ContainerSpec>, seen: set<string>): seq<ContainerSpec>
  {
    if containers == [] then []
    else
      var c, rest := containers[0], containers[1..];
      if c.id == "" || c.id in seen then Clean(rest, seen)
      else if Usable(c) then [c] + Clean(rest, seen + {c.id})
      else Clean(rest, seen + {c.id})
  }

  function Validated(s: Snapshot): Snapshot
  {
    s.(containers := if s.workerId == "" then [] else Clean(s.containers, {}))
  }

  /** An issue of scope "snapshot" makes Upsert refuse the snapshot. */
  predicate Refused(s: Snapshot)
  {
    s.workerId == "" || !Reachable(s)
  }

  function ContainerIssue(c: ContainerSpec, field: string): Issue
  {
    Issue("container", field, c.id, c.name)
  }

  /** What is said about each container that is dropped. */
  function Faults(containers: seq<ContainerSpec>, seen: set<string>): seq<Issue>
  {
    if containers == [] then []
    else
      var c, rest := containers[0], containers[1..];
      if c.id == "" || c.id in seen then [Issue("container", "id", c.id, c.name)] + Faults(rest, seen)
      else if c.name == "" then [Issue("container", "name", c.id, "")] + Faults(rest, seen + {c.id})
      else if Usable(c) then Faults(rest, seen + {c.id})
      else [Issue("container", "routes", c.id, c.name)] + Faults(rest, seen + {c.id})
  }

  /** What is said about the snapshot as a whole. */
  function Lacks(s: Snapshot): seq<Issue>
  {
    if s.workerId == "" then [Issue("snapshot", "worker_id", "", "")]
    else
      (if s.advertiseAddr == "" then [Issue("snapshot", "advertise_addr", "", "")] else [])
      + (if s.proxyPort <= 0 then [Issue("snapshot", "proxy_port", "", "")] else [])
  }

  /** The loop of validateSnapshot. */
  method ValidateSnapshot(s: Snapshot) returns (issues: seq<Issue>, cleaned: Snapshot)
    ensures cleaned == Validated(s)
    ensures (exists i :: i in issues && i.scope == "snapshot") <==> Refused(s)
    ensures issues == [] <==> !Refused(s) && cleaned == s
    ensures issues == Lacks(s) + if s.workerId == "" then [] else Faults(s.containers, {})
  {
    hide Clean, Faults;
    cleaned := s.(containers := []);
    issues := [];
    if s.workerId == "" {
      issues := [Issue("snapshot", "worker_id", "", "")];
      assert issues[0].scope == "snapshot";
      return;
    }
    if s.advertiseAddr == "" {
      issues := issues + [Issue("snapshot", "advertise_addr", "", "")];
    }
    if s.proxyPort <= 0 {
      issues := issues + [Issue("snapshot", "proxy_port", "", "")];
    }
    assert issues != [] ==> issues[0].scope == "snapshot";
    var kept, found := ContainerLoop(s.containers);
    ghost var before := issues;
    issues := issues + found;
    cleaned := s.(containers := kept);
    assert forall i :: i in issues <==> i in before || i in found;
    assert "container"[0] == 'c' && "snapshot"[0] == 's';
  }

  method ContainerLoop(containers: seq<ContainerSpec>) returns (kept: seq<ContainerSpec>, issues: seq<Issue>)
    ensures kept == Clean(containers, {})
    ensures forall i :: i in issues ==> i.scope == "container"
    ensures issues == [] <==> kept == containers
    ensures issues == Faults(containers, {})
  {
    hide Clean, Faults;
    kept, issues := [], [];
    var seen: set<string> := {};
    assert containers[0..] == containers && [] + Clean(containers, {}) == Clean(containers, {});
    assert [] + Faults(containers, {}) == Faults(containers, {});
    for i := 0 to |containers|
      invariant kept + Clean(containers[i..], seen) == Clean(containers, {})
      invariant issues + Faults(containers[i..], seen) == Faults(containers, {})
      invariant |kept| <= i && forall x :: x in issues ==> x.scope == "container"
      invariant issues == [] ==> kept == containers[..i]
      invariant issues != [] ==> |kept| < i
    {
      var c := containers[i];
      CleanStep(containers[i..], seen);
      FaultsStep(containers[i..], seen, issues);
      assert containers[i..][1..] == containers[i + 1..];
      if c.id == "" {
        issues := issues + [ContainerIssue(c, "id")];
        continue;
      }
      if c.id in seen {
        issues := issues + [ContainerIssue(c, "id")];
        continue;
      }
      seen := seen + {c.id};
      if c.name == "" {
        issues := issues + [ContainerIssue(c, "name")];
        continue;
      }
      if c.routers == map[] || c.services == map[] {
        issues := issues + [ContainerIssue(c, "routes")];
        continue;
      }
      assert kept + ([c] + Clean(containers[i + 1..], seen)) == (kept + [c]) + Clean(containers[i + 1..], seen);
      assert containers[..i + 1] == containers[..i] + [c];
      kept := kept + [c];
    }
    CleanNothing(seen);
    assert containers[|containers|..] == [] && containers[..|containers|] == containers;
  }

  lemma CleanNothing(seen: set<string>)
    ensures Clean([], seen) == [] && Faults([], seen) == []
  {
  }

  lemma FaultsStep(containers: seq<ContainerSpec>, seen: set<string>, before: seq<Issue>)
    requires containers != []
    ensures var c, rest := containers[0], containers[1..];
            before + Faults(containers, seen) ==
            if c.id == "" || c.id in seen then before + [ContainerIssue(c, "id")] + Faults(rest, seen)
            else if c.name == "" then before + [ContainerIssue(c, "name")] + Faults(rest, seen + {c.id})
            else if Usable(c) then before + Faults(rest, seen + {c.id})
            else before + [ContainerIssue(c, "routes")] + Faults(rest, seen + {c.id})
  {
  }

  lemma CleanStep(containers: seq<ContainerSpec>, seen: set<string>)
    requires containers != []
    ensures var c, rest := containers[0], containers[1..];
            Clean(containers, seen) ==
            if c.id == "" || c.id in seen then Clean(rest, seen)
            else if Usable(c) then [c] + Clean(rest, seen + {c.id})
            else Clean(rest, seen + {c.id})
  {
  }

  lemma {:induction false} CleanIs(containers: seq<ContainerSpec>, seen: set<string>)
    ensures DistinctIds(Clean(containers, seen))
    ensures forall c :: c in Clean(containers, seen) ==> c.id != "" && c.id !in seen && Usable(c)
  {
    if containers != [] {
      var c, rest := containers[0], containers[1..];
      CleanIs(rest, seen);
      CleanIs(rest, seen + {c.id});
    }
  }

  /** A container that is kept is the first of the whole snapshot with its id. */
  lemma {:induction false} KeptIsFirst(containers: seq<ContainerSpec>, seen: set<string>, c: ContainerSpec)
    returns (i: nat)
    requires c in Clean(containers, seen)
    ensures i < |containers| && containers[i] == c
    ensures forall j :: 0 <= j < i ==> containers[j].id != c.id
  {
    var first, rest := containers[0], containers[1..];
    CleanIs(containers, seen);
    if first.id == "" || first.id in seen {
      i := KeptIsFirst(rest, seen, c);
      i := i + 1;
    } else if c == first {
      i := 0;
    } else {
      CleanIs(rest, seen + {first.id});
      i := KeptIsFirst(rest, seen + {first.id}, c);
      i := i + 1;
    }
  }

  /** Exported containers with different non-empty ids pass validation untouched. */
  lemma {:induction false} ExportedIsKept(containers: seq<ContainerSpec>, seen: set<string>)
    requires forall c :: c in containers ==> c.id != "" && c.id !in seen && Usable(c)
    requires DistinctIds(containers)
    ensures Clean(containers, seen) == containers
  {
    if containers != [] {
      ExportedIsKept(containers[1..], seen + {containers[0].id});
    }
  }

  // ---------------------------------------------------------------- lookup

  /** byId: found under its container id, rather than by the service name alone. */
  datatype Found = Found(container: ContainerSpec, service: ServiceSpec, byId: bool) | Missing

  function FirstWith(containers: seq<ContainerSpec>, id: Option<string>, service: string): Option<ContainerSpec>
  {
    if containers == [] then None
    else if (id.None? || containers[0].id == id.value) && service in containers[0].services then Some(containers[0])
    else FirstWith(containers[1..], id, service)
  }

  function Lookup(s: Snapshot, containerId: string, service: string): Found
  {
    var exact := if containerId != "" then FirstWith(s.containers, Some(containerId), service) else None;
    var byName := if service != "" then FirstWith(s.containers, None, service) else None;
    FoundIn(if exact.Some? then exact else byName, service, exact.Some?)
  }

  function FoundIn(c: Option<ContainerSpec>, service: string, byId: bool): Found
  {
    if c.Some? && service in c.value.services then Found(c.value, c.value.services[service], byId) else Missing
  }

  lemma {:induction false} FirstWithHas(containers: seq<ContainerSpec>, id: Option<string>, service: string)
    ensures var c := FirstWith(containers, id, service);
            c.Some? ==> c.value in containers && service in c.value.services && (id.Some? ==> c.value.id == id.value)
  {
    if containers != [] {
      FirstWithHas(containers[1..], id, service);
    }
  }

  /** One of the two search loops of lookupService. */
  method Search(containers: seq<ContainerSpec>, id: Option<string>, service: string) returns (c: Option<ContainerSpec>)
    ensures c == FirstWith(containers, id, service)
  {
    for i := 0 to |containers|
      invariant FirstWith(containers[i..], id, service) == FirstWith(containers, id, service)
    {
      assert containers[i..][1..] == containers[i + 1..];
      if (id.None? || containers[i].id == id.value) && service in containers[i].services {
        return Some(containers[i]);
      }
    }
    assert containers[|containers|..] == [];
    return None;
  }

  method LookupService(s: Snapshot, containerId: string, service: string) returns (r: Found)
    ensures r == Lookup(s, containerId, service)
  {
    FirstWithHas(s.containers, Some(containerId), service);
    FirstWithHas(s.containers, None, service);
    if containerId != "" {
      var c := Search(s.containers, Some(containerId), service);
      if c.Some? {
        return Found(c.value, c.value.services[service], true);
      }
    }
    if service != "" {
      var c := Search(s.containers, None, service);
      if c.Some? {
        return Found(c.value, c.value.services[service], false);
      }
    }
    return Missing;
  }

  lemma {:induction false} FirstWithId(containers: seq<ContainerSpec>, i: nat, service: string)
    requires i < |containers| && service in containers[i].services
    requires forall j :: 0 <= j < i ==> containers[j].id != containers[i].id
    ensures FirstWith(containers, Some(containers[i].id), service) == Some(containers[i])
  {
    if i > 0 {
      assert containers[1..][i - 1] == containers[i];
      FirstWithId(containers[1..], i - 1, service);
    }
  }

  /** Every stub the receiver builds from the validated snapshot carries an id and a service name under
      which the agent, who holds the snapshot as sent, finds the very container and service it was built
      from, and never falls back to the service name alone. */
  lemma EveryStubResolves(cfg: Config, s: Snapshot, imageId: string, spec: StubSpec) returns (c: ContainerSpec)
    requires spec in StubsOf(cfg, Validated(s), Validated(s).containers, imageId)
    ensures c in Validated(s).containers && IsStubOf(cfg, Validated(s), c, spec.serviceName, imageId, spec)
    ensures Lookup(s, spec.containerId, spec.serviceName) == Found(c, c.services[spec.serviceName], true)
  {
    hide StubFor, RoutersOf, StubsOf, StubName, Clean;
    var v := Validated(s);
    StubsAre(cfg, v, v.containers, imageId, spec);
    var c', n :| c' in v.containers && IsStubOf(cfg, v, c', n, imageId, spec);
    c := c';
    StubHasService(cfg, v, c, n, imageId, spec);
    CleanIs(s.containers, {});
    var i := KeptIsFirst(s.containers, {}, c);
    FirstWithId(s.containers, i, n);
  }
}
