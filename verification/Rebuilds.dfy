/** What a start does to the stub containers of all loaded workers, compared with removing and creating
    every one of them again. */
module Rebuilds {
  import opened Model
  import opened Stubs
  import opened Desired
  import opened Hosts
  import opened Reconciler
  import opened HashSkip
  import opened Stores

  function Elems(order: seq<string>): set<string>
  {
    set w | w in order
  }

  /** One worker after the other: its containers are removed, its desired stubs created. */
  function RecreateEach(cfg: Config, workers: map<string, Record>, order: seq<string>, imageId: string, d: Docker)
    : Docker
    requires Elems(order) <= workers.Keys
  {
    if order == [] then Shapes(d)
    else
      var before, w := order[..|order| - 1], order[|order| - 1];
      RecreateAll(cfg, w, Wanted(cfg, workers[w], imageId), imageId,
                  RecreateEach(cfg, workers, before, imageId, d))
  }

  /** Stub names do not collide and no foreign container has one. */
  ghost predicate Unclaimed(cfg: Config, workers: map<string, Record>, imageId: string, d: Docker)
  {
    && NamedApart(cfg, AllTriples(workers))
    && forall w :: w in workers ==> NamesFree(d, w, Wanted(cfg, workers[w], imageId))
  }

  /** `got` is `d` with the stubs of the workers `ws` made anew. */
  ghost predicate Rebuilt(cfg: Config, workers: map<string, Record>, ws: set<string>, imageId: string, d: Docker,
                          got: Docker)
    requires ws <= workers.Keys
  {
    forall n :: RebuiltAt(cfg, workers, ws, imageId, d, got, n)
  }

  /** At this name there is the stub that one of them wants, or what there was of somebody else. */
  ghost predicate RebuiltAt(cfg: Config, workers: map<string, Record>, ws: set<string>, imageId: string, d: Docker,
                            got: Docker, n: string)
    requires ws <= workers.Keys
  {
    && (n in got ==> (n in d && !Owned(d[n], ws)) || SomeoneWants(cfg, workers, ws, imageId, n))
    && (n in d && !Owned(d[n], ws) ==> n in got && got[n] == Shape(d[n]))
    && forall w :: w in ws && n in Wanted(cfg, workers[w], imageId) ==>
         n in got && got[n] == FreshShape(cfg, Wanted(cfg, workers[w], imageId)[n], imageId)
  }

  ghost predicate SomeoneWants(cfg: Config, workers: map<string, Record>, ws: set<string>, imageId: string, n: string)
    requires ws <= workers.Keys
  {
    exists w :: w in ws && n in Wanted(cfg, workers[w], imageId)
  }

  lemma FreshIsMine(cfg: Config, r: Record, imageId: string, n: string)
    requires n in Wanted(cfg, r, imageId)
    ensures Mine(FreshShape(cfg, Wanted(cfg, r, imageId)[n], imageId), r.snapshot.workerId)
  {
    hide DesiredByName;
    DesiredAreTagged(cfg, r.snapshot, imageId);
  }

  lemma OneMore(cfg: Config, workers: map<string, Record>, ws: set<string>, w: string, imageId: string, d: Docker,
                got: Docker)
    requires RecordsOk(workers) && Undisputed(cfg, workers, imageId, d)
    requires ws <= workers.Keys && w in workers && Rebuilt(cfg, workers, ws, imageId, d, got)
    ensures Rebuilt(cfg, workers, ws + {w}, imageId, d,
                    RecreateAll(cfg, w, Wanted(cfg, workers[w], imageId), imageId, got))
  {
    var more := RecreateAll(cfg, w, Wanted(cfg, workers[w], imageId), imageId, got);
    hide RecordsOk, Undisputed, Wanted, RebuiltAt, RecreateAll;
    forall n ensures RebuiltAt(cfg, workers, ws + {w}, imageId, d, more, n) {
      OneMoreAt(cfg, workers, ws, w, imageId, d, got, n);
    }
  }

  lemma OneMoreAt(cfg: Config, workers: map<string, Record>, ws: set<string>, w: string, imageId: string, d: Docker,
                  got: Docker, n: string)
    requires RecordsOk(workers) && Undisputed(cfg, workers, imageId, d)
    requires ws <= workers.Keys && w in workers && RebuiltAt(cfg, workers, ws, imageId, d, got, n)
    ensures RebuiltAt(cfg, workers, ws + {w}, imageId, d,
                      RecreateAll(cfg, w, Wanted(cfg, workers[w], imageId), imageId, got), n)
  {
    hide Wanted, Compatible, FreshShape, SomeoneWants;
    var wanted := Wanted(cfg, workers[w], imageId);
    var more := RecreateAll(cfg, w, wanted, imageId, got);
    FreshAt(cfg, workers, ws, w, imageId, got, n);
    WantsMore(cfg, workers, ws, w, imageId, n);
    if n in d && !Owned(d[n], ws + {w}) {
      assert n !in wanted && !Owned(d[n], ws);
    }
  }

  lemma WantsMore(cfg: Config, workers: map<string, Record>, ws: set<string>, w: string, imageId: string, n: string)
    requires ws <= workers.Keys && w in workers
    ensures SomeoneWants(cfg, workers, ws + {w}, imageId, n) <==>
      SomeoneWants(cfg, workers, ws, imageId, n) || n in Wanted(cfg, workers[w], imageId)
  {
    hide Wanted;
    if n in Wanted(cfg, workers[w], imageId) {
      assert w in ws + {w};
    }
    if SomeoneWants(cfg, workers, ws, imageId, n) {
      var v :| v in ws && n in Wanted(cfg, workers[v], imageId);
      assert v in ws + {w};
    }
  }

  /** The new stubs of another worker at this name stay as they are. */
  lemma FreshAt(cfg: Config, workers: map<string, Record>, ws: set<string>, w: string, imageId: string, got: Docker,
                n: string)
    requires RecordsOk(workers) && ws <= workers.Keys && w in workers
    requires forall v :: v in workers && v != w ==>
      Wanted(cfg, workers[v], imageId).Keys !! Wanted(cfg, workers[w], imageId).Keys
    requires forall v :: v in ws && n in Wanted(cfg, workers[v], imageId) ==>
      n in got && got[n] == FreshShape(cfg, Wanted(cfg, workers[v], imageId)[n], imageId)
    ensures var more := RecreateAll(cfg, w, Wanted(cfg, workers[w], imageId), imageId, got);
            forall v :: v in ws + {w} && n in Wanted(cfg, workers[v], imageId) ==>
              n in more && more[n] == FreshShape(cfg, Wanted(cfg, workers[v], imageId)[n], imageId)
  {
    hide Wanted, Compatible, FreshShape;
    forall v | v in ws && v != w && n in Wanted(cfg, workers[v], imageId)
      ensures Mine(got[n], v) && Shape(got[n]) == got[n] && n !in Wanted(cfg, workers[w], imageId)
    {
      FreshIsMine(cfg, workers[v], imageId, n);
      FreshHasNoId(cfg, Wanted(cfg, workers[v], imageId)[n], imageId);
    }
  }

  lemma FreshHasNoId(cfg: Config, spec: StubSpec, imageId: string)
    ensures Shape(FreshShape(cfg, spec, imageId)) == FreshShape(cfg, spec, imageId)
  {
  }

  lemma {:induction false} EachRebuilds(cfg: Config, workers: map<string, Record>, order: seq<string>, imageId: string,
                                        d: Docker)
    requires RecordsOk(workers) && Undisputed(cfg, workers, imageId, d) && Elems(order) <= workers.Keys
    ensures Rebuilt(cfg, workers, Elems(order), imageId, d, RecreateEach(cfg, workers, order, imageId, d))
  {
    hide Wanted, RecordsOk, Undisputed, RecreateAll;
    if order != [] {
      var before, w := order[..|order| - 1], order[|order| - 1];
      assert order == before + [w];
      assert Elems(order) == Elems(before) + {w};
      hide Rebuilt;
      EachRebuilds(cfg, workers, before, imageId, d);
      OneMore(cfg, workers, Elems(before), w, imageId, d, RecreateEach(cfg, workers, before, imageId, d));
    }
  }

  /** A wanted container of a worker at rest is as good as new. */
  lemma AsGoodAsNew(cfg: Config, known: set<Preimage>, s: Snapshot, imageId: string, d: Docker, n: string)
    requires s.workerId != "" && AtRest(d, s.workerId, DesiredByName(cfg, s, imageId))
    requires n in DesiredByName(cfg, s, imageId) && n in d ==> Genuine(cfg, known, d[n])
    requires NoHashCollision(cfg, known) && Hashed(cfg, s, imageId) <= known && n in DesiredByName(cfg, s, imageId)
    ensures n in d && Shape(d[n]) == FreshShape(cfg, DesiredByName(cfg, s, imageId)[n], imageId)
  {
    DesiredAreTagged(cfg, s, imageId);
    hide DesiredByName, Hashed, Genuine, NoHashCollision, FreshShape, FromPreimage, Tagged;
    var spec := DesiredByName(cfg, s, imageId)[n];
    assert n in MineOf(d, s.workerId) && Matches(d[n], spec) && spec.imageId == imageId;
    MineIsManaged(d[n], s.workerId);
    var p, name := DesiredHasPreimage(cfg, s, imageId, n);
    SameHashSameContainer(cfg, known, d[n], p, name);
  }

  /** With all loaded workers at rest and everything else untouched, all stubs are as good as new. */
  lemma RestIsRebuilt(cfg: Config, known: set<Preimage>, workers: map<string, Record>, imageId: string, d: Docker,
                      d': Docker)
    requires RecordsOk(workers) && OthersKept(d, d', workers.Keys)
    requires forall w :: w in workers ==> RestingFor(cfg, workers[w], imageId, d')
    requires AllGenuine(cfg, known, d') && NoHashCollision(cfg, known) && HashedAll(cfg, workers, imageId) <= known
    ensures Rebuilt(cfg, workers, workers.Keys, imageId, d, Shapes(d'))
  {
    hide Wanted, Genuine, NoHashCollision, FreshShape, OthersKept, RecordsOk, HashedAll, RestingFor, RebuiltAt;
    forall n ensures RebuiltAt(cfg, workers, workers.Keys, imageId, d, Shapes(d'), n) {
      forall w | w in workers && n in Wanted(cfg, workers[w], imageId)
        ensures n in d' && Shape(d'[n]) == FreshShape(cfg, Wanted(cfg, workers[w], imageId)[n], imageId)
      {
        WorkerAsNew(cfg, known, workers, w, imageId, d', n);
      }
      RestIsRebuiltAt(cfg, workers, imageId, d, d', n);
    }
  }

  lemma WorkerAsNew(cfg: Config, known: set<Preimage>, workers: map<string, Record>, w: string, imageId: string,
                    d: Docker, n: string)
    requires RecordsOk(workers) && w in workers && RestingFor(cfg, workers[w], imageId, d)
    requires AllGenuine(cfg, known, d) && NoHashCollision(cfg, known) && HashedAll(cfg, workers, imageId) <= known
    requires n in Wanted(cfg, workers[w], imageId)
    ensures n in d && Shape(d[n]) == FreshShape(cfg, Wanted(cfg, workers[w], imageId)[n], imageId)
  {
    hide DesiredByName, Hashed, Genuine, NoHashCollision, FreshShape, AtRest, Reachable;
    assert Compatible(workers[w]);
    assert Hashed(cfg, workers[w].snapshot, imageId) <= HashedAll(cfg, workers, imageId);
    AsGoodAsNew(cfg, known, workers[w].snapshot, imageId, d, n);
  }

  lemma RestIsRebuiltAt(cfg: Config, workers: map<string, Record>, imageId: string, d: Docker, d': Docker, n: string)
    requires RecordsOk(workers) && OthersKept(d, d', workers.Keys)
    requires forall w :: w in workers ==> RestingFor(cfg, workers[w], imageId, d')
    requires forall w :: w in workers && n in Wanted(cfg, workers[w], imageId) ==>
      n in d' && Shape(d'[n]) == FreshShape(cfg, Wanted(cfg, workers[w], imageId)[n], imageId)
    ensures RebuiltAt(cfg, workers, workers.Keys, imageId, d, Shapes(d'), n)
  {
    hide Wanted, FreshShape, Compatible, RestingFor, SomeoneWants;
    if n in d' && Owned(d'[n], workers.Keys) {
      var w := Label(d'[n], WORKER_ID);
      OwnedIsWanted(cfg, workers, imageId, d', n, w);
    }
  }

  lemma OwnedIsWanted(cfg: Config, workers: map<string, Record>, imageId: string, d: Docker, n: string, w: string)
    requires RecordsOk(workers) && w in workers && RestingFor(cfg, workers[w], imageId, d) && n in d && Mine(d[n], w)
    ensures SomeoneWants(cfg, workers, workers.Keys, imageId, n)
  {
    hide DesiredByName, Compatible;
    assert n in MineOf(d, w);
  }

  lemma RebuiltIsOne(cfg: Config, workers: map<string, Record>, ws: set<string>, imageId: string, d: Docker,
                     got: Docker, got': Docker)
    requires ws <= workers.Keys && Rebuilt(cfg, workers, ws, imageId, d, got)
    requires Rebuilt(cfg, workers, ws, imageId, d, got')
    ensures got == got'
  {
    hide Wanted, FreshShape, Owned, RebuiltAt;
    forall n ensures (n in got <==> n in got') && (n in got ==> got[n] == got'[n]) {
      RebuiltIsOneAt(cfg, workers, ws, imageId, d, got, got', n);
    }
  }

  lemma RebuiltIsOneAt(cfg: Config, workers: map<string, Record>, ws: set<string>, imageId: string, d: Docker,
                       got: Docker, got': Docker, n: string)
    requires ws <= workers.Keys && RebuiltAt(cfg, workers, ws, imageId, d, got, n)
    requires RebuiltAt(cfg, workers, ws, imageId, d, got', n)
    ensures (n in got <==> n in got') && (n in got ==> got[n] == got'[n])
  {
    hide Wanted, FreshShape, Owned;
  }

  /** Whatever the order in which the workers would have been recreated, the result is this one. */
  ghost predicate AsRecreated(cfg: Config, workers: map<string, Record>, imageId: string, d: Docker, d': Docker)
  {
    forall order: seq<string> | Elems(order) == workers.Keys ::
      Shapes(d') == RecreateEach(cfg, workers, order, imageId, d)
  }

  /** What reconciling all loaded workers does to Docker. Nobody else's containers are touched. If all calls
      work and names are undisputed, every worker ends at rest, with a new stamp; and if moreover all stubs were
      genuine and no hashes collide, the hash skip has made no difference. In a calm world a worker gets a new stamp
      unless none of the stubs it wants could be had; and if files can be written, they have what memory has. */
  ghost predicate Reconciled(cfg: Config, known: set<Preimage>, trust: Call -> Trust, alive: bool, genuine: bool,
                             disk: map<string, Record>, disk': map<string, Record>, workers: map<string, Record>,
                             from: int, imageId: string, d: Docker, d': Docker)
  {
    && (alive && Calm(trust) ==> AllRenewed(cfg, imageId, FoundOf(disk, workers), workers, d', from))
    && (alive && trust(WriteFile).Sure? ==> InSync(workers, disk'))
    && (alive && Flawless(trust) && Undisputed(cfg, workers, imageId, d) ==>
          forall w :: w in workers ==> workers[w].updatedAt >= from)
    && OthersKept(d, d', workers.Keys) && (workers == map[] ==> d' == d)
    && (alive && Flawless(trust) && Undisputed(cfg, workers, imageId, d) ==>
          forall w :: w in workers ==> RestingFor(cfg, workers[w], imageId, d'))
    && (alive && Flawless(trust) && Unclaimed(cfg, workers, imageId, d) && genuine && NoHashCollision(cfg, known) ==>
          AsRecreated(cfg, workers, imageId, d, d'))
  }

  lemma AllStamped(cfg: Config, imageId: string, first: map<string, Record>, workers: map<string, Record>, d: Docker,
                   from: int)
    requires AllRenewed(cfg, imageId, first, workers, d, from) && SameSnapshots(first, workers)
    requires forall w :: w in workers ==> RestingFor(cfg, workers[w], imageId, d)
    ensures forall w :: w in workers ==> workers[w].updatedAt >= from
  {
    hide DesiredByName, AtRest, Renewed;
    forall w | w in workers ensures workers[w].updatedAt >= from {
      assert Renewed(cfg, imageId, first[w], workers[w], d, from) && RestingFor(cfg, workers[w], imageId, d);
      RestingIsRenewed(cfg, imageId, first[w], workers[w], d, from);
    }
  }

  /** The hash skip at a start refines recreating every stub of every loaded worker. */
  lemma StartRefinesRecreate(cfg: Config, known: set<Preimage>, trust: Call -> Trust, alive: bool, genuine: bool,
                             disk: map<string, Record>, disk': map<string, Record>, workers: map<string, Record>,
                             from: int, imageId: string, d: Docker, d': Docker)
    requires SameSnapshots(FoundOf(disk, workers), workers)
    requires alive && Calm(trust) ==> AllRenewed(cfg, imageId, FoundOf(disk, workers), workers, d', from)
    requires alive && trust(WriteFile).Sure? ==> InSync(workers, disk')
    requires RecordsOk(workers) && OthersKept(d, d', workers.Keys) && (workers == map[] ==> d' == d)
    requires alive && Flawless(trust) && Undisputed(cfg, workers, imageId, d) ==> forall w :: w in workers ==>
      RestingFor(cfg, workers[w], imageId, d')
    requires genuine ==> AllGenuine(cfg, known, d')
    requires HashedAll(cfg, workers, imageId) <= known
    ensures Reconciled(cfg, known, trust, alive, genuine, disk, disk', workers, from, imageId, d, d')
  {
    hide FoundOf, AllRenewed, InSync, SameSnapshots;
    if alive && Flawless(trust) && Undisputed(cfg, workers, imageId, d) {
      FlawlessIsCalm(trust);
      AllStamped(cfg, imageId, FoundOf(disk, workers), workers, d', from);
    }
    hide Calm, AsRecreated;
    hide Wanted, RecordsOk, Undisputed, RestingFor, OthersKept, AllGenuine, NoHashCollision, HashedAll, NamesFree;
    hide Rebuilt, RecreateEach, Shapes, NamedApart, Flawless;
    if alive && Flawless(trust) && Unclaimed(cfg, workers, imageId, d) && genuine && NoHashCollision(cfg, known) {
      UndisputedIfFree(cfg, workers, imageId, d);
      RestIsRebuilt(cfg, known, workers, imageId, d, d');
      RebuiltAsRecreated(cfg, workers, imageId, d, d');
    }
  }

  lemma RebuiltAsRecreated(cfg: Config, workers: map<string, Record>, imageId: string, d: Docker, d': Docker)
    requires RecordsOk(workers) && Undisputed(cfg, workers, imageId, d)
    requires Rebuilt(cfg, workers, workers.Keys, imageId, d, Shapes(d'))
    ensures AsRecreated(cfg, workers, imageId, d, d')
  {
    hide Wanted, RecordsOk, Undisputed, Rebuilt, RecreateEach, Shapes;
    forall order: seq<string> | Elems(order) == workers.Keys
      ensures Shapes(d') == RecreateEach(cfg, workers, order, imageId, d)
    {
      EachRebuilds(cfg, workers, order, imageId, d);
      RebuiltIsOne(cfg, workers, workers.Keys, imageId, d, Shapes(d'), RecreateEach(cfg, workers, order, imageId, d));
    }
  }

  lemma FlawlessIsCalm(trust: Call -> Trust)
    requires Flawless(trust)
    ensures Calm(trust)
  {
  }
}
