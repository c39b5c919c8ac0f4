/** Where orphan-freedom ends: what exactly it takes to leave a stub container without a record, and that
    each call it relies on is needed. Every run here starts from a fresh store. */
module Orphans {
  import opened Model
  import opened Desired
  import opened Resolve
  import opened Paths
  import opened Hosts
  import opened Reconciler
  import HashSkip
  import opened Stores
  import Ledger

  /** All calls work, but for one kind. */
  function AllBut(c: Call, t: Trust): Call -> Trust
  {
    x => if x == c then t else Sure
  }

  function AllSure(): Call -> Trust
  {
    x => Sure
  }

  ghost predicate Fresh(store: Store)
    reads store, store.host
  {
    && store.Valid() && store.workers == map[] && store.host.disk == map[] && store.ttl > 0
    && forall n :: n in store.host.docker ==> !IsManaged(store.host.docker[n])
  }

  /** The snapshot is fit to be posted, and asks for at least one stub, under names nobody has. */
  ghost predicate Welcome(store: Store, s: Snapshot)
    reads store, store.host
  {
    var wanted := DesiredByName(store.cfg, Validated(s), store.host.imageId);
    !Refused(s) && wanted != map[] && wanted.Keys !! store.host.docker.Keys
  }

  lemma WantedOfSnapshot(cfg: Config, r: Record, s: Snapshot, imageId: string)
    requires r.snapshot == Validated(s).(hash := r.snapshot.hash)
    ensures Wanted(cfg, r, imageId) == DesiredByName(cfg, Validated(s), imageId)
  {
    hide StubsOf;
    StubsUnhashed(cfg, Validated(s), r.snapshot.hash, Validated(s).containers, imageId);
  }

  lemma FreshFacts(store: Store, s: Snapshot)
    requires Fresh(store) && Welcome(store, s)
    ensures store.Durable() && store.Tracked() && store.Acceptable(s) && s.workerId != ""
    ensures forall w :: w != "" ==> NoneOf(store.host.docker, w)
    ensures NamesFree(store.host.docker, s.workerId, DesiredByName(store.cfg, Validated(s), store.host.imageId))
  {
    hide DesiredByName, Validated;
    forall n, w | n in store.host.docker && w != "" ensures !Mine(store.host.docker[n], w) {
      assert !IsManaged(store.host.docker[n]);
    }
  }

  lemma SettledHas(cfg: Config, r: Record, managed: set<string>, imageId: string, d: Docker, d': Docker)
    requires SettledFor(cfg, r, managed, imageId, d, d') && Wanted(cfg, r, imageId) != map[]
    ensures !NoneOf(d', r.snapshot.workerId)
  {
    hide Wanted;
    var n :| n in Wanted(cfg, r, imageId);
    assert n in MineOf(d', r.snapshot.workerId);
  }

  lemma OrphanLeft(d: Docker, disk: map<string, Record>, w: string)
    requires !NoneOf(d, w) && w != "" && w !in disk
    ensures !OrphanFree(d, disk)
  {
  }

  /** Enough time passes for the record of `w` to expire. */
  method WaitAndExpire(store: Store, w: string) returns (ghost gone: set<string>)
    requires store.Valid() && w in store.workers && store.ttl > 0
    modifies store`workers, store.host`now, store.host`alive, store.host`docker, store.host`disk, store.host`changes
    ensures store.Valid() && w in gone && gone <= old(store.workers).Keys && store.workers == old(store.workers) - gone
    ensures RemovedOnly(old(store.host.docker), store.host.docker, old(store.workers), gone)
    ensures Stuck(store.host.trust) ==> store.host.docker == old(store.host.docker)
    ensures var host := store.host;
            host.alive && host.trust(DeleteFile).Sure? ==> w !in host.disk
    ensures var host := store.host;
            host.alive && Clearing(host.trust) && host.trust(DeleteFile).Sure?
            && old(store.Durable() && store.Separate()) ==>
              (store.Durable() <==> forall v :: v in gone ==> Listed(old(host.docker), old(store.workers), v))
  {
    hide RemovedOnly, Listed, Stuck, Clearing, OrphanFree, RecordsOk, UniqueIds, Ledger.Expired, Traced, AllHeld;
    var host := store.host;
    var stamp := store.workers[w].updatedAt;
    host.Sleep(store.ttl + 1 + (if stamp > host.now then stamp - host.now else 0));
    gone := store.RemoveExpired(host.now, Ledger.Policy(0, store.ttl, 0));
  }

  /** A worker's snapshot is posted while images cannot be inspected, and later its record expires: no
      orphan is left exactly if the worker had no stub container at the time of the post. */
  method PostThenExpire(store: Store, s: Snapshot)
    requires store.Valid() && store.Tracked() && store.Acceptable(s) && store.ttl > 0
    requires store.host.trust(InspectImage).Broken? && store.host.trust(WriteFile).Sure?
    requires store.host.trust(DeleteFile).Sure? && Clearing(store.host.trust)
    requires Apart(store.host.dir, store.workers.Keys + store.host.disk.Keys + {s.workerId})
    modifies store, store.host
    ensures store.host.alive ==> (store.Durable() <==> NoneOf(old(store.host.docker), s.workerId))
  {
    hide FrameOf, OrphanFree, Calm, Flawless, UniqueIds, Ledger.RecordedAfterGate, Wanted, Validated;
    hide RecordsOk, OldOrMade, NoneOf, Listed, Apart, Alone, Written;
    var host := store.host;
    ghost var ids := store.workers.Keys + host.disk.Keys + {s.workerId};
    ApartIsAlone(host.dir, host.disk, ids);
    var ok, managed := store.Upsert(s);
    FewerApart(host.dir, ids, store.workers.Keys + host.disk.Keys);
    if !host.alive {
      return;
    }
    ghost var d, workers := host.docker, store.workers;
    ghost var gone := WaitAndExpire(store, s.workerId);
    ListsAfterBlindPost(old(store.workers), workers, d, s.workerId);
  }

  lemma ListsAfterBlindPost(workers: map<string, Record>, workers': map<string, Record>, d: Docker, w: string)
    requires w in workers' && workers' == workers[w := workers'[w]] && workers'[w].managed == {}
    requires Traced(d, workers)
    ensures NoneOf(d, w) <==> Listed(d, workers', w)
    ensures forall v :: v in workers' && v != w ==> Listed(d, workers', v)
  {
    forall v | v in workers' && v != w ensures Listed(d, workers', v) {
      assert Listed(d, workers, v);
    }
  }

  /** A first post in a world where all works. */
  method FirstPost(store: Store, s: Snapshot)
    requires Fresh(store) && Welcome(store, s)
    modifies store, store.host
    ensures store.Valid() && store.host.imageId == old(store.host.imageId)
    ensures store.host.alive ==> old(store.host.alive)
    ensures store.host.alive ==>
      && store.Tracked() && store.host.trust == AllSure() && s.workerId in store.workers
      && !NoneOf(store.host.docker, s.workerId)
      && s.workerId in store.host.disk && store.workers[s.workerId].snapshot.capturedAt == s.capturedAt
      && store.workers.Keys == store.host.disk.Keys == {s.workerId}
  {
    hide FrameOf, OrphanFree, UniqueIds, Ledger.RecordedAfterGate, Wanted, Validated, RecordsOk, OldOrMade;
    hide DesiredByName, Traced, SettledFor;
    hide NamesFree, NoneOf, Refused;
    var host := store.host;
    host.Turn(AllSure());
    FreshFacts(store, s);
    NotRefused(s);
    ghost var d := host.docker;
    var ok, managed := store.Upsert(s);
    if host.alive {
      WantedOfSnapshot(store.cfg, store.workers[s.workerId], s, host.imageId);
      SettledHas(store.cfg, store.workers[s.workerId], managed, host.imageId, d, host.docker);
    }
  }

  /** Inspecting images is needed: it fails at the second post, and expiry leaves the stubs of the first. */
  method ImageLost(store: Store, s: Snapshot, later: Snapshot)
    requires Fresh(store) && Welcome(store, s)
    requires !Refused(later) && later.workerId == s.workerId && later.capturedAt > s.capturedAt
    modifies store, store.host
    ensures store.host.alive ==> !store.Durable()
  {
    hide FrameOf, OrphanFree, UniqueIds, Ledger.RecordedAfterGate, Wanted, Validated, RecordsOk, OldOrMade;
    hide DesiredByName, Traced, NoneOf;
    FirstPost(store, s);
    if store.host.alive {
      store.host.Turn(AllBut(InspectImage, Broken));
      NotRefused(later);
      PostThenExpire(store, later);
    }
  }

  /** Listing, inspecting and removing containers are needed: one of them fails when the record expires. */
  method ExpiryFails(store: Store, s: Snapshot, c: Call)
    requires Fresh(store) && Welcome(store, s) && c in {ListContainers, InspectContainer, RemoveContainer}
    modifies store, store.host
    ensures store.host.alive ==> !store.Durable()
  {
    hide OrphanFree, UniqueIds, Validated, RecordsOk, DesiredByName, Traced, NoneOf, RemovedOnly;
    NotRefused(s);
    FirstPost(store, s);
    if store.host.alive {
      store.host.Turn(AllBut(c, Broken));
      ghost var gone := WaitAndExpire(store, s.workerId);
      if store.host.alive {
        OrphanLeft(store.host.docker, store.host.disk, s.workerId);
      }
    }
  }

  lemma TornPost(cfg: Config, trust: Call -> Trust, imageId: string, r: Record, ok: bool, managed: set<string>,
                 workers: map<string, Record>, workers': map<string, Record>, d: Docker, d': Docker, n: string)
    requires InstallOutcome(cfg, trust, true, imageId, r, ok, managed, workers, workers', d, d')
    requires trust == AllBut(CreateContainer, Tearing) && NoneOf(d, r.snapshot.workerId)
    requires FrameOf(r.snapshot.workerId, d, d')
    requires n in Wanted(cfg, r, imageId) && n !in d
    ensures n in d' && Mine(d'[n], r.snapshot.workerId) && r.managed == {}
  {
    hide Mine, Wanted;
  }

  /** Creating must not succeed behind the receiver's back: the stub is there, nobody lists it. */
  method CreateTears(store: Store, s: Snapshot)
    requires Fresh(store) && Welcome(store, s)
    modifies store, store.host
    ensures store.host.alive ==> !store.Durable()
  {
    hide OrphanFree, UniqueIds, Validated, RecordsOk, DesiredByName, Traced, Wanted, OldOrMade;
    hide Ledger.RecordedAfterGate, NamesFree;
    hide InstallOutcome, Stuck, Clearing, Listed, RemovedOnly, SettledFor, Calm, Flawless;
    var host := store.host;
    host.Turn(AllBut(CreateContainer, Tearing));
    FreshFacts(store, s);
    NotRefused(s);
    ghost var d := host.docker;
    var ok, managed := store.Upsert(s);
    if !host.alive {
      return;
    }
    WantedOfSnapshot(store.cfg, store.workers[s.workerId], s, host.imageId);
    ghost var n :| n in Wanted(store.cfg, store.workers[s.workerId], host.imageId);
    ghost var d', workers := host.docker, store.workers;
    TornPost(store.cfg, host.trust, host.imageId, workers[s.workerId], ok, managed, map[], workers, d, d', n);
    ghost var gone := WaitAndExpire(store, s.workerId);
    if host.alive {
      StillThere(d', host.docker, workers, gone, n, s.workerId);
      OrphanLeft(host.docker, host.disk, s.workerId);
    }
  }

  lemma StillThere(d: Docker, d': Docker, workers: map<string, Record>, gone: set<string>, n: string, w: string)
    requires RemovedOnly(d, d', workers, gone) && n in d && Mine(d[n], w) && w in workers && workers[w].managed == {}
    ensures n in d' && Mine(d'[n], w)
  {
    hide Mine;
    if n !in d' {
      var v :| v in gone && v in workers && Mine(d[n], v) && n in workers[v].managed;
      NobodyOwnsTwice(d[n], v, w);
      assert false;
    }
  }

  /** A new process starts while no file can be read. */
  method BlindStart(before: Store) returns (store: Store)
    requires before.Valid() && before.host.trust(ReadFile).Broken?
    modifies before.host
    ensures fresh(store) && store.host == before.host && store.cfg == before.cfg && store.ttl == before.ttl
    ensures store.Valid() && store.workers == map[] && store.host.docker == old(before.host.docker)
    ensures store.host.alive ==> old(before.host.alive)
  {
    hide OrphanFree, UniqueIds, Traced, Flawless, Calm, HashSkip.AllGenuine, HashedAll, SameSnapshots, Later;
    hide Undisputed, Compatible;
    store := new Store(before.host, before.cfg, before.ttl, before.snapshotHash);
    var ok := store.Load({});
  }

  lemma UnwrittenPost(cfg: Config, trust: Call -> Trust, imageId: string, r: Record, ok: bool, managed: set<string>,
                      workers: map<string, Record>, workers': map<string, Record>, d: Docker, d': Docker)
    requires InstallOutcome(cfg, trust, true, imageId, r, ok, managed, workers, workers', d, d')
    requires trust(WriteFile).Broken? && r.snapshot.workerId !in workers
    ensures d' == d && r.managed == {}
  {
  }

  /** A post that cannot be written, by a worker that is not in memory. */
  method UnwrittenUpsert(store: Store, s: Snapshot)
    requires store.Valid() && store.workers == map[]
    requires store.host.trust(WriteFile).Broken? && !Refused(s)
    modifies store`workers, store.host`alive, store.host`now, store.host`disk, store.host`docker, store.host`nextId,
      store.host`changes
    ensures store.Valid()
    ensures store.host.alive ==> store.host.docker == old(store.host.docker)
    ensures store.host.alive ==> s.workerId in store.workers && store.workers[s.workerId].managed == {}
  {
    hide FrameOf, OrphanFree, UniqueIds, Ledger.RecordedAfterGate, Wanted, Validated, RecordsOk, OldOrMade;
    hide Traced, InstallOutcome, Written, Apart, Alone, Refused;
    NotRefused(s);
    ghost var d := store.host.docker;
    var posted, managed := store.Upsert(s);
    if store.host.alive {
      UnwrittenPost(store.cfg, store.host.trust, store.host.imageId, store.workers[s.workerId], posted, managed, map[],
                    store.workers, d, store.host.docker);
    }
  }

  /** Such a post, by a worker that has stubs. */
  method LostPost(store: Store, s: Snapshot)
    requires store.Valid() && store.workers == map[] && store.ttl > 0
    requires store.host.trust == AllBut(WriteFile, Broken) && !Refused(s) && !NoneOf(store.host.docker, s.workerId)
    modifies store, store.host
    ensures store.host.alive ==> !store.Durable()
  {
    hide OrphanFree, UniqueIds, Validated, RecordsOk, Traced, RemovedOnly, Mine, Stuck, Clearing, Listed, Apart, Alone;
    ghost var d := store.host.docker;
    ghost var n :| n in d && Mine(d[n], s.workerId);
    NotRefused(s);
    hide Refused;
    UnwrittenUpsert(store, s);
    if !store.host.alive {
      return;
    }
    ghost var workers := store.workers;
    ghost var gone := WaitAndExpire(store, s.workerId);
    if store.host.alive {
      StillThere(d, store.host.docker, workers, gone, n, s.workerId);
      OrphanLeft(store.host.docker, store.host.disk, s.workerId);
    }
  }

  /** Reading or writing files is needed: the process starts without being able to read the record, the
      worker posts again, nothing can be written, and expiry deletes the old file and no container. */
  method NeitherReadNorWritten(store: Store, s: Snapshot, later: Snapshot) returns (next: Store)
    requires Fresh(store) && Welcome(store, s) && !Refused(later) && later.workerId == s.workerId
    modifies store, store.host
    ensures next.host == store.host && (store.host.alive ==> !next.Durable())
  {
    hide OrphanFree, UniqueIds, Validated, RecordsOk, DesiredByName, Traced, NoneOf;
    FirstPost(store, s);
    store.host.Turn(AllBut(ReadFile, Broken));
    next := BlindStart(store);
    store.host.Turn(AllBut(WriteFile, Broken));
    if store.host.alive {
      LostPost(next, later);
    }
  }

  /** State files must not be shared: though all calls work, the post of another worker with the same file
      overwrites the record of the first, whose stubs stay. */
  method SharedFile(store: Store, s: Snapshot, other: Snapshot)
    requires Fresh(store) && Welcome(store, s) && !Refused(other) && other.workerId != s.workerId
    requires FileOf(store.host.dir, other.workerId) == FileOf(store.host.dir, s.workerId)
    modifies store, store.host
    ensures store.host.alive ==> !store.Durable()
  {
    hide FrameOf, OrphanFree, UniqueIds, Ledger.RecordedAfterGate, Wanted, Validated, RecordsOk, OldOrMade;
    hide DesiredByName, Traced, NoneOf, FileOf, InstallOutcome, Apart, Alone;
    FirstPost(store, s);
    if store.host.alive {
      ghost var d := store.host.docker;
      NotRefused(other);
      NotRefused(s);
      var ok, managed := store.Upsert(other);
      SomeStay(d, store.host.docker, other.workerId, s.workerId);
      if store.host.alive {
        assert s.workerId !in store.host.disk;
        OrphanLeft(store.host.docker, store.host.disk, s.workerId);
      }
    }
  }

  lemma SomeStay(d: Docker, d': Docker, v: string, w: string)
    requires FrameOf(v, d, d') && v != w && !NoneOf(d, w)
    ensures !NoneOf(d', w)
  {
    hide Mine;
    var n :| n in d && Mine(d[n], w);
    if Mine(d[n], v) {
      NobodyOwnsTwice(d[n], v, w);
    }
  }
}
